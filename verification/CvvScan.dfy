/** Reading a transcript: its lines, the assistant turns in them, and the line a match is on. */
module CvvScan {
  import opened Basics
  import opened Transcript

  // ---- Lines ------------------------------------------------------------------------------------

  /** Where `splitlines` breaks. */
  predicate IsBreak(c: char) {
    '\n' <= c <= '\r' || '\U{1c}' <= c <= '\U{1e}' || c == '\U{85}' || c == '\U{2028}' || c == '\U{2029}'
  }

  function BreakAt(s: string): (k: nat)
    ensures k <= |s| && (k < |s| ==> IsBreak(s[k]))
    ensures forall i | 0 <= i < k :: !IsBreak(s[i])
  {
    if s == "" || IsBreak(s[0]) then 0 else 1 + BreakAt(s[1..])
  }

  lemma {:induction false} BreakUnique(s: string, k: nat)
    requires k <= |s| && (k < |s| ==> IsBreak(s[k]))
    requires forall i | 0 <= i < k :: !IsBreak(s[i])
    ensures BreakAt(s) == k
  {
  }

  /** A carriage return and the newline after it are one break. */
  function BreakWidth(s: string, k: nat): (w: nat)
    requires k < |s|
    ensures 1 <= w <= |s| - k
  {
    if s[k] == '\r' && k + 1 < |s| && s[k + 1] == '\n' then 2 else 1
  }

  function SplitLines(s: string): seq<string>
    decreases |s|
  {
    if s == "" then []
    else
      var k := BreakAt(s);
      if k == |s| then [s] else [s[..k]] + SplitLines(s[k + BreakWidth(s, k)..])
  }

  lemma {:induction false} SplitStep(s: string, k: nat, rest: string)
    requires k < |s| && k == BreakAt(s) && rest == s[k + BreakWidth(s, k)..]
    ensures SplitLines(s) == [s[..k]] + SplitLines(rest)
  {
  }

  lemma {:induction false} SplitNothing()
    ensures SplitLines("") == []
  {
  }

  /** Splitting goes through joining: a newline between two texts ends the first one's last line. */
  lemma {:induction false} BreakKept(t: string, b: string)
    requires t != "" && t[|t| - 1] == '\n'
    ensures var k := BreakAt(t); k < |t| && BreakAt(t + b) == k && BreakWidth(t + b, k) == BreakWidth(t, k)
  {
    var k, s := BreakAt(t), t + b;
    assert k < |t|;
    assert forall i | 0 <= i < |t| :: s[i] == t[i];
    BreakUnique(s, k);
  }

  /** A text that ends in a newline is split on its own. */
  lemma {:induction false} SplitEnded(t: string, b: string)
    requires t == "" || t[|t| - 1] == '\n'
    ensures SplitLines(t + b) == SplitLines(t) + SplitLines(b)
    decreases |t|
  {
    hide SplitLines, BreakAt, BreakWidth, IsBreak;
    if t == "" {
      SplitNothing();
      assert t + b == b && [] + SplitLines(b) == SplitLines(b);
    } else {
      BreakKept(t, b);
      var k := BreakAt(t);
      var n := k + BreakWidth(t, k);
      var rest := t[n..];
      assert (t + b)[n..] == rest + b && (t + b)[..k] == t[..k];
      assert rest != "" ==> rest[|rest| - 1] == t[|t| - 1];
      SplitStep(t, k, rest);
      SplitStep(t + b, k, rest + b);
      SplitEnded(rest, b);
      Regroup([t[..k]], SplitLines(rest), SplitLines(b));
    }
  }

  lemma {:induction false} SplitJoined(a: string, b: string)
    ensures SplitLines(a + "\n" + b) == SplitLines(a + "\n") + SplitLines(b)
  {
    SplitEnded(a + "\n", b);
  }

  /** The transcript lines one rendered line becomes, when something follows it. */
  function Physical(lines: seq<string>): seq<string> {
    if lines == [] then [] else Physical(lines[..|lines| - 1]) + SplitLines(lines[|lines| - 1] + "\n")
  }

  lemma {:induction false} SplitJoin(lines: seq<string>)
    requires lines != []
    ensures SplitLines(Join(lines)) == Physical(lines[..|lines| - 1]) + SplitLines(lines[|lines| - 1])
    ensures SplitLines(Join(lines) + "\n") == Physical(lines)
  {
    hide SplitLines;
    var init, last := lines[..|lines| - 1], lines[|lines| - 1];
    if init == [] {
      assert Join(lines) == last;
    } else {
      SplitJoin(init);
      JoinLast(lines);
      hide Join, Physical;
      SplitJoined(Join(init), last);
      SplitJoined(Join(init), last + "\n");
      assert Join(init) + "\n" + last + "\n" == Join(init) + "\n" + (last + "\n");
      PhysicalLast(lines);
    }
  }

  lemma {:induction false} JoinLast(lines: seq<string>)
    requires |lines| > 1
    ensures Join(lines) == Join(lines[..|lines| - 1]) + "\n" + lines[|lines| - 1]
  {
  }

  lemma {:induction false} PhysicalLast(lines: seq<string>)
    requires lines != []
    ensures Physical(lines) == Physical(lines[..|lines| - 1]) + SplitLines(lines[|lines| - 1] + "\n")
  {
  }

  lemma {:induction false} PhysicalConcat(a: seq<string>, b: seq<string>)
    ensures Physical(a + b) == Physical(a) + Physical(b)
  {
    if b == [] {
      assert a + b == a;
    } else {
      var init := b[..|b| - 1];
      assert (a + b)[..|a + b| - 1] == a + init;
      PhysicalConcat(a, init);
      Regroup(Physical(a), Physical(init), SplitLines(b[|b| - 1] + "\n"));
    }
  }

  // ---- Turns ------------------------------------------------------------------------------------

  const ASSISTANT := "## Assistant"
  const USER := "## User"

  predicate OpensTurn(line: string) { ASSISTANT <= line }
  predicate ClosesTurn(line: string) { !OpensTurn(line) && USER <= line }
  predicate IsContent(line: string) { !OpensTurn(line) && !ClosesTurn(line) }

  /** A turn: the one-based number of its first line, and its lines. */
  datatype Turn = Turn(start: nat, lines: seq<string>)

  /** The turns completed in front of line k, and the one still open. */
  datatype Progress = Progress(done: seq<Turn>, open: seq<Turn>)

  function Closed(p: Progress): Progress {
    Progress(p.done + p.open, [])
  }

  function Read(p: Progress, at: nat, line: string): Progress {
    if OpensTurn(line) then Progress(p.done + p.open, [Turn(at + 1, [line])])
    else if ClosesTurn(line) then Closed(p)
    else if p.open == [] then p
    else p.(open := [p.open[0].(lines := p.open[0].lines + [line])])
  }

  /** Reading `lines`, the first of which is line number `at`, counted from zero. */
  function ReadAll(p: Progress, at: nat, lines: seq<string>): Progress {
    if lines == [] then p
    else Read(ReadAll(p, at, lines[..|lines| - 1]), at + |lines| - 1, lines[|lines| - 1])
  }

  function Turns(lines: seq<string>): seq<Turn> {
    Closed(ReadAll(Progress([], []), 0, lines)).done
  }

  method SplitIntoAssistantTurns(lines: seq<string>) returns (turns: seq<Turn>)
    ensures turns == Turns(lines)
  {
    hide OpensTurn, ClosesTurn;
    turns := [];
    var open, currentStart: nat, currentLines: seq<string> := false, 0, [];
    for i := 0 to |lines|
      invariant Progress(turns, if open then [Turn(currentStart, currentLines)] else []) ==
                ReadAll(Progress([], []), 0, lines[..i])
    {
      var line := lines[i];
      assert lines[..i + 1][..i] == lines[..i];
      if OpensTurn(line) {
        if open {
          turns := turns + [Turn(currentStart, currentLines)];
        }
        open, currentStart, currentLines := true, i + 1, [line];
      } else if ClosesTurn(line) {
        if open {
          turns := turns + [Turn(currentStart, currentLines)];
        }
        open, currentLines := false, [];
      } else if open {
        currentLines := currentLines + [line];
      }
    }
    assert lines[..|lines|] == lines;
    if open {
      turns := turns + [Turn(currentStart, currentLines)];
    }
  }

  // ---- Rendered messages are recovered ------------------------------------------------------------

  /** A stretch of transcript lines with at most its first line a heading. */
  datatype Stretch = Opening(lines: seq<string>) | Closing(lines: seq<string>) | Inside(lines: seq<string>)

  predicate WellShaped(b: Stretch) {
    match b
    case Opening(ls) => ls != [] && OpensTurn(ls[0]) && forall i | 0 < i < |ls| :: IsContent(ls[i])
    case Closing(ls) => ls != [] && ClosesTurn(ls[0]) && forall i | 0 < i < |ls| :: IsContent(ls[i])
    case Inside(ls) => forall i | 0 <= i < |ls| :: IsContent(ls[i])
  }

  function AllLines(bs: seq<Stretch>): seq<string> {
    if bs == [] then [] else AllLines(bs[..|bs| - 1]) + bs[|bs| - 1].lines
  }

  /** Turn by turn, without looking at lines: an opening stretch is a turn, together with the
      inside stretches that follow it. */
  function ReadStretch(p: Progress, at: nat, b: Stretch): Progress {
    match b
    case Opening(ls) => Progress(p.done + p.open, [Turn(at + 1, ls)])
    case Closing(_) => Closed(p)
    case Inside(ls) => if p.open == [] then p else p.(open := [p.open[0].(lines := p.open[0].lines + ls)])
  }

  function ReadStretches(bs: seq<Stretch>): Progress {
    if bs == [] then Progress([], [])
    else ReadStretch(ReadStretches(bs[..|bs| - 1]), |AllLines(bs[..|bs| - 1])|, bs[|bs| - 1])
  }

  lemma {:induction false} OneOpenAtMost(bs: seq<Stretch>)
    ensures |ReadStretches(bs).open| <= 1
  {
    if bs != [] { OneOpenAtMost(bs[..|bs| - 1]); }
  }

  lemma {:induction false} ReadAllConcat(p: Progress, at: nat, a: seq<string>, b: seq<string>)
    ensures ReadAll(p, at, a + b) == ReadAll(ReadAll(p, at, a), at + |a|, b)
  {
    if b == [] {
      assert a + b == a;
    } else {
      var init := b[..|b| - 1];
      assert (a + b)[..|a + b| - 1] == a + init;
      ReadAllConcat(p, at, a, init);
    }
  }

  lemma {:induction false} ReadContent(p: Progress, at: nat, ls: seq<string>)
    requires |p.open| <= 1 && forall i | 0 <= i < |ls| :: IsContent(ls[i])
    ensures ReadAll(p, at, ls) == ReadStretch(p, at, Inside(ls))
  {
    hide OpensTurn, ClosesTurn;
    if ls == [] {
      if p.open != [] {
        assert p.open[0].lines + [] == p.open[0].lines;
        assert p.open == [p.open[0]];
      }
    } else {
      var init, last := ls[..|ls| - 1], ls[|ls| - 1];
      ReadContent(p, at, init);
      assert IsContent(last);
      if p.open != [] {
        Regroup(p.open[0].lines, init, [last]);
        assert init + [last] == ls;
      }
    }
  }

  lemma {:induction false} ReadOneLine(p: Progress, at: nat, line: string)
    ensures ReadAll(p, at, [line]) == Read(p, at, line)
  {
    hide Read;
    assert [line][..0] == [];
  }

  lemma {:induction false} ReadHeaded(p: Progress, at: nat, head: string, rest: seq<string>)
    requires |p.open| <= 1 && !IsContent(head) && forall i | 0 <= i < |rest| :: IsContent(rest[i])
    ensures ReadAll(p, at, [head] + rest) ==
            if OpensTurn(head) then Progress(p.done + p.open, [Turn(at + 1, [head] + rest)]) else Closed(p)
  {
    hide OpensTurn, ClosesTurn, ReadAll;
    ReadAllConcat(p, at, [head], rest);
    ReadOneLine(p, at, head);
    ReadContent(Read(p, at, head), at + 1, rest);
  }

  lemma {:induction false} ReadOneStretch(p: Progress, at: nat, b: Stretch)
    requires |p.open| <= 1 && WellShaped(b)
    ensures ReadAll(p, at, b.lines) == ReadStretch(p, at, b)
  {
    hide OpensTurn, ReadAll;
    if b.Inside? {
      ReadContent(p, at, b.lines);
    } else {
      var head, rest := b.lines[0], b.lines[1..];
      assert b.lines == [head] + rest;
      assert forall i | 0 <= i < |rest| :: rest[i] == b.lines[i + 1];
      ReadHeaded(p, at, head, rest);
    }
  }

  /** Splitting lines that come in well-shaped stretches is reading the stretches. */
  lemma {:induction false} TurnsOfStretches(bs: seq<Stretch>)
    requires forall i | 0 <= i < |bs| :: WellShaped(bs[i])
    ensures ReadAll(Progress([], []), 0, AllLines(bs)) == ReadStretches(bs)
  {
    if bs != [] {
      var init, last := bs[..|bs| - 1], bs[|bs| - 1];
      TurnsOfStretches(init);
      OneOpenAtMost(init);
      hide WellShaped, ReadStretch, ReadAll;
      ReadAllConcat(Progress([], []), 0, AllLines(init), last.lines);
      ReadOneStretch(ReadStretches(init), |AllLines(init)|, last);
    }
  }

  /** The turns there should be: one per opening stretch, in order, starting on its first line. */
  function Expected(bs: seq<Stretch>): seq<Turn> {
    if bs == [] then []
    else
      var init, last := bs[..|bs| - 1], bs[|bs| - 1];
      Expected(init) + (if last.Opening? then [Turn(|AllLines(init)| + 1, last.lines)] else [])
  }

  /** The lines of the inside stretches. */
  function Between(bs: seq<Stretch>): seq<string> {
    if bs == [] then []
    else Between(bs[..|bs| - 1]) + (if bs[|bs| - 1].Inside? then bs[|bs| - 1].lines else [])
  }

  /** The turn has these lines, and after them only lines from between. */
  ghost predicate Holds(t: Turn, lines: seq<string>, between: seq<string>) {
    lines <= t.lines && forall j | |lines| <= j < |t.lines| :: t.lines[j] in between
  }

  lemma {:induction false} HoldsMore(t: Turn, lines: seq<string>, between: seq<string>, more: seq<string>)
    requires Holds(t, lines, between)
    ensures Holds(t, lines, between + more)
    ensures Holds(t.(lines := t.lines + more), lines, between + more)
  {
    var longer := t.lines + more;
    forall j | |lines| <= j < |longer| ensures longer[j] in between + more {
      if j < |t.lines| { assert longer[j] == t.lines[j]; } else { assert longer[j] == more[j - |t.lines|]; }
    }
  }

  /** Same number of turns, in the same places, each holding the expected lines. */
  ghost predicate Recovers(turns: seq<Turn>, expected: seq<Turn>, between: seq<string>) {
    && |turns| == |expected|
    && forall i | 0 <= i < |turns| :: turns[i].start == expected[i].start && Holds(turns[i], expected[i].lines, between)
  }

  lemma {:induction false} RecoversMore(turns: seq<Turn>, expected: seq<Turn>, between: seq<string>, more: seq<string>)
    requires Recovers(turns, expected, between)
    ensures Recovers(turns, expected, between + more)
    ensures turns != [] ==>
              var last := turns[|turns| - 1];
              Recovers(turns[..|turns| - 1] + [last.(lines := last.lines + more)], expected, between + more)
  {
    hide Holds;
    forall i | 0 <= i < |turns| ensures Holds(turns[i], expected[i].lines, between + more) {
      HoldsMore(turns[i], expected[i].lines, between, more);
    }
    if turns != [] { HoldsMore(turns[|turns| - 1], expected[|turns| - 1].lines, between, more); }
  }

  lemma {:induction false} RecoversNext(turns: seq<Turn>, expected: seq<Turn>, between: seq<string>, next: Turn)
    requires Recovers(turns, expected, between)
    ensures Recovers(turns + [next], expected + [next], between)
  {
    assert Holds(next, next.lines, between);
    hide Holds;
  }

  lemma {:induction false} StretchesRecovered(bs: seq<Stretch>)
    ensures Recovers(Closed(ReadStretches(bs)).done, Expected(bs), Between(bs))
  {
    if bs != [] {
      var init, last := bs[..|bs| - 1], bs[|bs| - 1];
      StretchesRecovered(init);
      OneOpenAtMost(init);
      var p, e := ReadStretches(init), Expected(init);
      var was := p.done + p.open;
      hide Recovers;
      assert Between(init) + [] == Between(init) && e + [] == e && was + [] == was;
      match last {
        case Opening(ls) =>
          RecoversNext(was, e, Between(init), Turn(|AllLines(init)| + 1, ls));
        case Closing(_) =>
        case Inside(ls) =>
          RecoversMore(was, e, Between(init), ls);
          if p.open != [] {
            assert was[|was| - 1] == p.open[0] && was[..|was| - 1] == p.done;
          }
      }
    }
  }
}
