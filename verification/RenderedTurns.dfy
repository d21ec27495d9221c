/** Splitting a rendered record recovers its assistant messages. */
module RenderedTurns {
  import opened Basics
  import opened Chain
  import opened Transcript
  import opened CvvScan

  // ---- The transcript in stretches ----------------------------------------------------------------

  /** The transcript lines of some rendered blocks. */
  function PhysicalLines(blocks: seq<Block>): seq<string> {
    Physical(Flatten(blocks))
  }

  function MessageLines(m: Message, cap: nat): seq<string> {
    PhysicalLines(RenderMessage(m, cap))
  }

  function StretchOf(lines: seq<string>): Stretch {
    if lines != [] && OpensTurn(lines[0]) then Opening(lines)
    else if lines != [] && ClosesTurn(lines[0]) then Stretch.Closing(lines)
    else Inside(lines)
  }

  function MessageStretches(ms: seq<Message>, cap: nat): seq<Stretch> {
    if ms == [] then []
    else MessageStretches(ms[..|ms| - 1], cap) + [StretchOf(MessageLines(ms[|ms| - 1], cap))]
  }

  function ChildStretches(children: seq<Child>, cap: nat): seq<Stretch> {
    if children == [] then []
    else
      var last := children[|children| - 1];
      ChildStretches(children[..|children| - 1], cap)
      + [Inside(PhysicalLines(ChildHeading(last.id)))] + MessageStretches(last.messages, cap)
  }

  function Stretches(r: Record, incomplete: Option<string>, cap: nat): seq<Stretch> {
    MessageStretches(r.messages, cap) + ChildStretches(r.children, cap)
    + [Inside(PhysicalLines(Note(incomplete)))]
  }

  /** No line below a message's heading reads as a turn heading. */
  predicate CleanMessage(m: Message, cap: nat) {
    var lines := MessageLines(m, cap);
    forall i | 0 < i < |lines| :: IsContent(lines[i])
  }

  predicate CleanMessages(ms: seq<Message>, cap: nat) {
    forall i | 0 <= i < |ms| :: CleanMessage(ms[i], cap)
  }

  predicate CleanLines(lines: seq<string>) {
    forall i | 0 <= i < |lines| :: IsContent(lines[i])
  }

  predicate CleanRecord(r: Record, incomplete: Option<string>, cap: nat) {
    && CleanMessages(r.messages, cap)
    && (forall i | 0 <= i < |r.children| :: CleanChild(r.children[i], cap))
    && CleanLines(PhysicalLines(Note(incomplete)))
  }

  predicate AllWellShaped(bs: seq<Stretch>) {
    forall i | 0 <= i < |bs| :: WellShaped(bs[i])
  }

  lemma {:induction false} PhysicalLinesConcat(a: seq<Block>, b: seq<Block>)
    ensures PhysicalLines(a + b) == PhysicalLines(a) + PhysicalLines(b)
  {
    hide Flatten, Physical;
    FlattenConcat(a, b);
    PhysicalConcat(Flatten(a), Flatten(b));
  }

  lemma {:induction false} AllLinesLast(bs: seq<Stretch>, b: Stretch)
    ensures AllLines(bs + [b]) == AllLines(bs) + b.lines
  {
    assert (bs + [b])[..|bs|] == bs;
  }

  lemma {:induction false} AllLinesConcat(a: seq<Stretch>, b: seq<Stretch>)
    ensures AllLines(a + b) == AllLines(a) + AllLines(b)
  {
    if b == [] {
      assert a + b == a;
    } else {
      var init, last := b[..|b| - 1], b[|b| - 1];
      assert b == init + [last] && a + b == (a + init) + [last];
      AllLinesConcat(a, init);
      hide AllLines;
      AllLinesLast(a + init, last);
      AllLinesLast(init, last);
      Regroup(AllLines(a), AllLines(init), last.lines);
    }
  }

  lemma {:induction false} AllLines3(a: seq<Stretch>, b: seq<Stretch>, c: seq<Stretch>)
    ensures AllLines(a + b + c) == AllLines(a) + AllLines(b) + AllLines(c)
  {
    hide AllLines;
    AllLinesConcat(a, b);
    AllLinesConcat(a + b, c);
  }

  lemma {:induction false} PhysicalLines3(a: seq<Block>, b: seq<Block>, c: seq<Block>)
    ensures PhysicalLines(a + b + c) == PhysicalLines(a) + PhysicalLines(b) + PhysicalLines(c)
  {
    hide PhysicalLines;
    PhysicalLinesConcat(a, b);
    PhysicalLinesConcat(a + b, c);
  }

  lemma {:induction false} AllLinesOne(b: Stretch)
    ensures AllLines([b]) == b.lines
  {
    assert [b][..0] == [];
  }

  lemma {:induction false} MessageStretch(before: seq<Stretch>, blocks: seq<Block>, m: Message, cap: nat)
    requires CleanMessage(m, cap) && AllLines(before) == PhysicalLines(blocks) && AllWellShaped(before)
    ensures var bs := before + [StretchOf(MessageLines(m, cap))];
            AllLines(bs) == PhysicalLines(blocks + RenderMessage(m, cap)) && AllWellShaped(bs)
  {
    hide RenderMessage, PhysicalLines, AllLines, OpensTurn, ClosesTurn;
    PhysicalLinesConcat(blocks, RenderMessage(m, cap));
    var b := StretchOf(MessageLines(m, cap));
    AllLinesConcat(before, [b]);
    AllLinesOne(b);
  }

  lemma {:induction false} MessageStretchesLines(ms: seq<Message>, cap: nat)
    requires CleanMessages(ms, cap)
    ensures AllLines(MessageStretches(ms, cap)) == PhysicalLines(RenderMessages(ms, cap))
    ensures AllWellShaped(MessageStretches(ms, cap))
  {
    if ms != [] {
      hide RenderMessage, PhysicalLines, AllLines, MessageLines, CleanMessage, AllWellShaped, StretchOf;
      var init, m := ms[..|ms| - 1], ms[|ms| - 1];
      MessageStretchesLines(init, cap);
      MessageStretch(MessageStretches(init, cap), RenderMessages(init, cap), m, cap);
    } else {
      NoPhysicalLines();
    }
  }

  lemma {:induction false} NoPhysicalLines()
    ensures PhysicalLines([]) == []
  {
  }

  predicate CleanChild(c: Child, cap: nat) {
    CleanMessages(c.messages, cap) && CleanLines(PhysicalLines(ChildHeading(c.id)))
  }

  lemma {:induction false} ChildLines(before: seq<Stretch>, blocks: seq<Block>, c: Child, cap: nat)
    requires CleanChild(c, cap) && AllLines(before) == PhysicalLines(blocks) && AllWellShaped(before)
    ensures var bs := before + [Inside(PhysicalLines(ChildHeading(c.id)))] + MessageStretches(c.messages, cap);
            && AllLines(bs) == PhysicalLines(blocks + ChildHeading(c.id) + RenderMessages(c.messages, cap))
            && AllWellShaped(bs)
  {
    hide PhysicalLines, AllLines, OpensTurn, ClosesTurn, MessageStretches, RenderMessages, ChildHeading, CleanMessages;
    MessageStretchesLines(c.messages, cap);
    var h := Inside(PhysicalLines(ChildHeading(c.id)));
    AllLines3(before, [h], MessageStretches(c.messages, cap));
    AllLinesOne(h);
    PhysicalLines3(blocks, ChildHeading(c.id), RenderMessages(c.messages, cap));
  }

  lemma {:induction false} ChildStretchesLines(children: seq<Child>, cap: nat)
    requires forall i | 0 <= i < |children| :: CleanChild(children[i], cap)
    ensures AllLines(ChildStretches(children, cap)) == PhysicalLines(RenderChildren(children, cap))
    ensures AllWellShaped(ChildStretches(children, cap))
  {
    if children != [] {
      hide RenderMessages, PhysicalLines, AllLines, MessageStretches, ChildHeading, CleanChild, AllWellShaped;
      var init, last := children[..|children| - 1], children[|children| - 1];
      ChildStretchesLines(init, cap);
      ChildLines(ChildStretches(init, cap), RenderChildren(init, cap), last, cap);
    } else {
      NoPhysicalLines();
    }
  }

  lemma {:induction false} StretchesLines(r: Record, incomplete: Option<string>, cap: nat)
    requires CleanRecord(r, incomplete, cap)
    ensures AllLines(Stretches(r, incomplete, cap)) == PhysicalLines(Render(r, incomplete, cap))
    ensures AllWellShaped(Stretches(r, incomplete, cap))
  {
    hide RenderMessages, RenderChildren, Note, PhysicalLines, AllLines, OpensTurn, ClosesTurn, MessageStretches,
         ChildStretches, CleanMessages, CleanChild;
    MessageStretchesLines(r.messages, cap);
    ChildStretchesLines(r.children, cap);
    var last := Inside(PhysicalLines(Note(incomplete)));
    PhysicalLines3(RenderMessages(r.messages, cap), RenderChildren(r.children, cap), Note(incomplete));
    AllLines3(MessageStretches(r.messages, cap), ChildStretches(r.children, cap), [last]);
    AllLinesOne(last);
  }

  // ---- The end of the transcript ------------------------------------------------------------------

  /** A rendered record ends in an empty line or in the capture note, or is empty. */
  lemma {:induction false} RenderEnds(r: Record, incomplete: Option<string>, cap: nat)
    ensures var lines := Flatten(Render(r, incomplete, cap));
            lines == [] || lines[|lines| - 1] == "" || (incomplete.Some? && EndsInUnderscore(lines[|lines| - 1]))
  {
    var a, b, note := RenderMessages(r.messages, cap), RenderChildren(r.children, cap), Note(incomplete);
    FlattenConcat(a + b, note);
    FlattenConcat(a, b);
    MessagesEndBlank(r.messages, cap);
    ChildrenEndBlank(r.children, cap);
    hide RenderMessages, RenderChildren;
    if incomplete.Some? {
      var line := "_[CAPTURE INCOMPLETE: " + incomplete.value + "]_";
      OneBlock(Line(line));
      assert line[|line| - 1] == '_';
    } else {
      assert Flatten(note) == [];
    }
  }

  predicate EndsInUnderscore(s: string) {
    s != "" && s[|s| - 1] == '_'
  }

  predicate EndsBlank(lines: seq<string>) {
    lines == [] || lines[|lines| - 1] == ""
  }

  lemma {:induction false} MessageEndsBlank(m: Message, cap: nat)
    ensures var lines := Flatten(RenderMessage(m, cap)); lines != [] && EndsBlank(lines)
  {
    hide RenderParts, Heading, Flatten;
    ClosingLines(m);
    FlattenConcat([Line(Heading(m.role))] + RenderParts(m.parts, cap), Transcript.Closing(m));
  }

  lemma {:induction false} MessagesEndBlank(ms: seq<Message>, cap: nat)
    ensures EndsBlank(Flatten(RenderMessages(ms, cap)))
  {
    if ms != [] {
      hide RenderMessage, Flatten;
      FlattenConcat(RenderMessages(ms[..|ms| - 1], cap), RenderMessage(ms[|ms| - 1], cap));
      MessageEndsBlank(ms[|ms| - 1], cap);
    }
  }

  lemma {:induction false} ChildrenEndBlank(children: seq<Child>, cap: nat)
    ensures EndsBlank(Flatten(RenderChildren(children, cap)))
  {
    if children != [] {
      hide Flatten, RenderMessages;
      var init, last := children[..|children| - 1], children[|children| - 1];
      var before, heading := RenderChildren(init, cap), ChildHeading(last.id);
      var inner := RenderMessages(last.messages, cap);
      FlattenConcat(before + heading, inner);
      FlattenConcat(before, heading);
      TwoBlocks(Line("# Subagent session " + last.id), Line(""));
      MessagesEndBlank(last.messages, cap);
    }
  }

  lemma {:induction false} SameBreak(s: string)
    requires s != "" && !IsBreak(s[|s| - 1])
    ensures BreakAt(s + "\n") == BreakAt(s)
  {
    var t, k := s + "\n", BreakAt(s);
    assert forall i | 0 <= i < |s| :: t[i] == s[i];
    BreakUnique(t, k);
  }

  lemma {:induction false} BreakInside(s: string, k: nat)
    requires k < |s| && IsBreak(s[k]) && !IsBreak(s[|s| - 1])
    ensures k + BreakWidth(s, k) < |s|
    ensures BreakWidth(s + "\n", k) == BreakWidth(s, k)
  {
  }

  lemma {:induction false} SplitUnbroken(s: string)
    requires s != "" && !IsBreak(s[|s| - 1])
    ensures SplitLines(s + "\n") == SplitLines(s)
    decreases |s|
  {
    var t, k := s + "\n", BreakAt(s);
    SameBreak(s);
    if k == |s| {
      hide BreakAt;
      assert t[k + 1..] == "" && t[..k] == s;
      SplitNothing();
      assert [s] + [] == [s];
    } else {
      BreakInside(s, k);
      hide SplitLines, IsBreak, BreakAt, BreakWidth;
      var n := k + BreakWidth(s, k);
      var rest := s[n..];
      assert t[n..] == rest + "\n" && t[..k] == s[..k];
      assert rest[|rest| - 1] == s[|s| - 1];
      SplitStep(s, k, rest);
      SplitStep(t, k, rest + "\n");
      SplitUnbroken(rest);
    }
  }

  /** The lines the scanner sees: those of the stretches, except that a final empty line is lost. */
  lemma {:induction false} TranscriptLines(lines: seq<string>)
    requires lines == [] || lines[|lines| - 1] == "" || EndsInUnderscore(lines[|lines| - 1])
    ensures var seen := SplitLines(Join(lines));
            seen == Physical(lines) || Physical(lines) == seen + [""]
  {
    if lines != [] {
      SplitJoin(lines);
      var init, last := lines[..|lines| - 1], lines[|lines| - 1];
      hide Join;
      if last == "" {
        BlankLine();
        assert Physical(init) + [] == Physical(init);
        assert SplitLines(Join(lines)) == Physical(init);
      } else {
        SplitUnbroken(last);
      }
    }
  }

  lemma {:induction false} BlankLine()
    ensures SplitLines("" + "\n") == [""] && SplitLines("") == []
  {
    var s := "" + "\n";
    assert s == "\n" && BreakAt(s) == 0 && s[1..] == "" && s[..0] == "";
    SplitStep(s, 0, "");
    SplitNothing();
    assert [""] + [] == [""];
  }

  // ---- The round trip -----------------------------------------------------------------------------

  /** As above, or all of the lines but the blank one at the end of the text. */
  ghost predicate HoldsBare(t: Turn, lines: seq<string>, between: seq<string>) {
    Holds(t, lines, between) || t.lines + [""] == lines
  }

  /** Same number of turns, in the same places, each holding the expected lines. */
  ghost predicate RecoversBare(turns: seq<Turn>, expected: seq<Turn>, between: seq<string>) {
    && |turns| == |expected|
    && (forall i | 0 <= i < |turns| ::
          turns[i].start == expected[i].start && HoldsBare(turns[i], expected[i].lines, between))
    && forall i | 0 <= i < |turns| - 1 :: Holds(turns[i], expected[i].lines, between)
  }

  lemma {:induction false} HoldsShorter(t: Turn, lines: seq<string>, between: seq<string>)
    requires Holds(t.(lines := t.lines + [""]), lines, between)
    ensures HoldsBare(t, lines, between)
  {
    var longer := t.lines + [""];
    if |lines| == |longer| {
      assert lines == longer;
    } else {
      assert lines <= t.lines;
      forall j | |lines| <= j < |t.lines| ensures t.lines[j] in between {
        assert longer[j] == t.lines[j];
      }
    }
  }

  /** Reading one more blank line only makes the last turn longer. */
  lemma {:induction false} OneBlankMore(seen: seq<string>)
    ensures Turns(seen + [""]) == Turns(seen) ||
            (Turns(seen) != [] &&
             var n := |Turns(seen)| - 1;
             var last := Turns(seen)[n];
             Turns(seen + [""]) == Turns(seen)[..n] + [last.(lines := last.lines + [""])])
  {
    var all := seen + [""];
    assert all[..|seen|] == seen;
    var p := ReadAll(CvvScan.Progress([], []), 0, seen);
    assert IsContent("");
    assert ReadAll(CvvScan.Progress([], []), 0, all) == Read(p, |seen|, "");
    hide ReadAll, OpensTurn, ClosesTurn;
    if p.open != [] {
      OneOpen(seen);
      assert p.open == [p.open[0]];
      assert (p.done + p.open)[..|p.done|] == p.done;
    }
  }

  lemma {:induction false} BlankLineLost(seen: seq<string>, expected: seq<Turn>, between: seq<string>)
    requires Recovers(Turns(seen + [""]), expected, between)
    ensures RecoversBare(Turns(seen), expected, between)
  {
    OneBlankMore(seen);
    hide Turns, Holds;
    var all, turns := Turns(seen + [""]), Turns(seen);
    forall i | 0 <= i < |turns| ensures HoldsBare(turns[i], expected[i].lines, between) {
      assert Holds(all[i], expected[i].lines, between);
      if all != turns && i == |turns| - 1 { HoldsShorter(turns[i], expected[i].lines, between); }
    }
  }

  lemma {:induction false} OneOpen(lines: seq<string>)
    ensures |ReadAll(CvvScan.Progress([], []), 0, lines).open| <= 1
  {
    if lines != [] { OneOpen(lines[..|lines| - 1]); }
  }

  /** Reading back lines that come in stretches. */
  lemma {:induction false} ReadBack(lines: seq<string>, bs: seq<Stretch>)
    requires lines == [] || lines[|lines| - 1] == "" || EndsInUnderscore(lines[|lines| - 1])
    requires Physical(lines) == AllLines(bs) && AllWellShaped(bs)
    ensures RecoversBare(Turns(SplitLines(Join(lines))), Expected(bs), Between(bs))
  {
    hide Physical, SplitLines, Join, Expected, Between, AllLines, WellShaped, ReadStretches, ReadAll, EndsInUnderscore;
    TranscriptLines(lines);
    TurnsOfStretches(bs);
    StretchesRecovered(bs);
    assert Recovers(Turns(AllLines(bs)), Expected(bs), Between(bs));
    hide Turns, Holds;
    var seen := SplitLines(Join(lines));
    if seen != AllLines(bs) { BlankLineLost(seen, Expected(bs), Between(bs)); }
  }

  /** Rendering a record and splitting the transcript gives one turn per opening message, parents
      first, then children, each in its place, holding the message's lines and nothing else but lines
      from between the messages. */
  lemma {:induction false} RenderThenSplit(r: Record, incomplete: Option<string>, cap: nat)
    requires CleanRecord(r, incomplete, cap)
    ensures RecoversBare(Turns(SplitLines(Join(Flatten(Render(r, incomplete, cap))))),
                         Expected(Stretches(r, incomplete, cap)), Between(Stretches(r, incomplete, cap)))
  {
    hide CleanRecord, Render, Stretches, Flatten, Join, Physical, Expected, AllLines, SplitLines, WellShaped, Between,
         EndsInUnderscore, Turns;
    StretchesLines(r, incomplete, cap);
    RenderEnds(r, incomplete, cap);
    ReadBack(Flatten(Render(r, incomplete, cap)), Stretches(r, incomplete, cap));
  }

  // ---- Which turns are expected -------------------------------------------------------------------

  function AssistantLines(ms: seq<Message>, cap: nat): seq<seq<string>> {
    if ms == [] then []
    else AssistantLines(ms[..|ms| - 1], cap)
         + (if ms[|ms| - 1].role == "assistant" then [MessageLines(ms[|ms| - 1], cap)] else [])
  }

  function ChildAssistantLines(children: seq<Child>, cap: nat): seq<seq<string>> {
    if children == [] then []
    else ChildAssistantLines(children[..|children| - 1], cap) + AssistantLines(children[|children| - 1].messages, cap)
  }

  function TurnLines(turns: seq<Turn>): seq<seq<string>> {
    seq(|turns|, i requires 0 <= i < |turns| => turns[i].lines)
  }

  predicate UserOrAssistant(ms: seq<Message>) {
    forall i | 0 <= i < |ms| :: ms[i].role == "user" || ms[i].role == "assistant"
  }

  lemma {:induction false} AssistantHeading()
    ensures Heading("assistant") == ASSISTANT
  {
    assert Capitalize("assistant") == "Assistant";
  }

  lemma {:induction false} UserHeading()
    ensures Heading("user") == USER
  {
    assert Capitalize("user") == "User";
  }

  lemma {:induction false} HeadingsUnbroken()
    ensures forall i | 0 <= i < |ASSISTANT| :: !IsBreak(ASSISTANT[i])
    ensures forall i | 0 <= i < |USER| :: !IsBreak(USER[i])
  {
  }

  lemma {:induction false} SplitWhole(h: string)
    requires h != "" && forall i | 0 <= i < |h| :: !IsBreak(h[i])
    ensures SplitLines(h + "\n") == [h]
  {
    BreakUnique(h, |h|);
    hide BreakAt;
    SplitUnbroken(h);
  }

  lemma {:induction false} PhysicalOne(line: string)
    ensures PhysicalLines([Line(line)]) == SplitLines(line + "\n")
  {
    hide SplitLines;
    OneBlock(Line(line));
    var one := [line];
    assert one[..0] == [] && one[|one| - 1] == line;
    assert Physical(one) == [] + SplitLines(line + "\n");
  }

  lemma {:induction false} FirstLineIsHeading(m: Message, cap: nat)
    requires m.role == "assistant" || m.role == "user"
    ensures MessageLines(m, cap) != []
    ensures MessageLines(m, cap)[0] == if m.role == "assistant" then ASSISTANT else USER
  {
    hide Heading, RenderParts, PhysicalLines, SplitLines, IsBreak;
    AssistantHeading();
    UserHeading();
    HeadingsUnbroken();
    var h, rest := Heading(m.role), RenderParts(m.parts, cap) + Transcript.Closing(m);
    Regroup([Line(h)], RenderParts(m.parts, cap), Transcript.Closing(m));
    PhysicalLinesConcat([Line(h)], rest);
    PhysicalOne(h);
    SplitWhole(h);
  }

  lemma {:induction false} HeadingKinds()
    ensures OpensTurn(ASSISTANT) && ClosesTurn(USER)
  {
    assert ASSISTANT[3] == 'A' && USER[3] == 'U';
  }

  lemma {:induction false} AssistantOpens(m: Message, cap: nat)
    requires m.role == "assistant" || m.role == "user"
    ensures StretchOf(MessageLines(m, cap)).Opening? <==> m.role == "assistant"
    ensures !StretchOf(MessageLines(m, cap)).Inside?
  {
    hide MessageLines, OpensTurn, ASSISTANT, USER;
    FirstLineIsHeading(m, cap);
    HeadingKinds();
  }

  /** The lines of the headings in front of the subagents' chains. */
  function HeadingLines(children: seq<Child>): seq<string> {
    if children == [] then []
    else HeadingLines(children[..|children| - 1]) + PhysicalLines(ChildHeading(children[|children| - 1].id))
  }

  /** Lines of the expected turns, whatever stretches came before. */
  function OpeningLines(bs: seq<Stretch>): seq<seq<string>> {
    if bs == [] then []
    else OpeningLines(bs[..|bs| - 1]) + (if bs[|bs| - 1].Opening? then [bs[|bs| - 1].lines] else [])
  }

  lemma {:induction false} ExpectedLines(bs: seq<Stretch>)
    ensures TurnLines(Expected(bs)) == OpeningLines(bs)
  {
    if bs != [] { ExpectedLines(bs[..|bs| - 1]); }
  }

  lemma {:induction false} OpeningLinesConcat(a: seq<Stretch>, b: seq<Stretch>)
    ensures OpeningLines(a + b) == OpeningLines(a) + OpeningLines(b)
    ensures Between(a + b) == Between(a) + Between(b)
  {
    if b == [] {
      assert a + b == a;
    } else {
      var init := b[..|b| - 1];
      assert (a + b)[..|a + b| - 1] == a + init;
      OpeningLinesConcat(a, init);
    }
  }

  lemma {:induction false} OpeningLinesOne(b: Stretch)
    ensures OpeningLines([b]) == if b.Opening? then [b.lines] else []
    ensures Between([b]) == if b.Inside? then b.lines else []
  {
    assert [b][..0] == [];
  }

  lemma {:induction false} MessageOpenings(ms: seq<Message>, cap: nat)
    requires UserOrAssistant(ms)
    ensures OpeningLines(MessageStretches(ms, cap)) == AssistantLines(ms, cap)
    ensures Between(MessageStretches(ms, cap)) == []
  {
    if ms != [] {
      var init, m := ms[..|ms| - 1], ms[|ms| - 1];
      var b := StretchOf(MessageLines(m, cap));
      MessageOpenings(init, cap);
      AssistantOpens(m, cap);
      hide MessageLines, OpensTurn, ClosesTurn, OpeningLines, Between;
      OpeningLinesConcat(MessageStretches(init, cap), [b]);
      OpeningLinesOne(b);
    }
  }

  lemma {:induction false} OpeningLines3(a: seq<Stretch>, b: seq<Stretch>, c: seq<Stretch>)
    ensures OpeningLines(a + b + c) == OpeningLines(a) + OpeningLines(b) + OpeningLines(c)
    ensures Between(a + b + c) == Between(a) + Between(b) + Between(c)
  {
    hide OpeningLines, Between;
    OpeningLinesConcat(a, b);
    OpeningLinesConcat(a + b, c);
  }

  lemma {:induction false} ChildOpening(before: seq<Stretch>, heading: seq<string>, ms: seq<Message>, cap: nat)
    requires UserOrAssistant(ms)
    ensures OpeningLines(before + [Inside(heading)] + MessageStretches(ms, cap)) ==
            OpeningLines(before) + AssistantLines(ms, cap)
    ensures Between(before + [Inside(heading)] + MessageStretches(ms, cap)) == Between(before) + heading
  {
    hide OpeningLines, Between, MessageStretches, AssistantLines, UserOrAssistant;
    MessageOpenings(ms, cap);
    OpeningLines3(before, [Inside(heading)], MessageStretches(ms, cap));
    OpeningLinesOne(Inside(heading));
  }

  lemma {:induction false} ChildOpenings(children: seq<Child>, cap: nat)
    requires forall i | 0 <= i < |children| :: UserOrAssistant(children[i].messages)
    ensures OpeningLines(ChildStretches(children, cap)) == ChildAssistantLines(children, cap)
    ensures Between(ChildStretches(children, cap)) == HeadingLines(children)
  {
    if children != [] {
      hide MessageStretches, AssistantLines, OpeningLines, Between, PhysicalLines, ChildHeading, UserOrAssistant;
      var init, last := children[..|children| - 1], children[|children| - 1];
      ChildOpenings(init, cap);
      ChildOpening(ChildStretches(init, cap), PhysicalLines(ChildHeading(last.id)), last.messages, cap);
    }
  }

  lemma {:induction false} StretchOpenings(r: Record, incomplete: Option<string>, cap: nat)
    requires UserOrAssistant(r.messages) && forall i | 0 <= i < |r.children| :: UserOrAssistant(r.children[i].messages)
    ensures OpeningLines(Stretches(r, incomplete, cap)) ==
            AssistantLines(r.messages, cap) + ChildAssistantLines(r.children, cap)
    ensures Between(Stretches(r, incomplete, cap)) == HeadingLines(r.children) + PhysicalLines(Note(incomplete))
  {
    MessageOpenings(r.messages, cap);
    ChildOpenings(r.children, cap);
    hide MessageStretches, ChildStretches, AssistantLines, ChildAssistantLines, OpeningLines, PhysicalLines, Note,
         UserOrAssistant, Between, HeadingLines;
    var c := Inside(PhysicalLines(Note(incomplete)));
    OpeningLines3(MessageStretches(r.messages, cap), ChildStretches(r.children, cap), [c]);
    OpeningLinesOne(c);
    assert [] + HeadingLines(r.children) == HeadingLines(r.children);
  }

  /** With user and assistant messages only, the turns are exactly the assistant messages, in order;
      what else a turn holds are headings of subagents and the capture note. */
  lemma {:induction false} OneTurnPerAssistantMessage(r: Record, incomplete: Option<string>, cap: nat)
    requires CleanRecord(r, incomplete, cap)
    requires UserOrAssistant(r.messages) && forall i | 0 <= i < |r.children| :: UserOrAssistant(r.children[i].messages)
    ensures var turns := Turns(SplitLines(Join(Flatten(Render(r, incomplete, cap)))));
            var messages := AssistantLines(r.messages, cap) + ChildAssistantLines(r.children, cap);
            var between := HeadingLines(r.children) + PhysicalLines(Note(incomplete));
            |turns| == |messages| && forall i | 0 <= i < |turns| :: HoldsBare(turns[i], messages[i], between)
  {
    RenderThenSplit(r, incomplete, cap);
    StretchOpenings(r, incomplete, cap);
    ExpectedLines(Stretches(r, incomplete, cap));
    hide Stretches, OpeningLines, AssistantLines, ChildAssistantLines, HoldsBare, RecoversBare, TurnLines, Turns,
         SplitLines, Join, Flatten, Render, Expected, CleanRecord, UserOrAssistant, Between, HeadingLines;
    var bs := Stretches(r, incomplete, cap);
    LinesHeld(Turns(SplitLines(Join(Flatten(Render(r, incomplete, cap))))), Expected(bs), Between(bs));
  }

  lemma {:induction false} LinesHeld(turns: seq<Turn>, expected: seq<Turn>, between: seq<string>)
    requires RecoversBare(turns, expected, between)
    ensures var lines := TurnLines(expected);
            |turns| == |lines| && forall i | 0 <= i < |turns| :: HoldsBare(turns[i], lines[i], between)
  {
    hide HoldsBare, Holds;
    assert forall i | 0 <= i < |expected| :: expected[i].lines == TurnLines(expected)[i];
  }
}
