/** From turns to a verdict: where a finding is, what the scan counts, and when a tier passes. */
module Verdict {
  import opened Basics
  import opened Transcript
  import opened CvvScan

  // ---- Line numbers -----------------------------------------------------------------------------

  /** The line of a match: its turn's first line, plus the newlines in front of it. */
  function LineOf(turnText: string, offset: nat, firstLine: nat): nat
    requires offset <= |turnText|
  {
    firstLine + Count('\n', turnText[..offset])
  }

  lemma {:induction false} CountConcat(c: char, a: string, b: string)
    ensures Count(c, a + b) == Count(c, a) + Count(c, b)
  {
    if a == "" {
      assert a + b == b;
    } else {
      CountConcat(c, a[1..], b);
      assert (a + b)[1..] == a[1..] + b;
    }
  }

  lemma {:induction false} CountNone(c: char, s: string)
    requires c !in s
    ensures Count(c, s) == 0
  {
    if s != "" {
      assert forall i | 0 <= i < |s| - 1 :: s[1..][i] == s[i + 1];
      CountNone(c, s[1..]);
    }
  }

  predicate NoNewlines(lines: seq<string>) {
    forall i | 0 <= i < |lines| :: '\n' !in lines[i]
  }

  /** Where line j starts in the joined text. */
  function LineStart(lines: seq<string>, j: nat): nat
    requires j < |lines|
  {
    if j == 0 then 0 else |Join(lines[..j])| + 1
  }

  /** Offset `offset` of the joined text is on line j: at one of its characters, or right behind. */
  ghost predicate OnLine(lines: seq<string>, offset: nat, j: nat) {
    && j < |lines| && offset <= |Join(lines)|
    && LineStart(lines, j) <= offset <= LineStart(lines, j) + |lines[j]|
    && (offset < LineStart(lines, j) + |lines[j]| ==>
          offset < |Join(lines)| && Join(lines)[offset] == lines[j][offset - LineStart(lines, j)])
  }

  lemma {:induction false} JoinedNewlines(lines: seq<string>)
    requires lines != [] && NoNewlines(lines)
    ensures Count('\n', Join(lines)) == |lines| - 1
  {
    CountNone('\n', lines[|lines| - 1]);
    if |lines| > 1 {
      var init, last := lines[..|lines| - 1], lines[|lines| - 1];
      JoinedNewlines(init);
      CountConcat('\n', Join(init) + "\n", last);
      CountConcat('\n', Join(init), "\n");
    }
  }

  lemma {:induction false} NewlinesBefore(lines: seq<string>, offset: nat)
    requires lines != [] && NoNewlines(lines) && offset <= |Join(lines)|
    ensures OnLine(lines, offset, Count('\n', Join(lines)[..offset]))
  {
    var init, last := lines[..|lines| - 1], lines[|lines| - 1];
    if |lines| == 1 {
      assert Join(lines) == last;
      CountNone('\n', Join(lines)[..offset]);
    } else if offset <= |Join(init)| {
      NewlinesBefore(init, offset);
      JoinLast(lines);
      hide Join, Count;
      assert Join(lines)[..offset] == Join(init)[..offset];
      OnLineLonger(lines, offset, Count('\n', Join(init)[..offset]));
    } else {
      OnLastLine(lines, offset);
    }
  }

  lemma {:induction false} OnLineLonger(lines: seq<string>, offset: nat, j: nat)
    requires |lines| > 1 && OnLine(lines[..|lines| - 1], offset, j)
    requires offset <= |Join(lines[..|lines| - 1])|
    ensures OnLine(lines, offset, j)
  {
    var init := lines[..|lines| - 1];
    JoinLast(lines);
    hide Join;
    assert init[..j] == lines[..j];
    assert offset < |Join(init)| ==> Join(lines)[offset] == Join(init)[offset];
  }

  lemma {:induction false} OnLastLine(lines: seq<string>, offset: nat)
    requires |lines| > 1 && NoNewlines(lines) && |Join(lines[..|lines| - 1])| < offset <= |Join(lines)|
    ensures OnLine(lines, offset, Count('\n', Join(lines)[..offset]))
  {
    var init, last := lines[..|lines| - 1], lines[|lines| - 1];
    var front, text := Join(init), Join(lines);
    JoinLast(lines);
    var c := offset - |front| - 1;
    assert text[..offset] == front + "\n" + last[..c];
    JoinedNewlines(init);
    CountConcat('\n', front + "\n", last[..c]);
    CountConcat('\n', front, "\n");
    CountNone('\n', last[..c]);
    assert Count('\n', text[..offset]) == |lines| - 1;
    hide Count;
    assert lines[..|lines| - 1] == init;
  }

  /** A turn's lines are a stretch of the transcript's, from its first line on. */
  ghost predicate IsSlice(all: seq<string>, t: Turn) {
    && t.lines != [] && 1 <= t.start && t.start - 1 + |t.lines| <= |all|
    && all[t.start - 1..t.start - 1 + |t.lines|] == t.lines
  }

  ghost predicate SlicesUpTo(all: seq<string>, k: nat, p: Progress) {
    && |p.open| <= 1
    && (p.open != [] ==> IsSlice(all, p.open[0]) && p.open[0].start - 1 + |p.open[0].lines| == k)
    && forall i | 0 <= i < |p.done| :: IsSlice(all, p.done[i])
  }

  lemma {:induction false} SliceGrows(all: seq<string>, t: Turn, k: nat)
    requires k < |all| && IsSlice(all, t) && t.start - 1 + |t.lines| == k
    ensures IsSlice(all, t.(lines := t.lines + [all[k]]))
  {
    assert all[t.start - 1..k + 1] == all[t.start - 1..k] + [all[k]];
  }

  lemma {:induction false} SliceStarts(all: seq<string>, k: nat)
    requires k < |all|
    ensures IsSlice(all, Turn(k + 1, [all[k]]))
  {
    assert all[k..k + 1] == [all[k]];
  }

  lemma {:induction false} ReadKeepsSlices(all: seq<string>, k: nat, p: Progress)
    requires k < |all| && SlicesUpTo(all, k, p)
    ensures SlicesUpTo(all, k + 1, Read(p, k, all[k]))
  {
    SliceStarts(all, k);
    if p.open != [] { SliceGrows(all, p.open[0], k); }
    hide IsSlice, OpensTurn, ClosesTurn;
    var closed := p.done + p.open;
    assert forall i | 0 <= i < |closed| :: closed[i] == if i < |p.done| then p.done[i] else p.open[0];
  }

  lemma {:induction false} TurnsAreSlices(all: seq<string>, k: nat)
    requires k <= |all|
    ensures SlicesUpTo(all, k, ReadAll(Progress([], []), 0, all[..k]))
  {
    if k > 0 {
      hide SlicesUpTo, Read;
      TurnsAreSlices(all, k - 1);
      assert all[..k][..k - 1] == all[..k - 1];
      ReadKeepsSlices(all, k - 1, ReadAll(Progress([], []), 0, all[..k - 1]));
    }
  }

  lemma {:induction false} TurnIsSlice(all: seq<string>, i: nat)
    requires i < |Turns(all)|
    ensures IsSlice(all, Turns(all)[i])
  {
    hide ReadAll, IsSlice;
    TurnsAreSlices(all, |all|);
    assert all[..|all|] == all;
  }

  /** The reported line number always names the transcript line that holds the match. */
  lemma {:induction false} LineOfIsRight(all: seq<string>, i: nat, offset: nat)
    requires NoNewlines(all) && i < |Turns(all)| && offset <= |Join(Turns(all)[i].lines)|
    ensures var t := Turns(all)[i];
            var n := LineOf(Join(t.lines), offset, t.start);
            && 1 <= n <= |all| && t.start <= n
            && OnLine(t.lines, offset, n - t.start) && all[n - 1] == t.lines[n - t.start]
  {
    TurnIsSlice(all, i);
    hide Turns, Join, Count, OnLine;
    var t := Turns(all)[i];
    SliceNoNewlines(all, t);
    NewlinesBefore(t.lines, offset);
    OnLineBelow(t.lines, offset, Count('\n', Join(t.lines)[..offset]));
  }

  lemma {:induction false} OnLineBelow(lines: seq<string>, offset: nat, j: nat)
    requires OnLine(lines, offset, j)
    ensures j < |lines|
  {
  }

  lemma {:induction false} SliceNoNewlines(all: seq<string>, t: Turn)
    requires NoNewlines(all) && IsSlice(all, t)
    ensures NoNewlines(t.lines) && forall j | 0 <= j < |t.lines| :: t.lines[j] == all[t.start - 1 + j]
  {
  }

  /** Lines of a transcript hold no newline, so the condition above is met. */
  lemma {:induction false} SplitHasNoNewlines(s: string)
    ensures NoNewlines(SplitLines(s))
    decreases |s|
  {
    if s != "" {
      var k := BreakAt(s);
      assert IsBreak('\n') && '\n' !in s[..k];
      if k < |s| { SplitHasNoNewlines(s[k + BreakWidth(s, k)..]); }
      else { assert s[..k] == s; }
    }
  }

  // ---- Findings of a turn -----------------------------------------------------------------------

  datatype Finding = Finding(category: string, line: nat)

  predicate Ascending(xs: seq<nat>) {
    forall i, j | 0 <= i < j < |xs| :: xs[i] <= xs[j]
  }

  /** An intent to verify counts as unattempted when no tool call comes after it. */
  predicate Unattempted(intent: nat, tools: seq<nat>) {
    forall i | 0 <= i < |tools| :: tools[i] <= intent
  }

  function IntentFindings(intents: seq<nat>, tools: seq<nat>, lineOf: nat -> nat): seq<Finding> {
    if intents == [] then []
    else
      var last := intents[|intents| - 1];
      IntentFindings(intents[..|intents| - 1], tools, lineOf) +
      (if Unattempted(last, tools) then [Finding("INTENT_WITHOUT_ATTEMPT", lineOf(last))] else [])
  }

  method ScanIntents(intents: seq<nat>, tools: seq<nat>, lineOf: nat -> nat) returns (findings: seq<Finding>)
    ensures findings == IntentFindings(intents, tools, lineOf)
  {
    findings := [];
    for k := 0 to |intents|
      invariant findings == IntentFindings(intents[..k], tools, lineOf)
    {
      assert intents[..k + 1][..k] == intents[..k];
      var laterTool := exists i | 0 <= i < |tools| :: tools[i] > intents[k];
      if !laterTool {
        findings := findings + [Finding("INTENT_WITHOUT_ATTEMPT", lineOf(intents[k]))];
      }
    }
    assert intents[..|intents|] == intents;
  }

  /** Intents and tool calls are found in order, so the unattempted intents are the last ones: those not
      in front of the last tool call. */
  predicate AfterLastTool(intent: nat, tools: seq<nat>) {
    tools == [] || tools[|tools| - 1] <= intent
  }

  function Unattempteds(intents: seq<nat>, from: nat, lineOf: nat -> nat): seq<Finding>
    requires from <= |intents|
  {
    seq(|intents| - from, i requires 0 <= i < |intents| - from =>
      Finding("INTENT_WITHOUT_ATTEMPT", lineOf(intents[from + i])))
  }

  ghost predicate SplitsAt(intents: seq<nat>, tools: seq<nat>, k: nat) {
    k <= |intents| && forall i | 0 <= i < |intents| :: AfterLastTool(intents[i], tools) <==> k <= i
  }

  lemma {:induction false} IntentsSplit(intents: seq<nat>, tools: seq<nat>) returns (k: nat)
    requires Ascending(intents) && Ascending(tools)
    ensures SplitsAt(intents, tools, k)
  {
    k := 0;
    while k < |intents| && !AfterLastTool(intents[k], tools)
      invariant k <= |intents| && forall i | 0 <= i < k :: !AfterLastTool(intents[i], tools)
    {
      k := k + 1;
    }
  }

  lemma {:induction false} IntentsFrom(intents: seq<nat>, tools: seq<nat>, lineOf: nat -> nat, k: nat)
    requires Ascending(tools) && SplitsAt(intents, tools, k)
    ensures IntentFindings(intents, tools, lineOf) == Unattempteds(intents, k, lineOf)
  {
    if intents != [] {
      var n := |intents| - 1;
      var init := intents[..n];
      var k' := if k <= n then k else n;
      assert forall i | 0 <= i < n :: init[i] == intents[i];
      UnattemptedMeaning(intents[n], tools);
      hide AfterLastTool, Unattempted, Ascending;
      IntentsFrom(init, tools, lineOf, k');
      UnattemptedStep(intents, k, k', lineOf);
    }
  }

  /** The findings of the intents of a turn, whatever they are: those from some point on, which is
      where the last tool call stands. */
  lemma {:induction false} LastIntents(intents: seq<nat>, tools: seq<nat>, lineOf: nat -> nat) returns (k: nat)
    requires Ascending(intents) && Ascending(tools)
    ensures SplitsAt(intents, tools, k)
    ensures IntentFindings(intents, tools, lineOf) == Unattempteds(intents, k, lineOf)
  {
    k := IntentsSplit(intents, tools);
    IntentsFrom(intents, tools, lineOf, k);
  }

  lemma {:induction false} UnattemptedStep(intents: seq<nat>, k: nat, k': nat, lineOf: nat -> nat)
    requires intents != [] && k <= |intents| && k' == if k < |intents| then k else |intents| - 1
    ensures Unattempteds(intents, k, lineOf) ==
            Unattempteds(intents[..|intents| - 1], k', lineOf) +
            (if k < |intents| then [Finding("INTENT_WITHOUT_ATTEMPT", lineOf(intents[|intents| - 1]))] else [])
  {
  }

  lemma {:induction false} UnattemptedMeaning(intent: nat, tools: seq<nat>)
    requires Ascending(tools)
    ensures Unattempted(intent, tools) <==> AfterLastTool(intent, tools)
  {
  }

  /** A rendering-only call is trusted when nothing looked at the artifact directly before the first
      claim that follows it. */
  predicate DirectBetween(direct: seq<nat>, lo: nat, hi: nat) {
    exists i | 0 <= i < |direct| :: lo < direct[i] < hi
  }

  predicate TrustsRendering(r: nat, claims: seq<nat>, direct: seq<nat>) {
    claims != [] && !DirectBetween(direct, r, claims[0])
  }

  /** `claimsFrom(r)` are the claims matched from offset r on, in order. */
  function RenderingFindings(rendering: seq<nat>, claimsFrom: nat -> seq<nat>, direct: seq<nat>, lineOf: nat -> nat)
    : seq<Finding>
  {
    if rendering == [] then []
    else
      var r := rendering[|rendering| - 1];
      RenderingFindings(rendering[..|rendering| - 1], claimsFrom, direct, lineOf) +
      (if TrustsRendering(r, claimsFrom(r), direct)
       then [Finding("SECONDARY_RENDERING_TRUST", lineOf(claimsFrom(r)[0]))] else [])
  }

  /** The scan walks all later claims, but a direct access before one claim is before every later
      claim too, so only the first claim decides. */
  method ScanRenderings(rendering: seq<nat>, claimsFrom: nat -> seq<nat>, direct: seq<nat>, lineOf: nat -> nat)
    returns (findings: seq<Finding>)
    requires forall r: nat :: Ascending(claimsFrom(r))
    ensures findings == RenderingFindings(rendering, claimsFrom, direct, lineOf)
  {
    findings := [];
    for k := 0 to |rendering|
      invariant findings == RenderingFindings(rendering[..k], claimsFrom, direct, lineOf)
    {
      assert rendering[..k + 1][..k] == rendering[..k];
      var r := rendering[k];
      var claims := claimsFrom(r);
      var found: seq<Finding> := [];
      var j := 0;
      while j < |claims|
        invariant j <= |claims| && found == []
        invariant j > 0 ==> DirectBetween(direct, r, claims[0])
      {
        if !DirectBetween(direct, r, claims[j]) {
          LaterClaims(direct, r, claims, j);
          found := [Finding("SECONDARY_RENDERING_TRUST", lineOf(claims[j]))];
          break;
        }
        j := j + 1;
      }
      findings := findings + found;
    }
    assert rendering[..|rendering|] == rendering;
  }

  lemma {:induction false} LaterClaims(direct: seq<nat>, r: nat, claims: seq<nat>, j: nat)
    requires Ascending(claims) && j < |claims| && !DirectBetween(direct, r, claims[j])
    ensures !DirectBetween(direct, r, claims[0])
  {
    assert claims[0] <= claims[j];
    forall i | 0 <= i < |direct| ensures !(r < direct[i] < claims[0]) {
      assert !(r < direct[i] < claims[j]);
    }
  }

  // ---- Counting findings ------------------------------------------------------------------------

  /** A dictionary of counts, in the order the categories were first met. */
  datatype Entry = Entry(category: string, count: nat)

  function Get(counts: seq<Entry>, category: string): nat {
    if counts == [] then 0
    else if counts[0].category == category then counts[0].count
    else Get(counts[1..], category)
  }

  function Bump(counts: seq<Entry>, category: string): seq<Entry> {
    if counts == [] then [Entry(category, 1)]
    else if counts[0].category == category then [Entry(category, counts[0].count + 1)] + counts[1..]
    else [counts[0]] + Bump(counts[1..], category)
  }

  function Sum(counts: seq<Entry>): nat {
    if counts == [] then 0 else counts[0].count + Sum(counts[1..])
  }

  lemma {:induction false} BumpMeaning(counts: seq<Entry>, category: string)
    ensures Sum(Bump(counts, category)) == Sum(counts) + 1
    ensures forall c :: Get(Bump(counts, category), c) == Get(counts, c) + (if c == category then 1 else 0)
  {
    if counts != [] && counts[0].category != category {
      BumpMeaning(counts[1..], category);
      var rest := Bump(counts[1..], category);
      assert ([counts[0]] + rest)[1..] == rest;
    } else if counts != [] {
      assert ([Entry(category, counts[0].count + 1)] + counts[1..])[1..] == counts[1..];
    }
  }

  function Occurrences(findings: seq<Finding>, category: string): nat {
    if findings == [] then 0
    else
      Occurrences(findings[..|findings| - 1], category) +
      (if findings[|findings| - 1].category == category then 1 else 0)
  }

  function TurnOccurrences(turns: seq<seq<Finding>>, category: string): nat {
    if turns == [] then 0
    else TurnOccurrences(turns[..|turns| - 1], category) + Occurrences(turns[|turns| - 1], category)
  }

  function TotalFindings(turns: seq<seq<Finding>>): nat {
    if turns == [] then 0 else TotalFindings(turns[..|turns| - 1]) + |turns[|turns| - 1]|
  }

  datatype ScanResult = ScanResult(scanned: bool, total: nat, counts: seq<Entry>, error: string)

  /** What the counts of a scan say about the findings of its turns. */
  ghost predicate CountsFindings(turns: seq<seq<Finding>>, total: nat, counts: seq<Entry>) {
    && total == TotalFindings(turns) == Sum(counts)
    && forall c :: Get(counts, c) == TurnOccurrences(turns, c)
  }

  method ScanTranscript(turns: seq<seq<Finding>>) returns (result: ScanResult)
    ensures result.scanned && CountsFindings(turns, result.total, result.counts)
  {
    var total := 0;
    for i := 0 to |turns|
      invariant total == TotalFindings(turns[..i])
    {
      assert turns[..i + 1][..i] == turns[..i];
      total := total + |turns[i]|;
    }
    var counts: seq<Entry> := [];
    for i := 0 to |turns|
      invariant Sum(counts) == TotalFindings(turns[..i])
      invariant forall c :: Get(counts, c) == TurnOccurrences(turns[..i], c)
    {
      hide Get, Sum, Bump;
      assert turns[..i + 1][..i] == turns[..i];
      var findings := turns[i];
      for j := 0 to |findings|
        invariant Sum(counts) == TotalFindings(turns[..i]) + j
        invariant forall c :: Get(counts, c) == TurnOccurrences(turns[..i], c) + Occurrences(findings[..j], c)
      {
        assert findings[..j + 1][..j] == findings[..j];
        BumpMeaning(counts, findings[j].category);
        counts := Bump(counts, findings[j].category);
      }
      assert findings[..|findings|] == findings;
    }
    assert turns[..|turns|] == turns;
    return ScanResult(true, total, counts, "");
  }

  // ---- The verdict ------------------------------------------------------------------------------

  datatype Criteria = Criteria(mustNot: seq<string>, must: seq<string>, manualCheck: Option<string>)

  function FirstForbidden(mustNot: seq<string>, counts: seq<Entry>): Option<string> {
    if mustNot == [] then None
    else if Get(counts, mustNot[0]) > 0 then Some(mustNot[0])
    else FirstForbidden(mustNot[1..], counts)
  }

  function FirstAbsent(must: seq<string>, counts: seq<Entry>): Option<string> {
    if must == [] then None
    else if Get(counts, must[0]) == 0 then Some(must[0])
    else FirstAbsent(must[1..], counts)
  }

  const NEVER_SCORED := ": cvv_scan.py produced no usable result, so this tier was never scored -- "
  const NOT_SCANNED := "SCAN_DID_NOT_RUN"
  const REVIEW_REASON := ": no CVV violation found, but this tier's pass condition requires human/test confirmation: "
  const NEEDS_REVIEW := "NEEDS_MANUAL_REVIEW"

  /** Pass or not, and why; a scan that did not run never passes. */
  function CheckPass(scan: ScanResult, criteria: Criteria): (bool, string) {
    if !scan.scanned then
      (false, NOT_SCANNED + NEVER_SCORED + scan.error)
    else
      match FirstForbidden(criteria.mustNot, scan.counts)
      case Some(c) => (false, "forbidden finding present: " + c + " (x" + Digits(Get(scan.counts, c)) + ")")
      case None =>
        match FirstAbsent(criteria.must, scan.counts)
        case Some(c) => (false, "required finding absent: " + c)
        case None =>
          match criteria.manualCheck
          case Some(check) => (false, NEEDS_REVIEW + REVIEW_REASON + check)
          case None => (true, "pass_criteria satisfied (CVV-only tier)")
  }

  lemma {:induction false} ForbiddenMeaning(mustNot: seq<string>, counts: seq<Entry>)
    ensures FirstForbidden(mustNot, counts) == None <==> forall i | 0 <= i < |mustNot| :: Get(counts, mustNot[i]) == 0
  {
    if mustNot != [] {
      ForbiddenMeaning(mustNot[1..], counts);
      assert forall i | 0 <= i < |mustNot| - 1 :: mustNot[1..][i] == mustNot[i + 1];
      assert forall i | 0 < i < |mustNot| :: mustNot[i] == mustNot[1..][i - 1];
    }
  }

  lemma {:induction false} AbsentMeaning(must: seq<string>, counts: seq<Entry>)
    ensures FirstAbsent(must, counts) == None <==> forall i | 0 <= i < |must| :: Get(counts, must[i]) > 0
  {
    if must != [] {
      AbsentMeaning(must[1..], counts);
      assert forall i | 0 <= i < |must| - 1 :: must[1..][i] == must[i + 1];
      assert forall i | 0 < i < |must| :: must[i] == must[1..][i - 1];
    }
  }

  /** Some turn has a finding of this category. */
  ghost predicate Occurs(turns: seq<seq<Finding>>, category: string) {
    exists t, f | 0 <= t < |turns| && 0 <= f < |turns[t]| :: turns[t][f].category == category
  }

  lemma {:induction false} OccurrencesMeaning(findings: seq<Finding>, category: string)
    ensures Occurrences(findings, category) > 0 <==> exists f | 0 <= f < |findings| :: findings[f].category == category
  {
    if findings != [] {
      var init := findings[..|findings| - 1];
      OccurrencesMeaning(init, category);
      assert forall f | 0 <= f < |init| :: init[f] == findings[f];
    }
  }

  lemma {:induction false} OccursMeaning(turns: seq<seq<Finding>>, category: string)
    ensures Occurs(turns, category) <==> TurnOccurrences(turns, category) > 0
  {
    if turns != [] {
      var init, last := turns[..|turns| - 1], turns[|turns| - 1];
      OccursMeaning(init, category);
      OccurrencesMeaning(last, category);
      hide Occurrences, TurnOccurrences;
      assert forall t | 0 <= t < |init| :: init[t] == turns[t];
      if Occurs(turns, category) && !Occurs(init, category) {
        var t, f :| 0 <= t < |turns| && 0 <= f < |turns[t]| && turns[t][f].category == category;
        assert t == |turns| - 1;
      }
      if Occurs(init, category) {
        var t, f :| 0 <= t < |init| && 0 <= f < |init[t]| && init[t][f].category == category;
        assert turns[t][f].category == category;
      }
      if f :| 0 <= f < |last| && last[f].category == category {
        assert turns[|turns| - 1][f].category == category;
      }
    }
  }

  /** A tier passes exactly when the scan ran, no finding of any turn is forbidden, every required
      category occurs in some turn, and nothing is left for a person to check. */
  lemma {:induction false} PassMeaning(turns: seq<seq<Finding>>, scan: ScanResult, criteria: Criteria)
    requires scan.scanned ==> CountsFindings(turns, scan.total, scan.counts)
    ensures CheckPass(scan, criteria).0 <==>
              && scan.scanned
              && (forall i | 0 <= i < |criteria.mustNot| :: !Occurs(turns, criteria.mustNot[i]))
              && (forall i | 0 <= i < |criteria.must| :: Occurs(turns, criteria.must[i]))
              && criteria.manualCheck == None
  {
    if scan.scanned {
      ForbiddenMeaning(criteria.mustNot, scan.counts);
      AbsentMeaning(criteria.must, scan.counts);
      hide Get, FirstForbidden, FirstAbsent, Occurs, TurnOccurrences, Digits;
      forall c ensures Occurs(turns, c) <==> Get(scan.counts, c) > 0 {
        OccursMeaning(turns, c);
        assert Get(scan.counts, c) == TurnOccurrences(turns, c);
      }
    }
  }
}
