/** The prose linter's suppression markers: what a scan honours, and which markers are dead.

    A line is abstracted to what the linter's patterns say about it.  The scan and the dead-marker
    pass each walk the lines with their own copy of the suppression state; the results below say
    when the two agree.
  */
module ProseCheck {

  datatype Marker = Section | NextLine | Noqa

  /** `hits` are the words the tables would flag on the line.  `muted` names the line's markers
      that are to be read but not obeyed; no line of a file read from disk has any. */
  datatype Line = Line(fence: bool, end: bool, start: bool, next: bool, noqa: bool, indented: bool,
                       hits: seq<string>, muted: set<Marker>)

  datatype File = File(disabled: bool, lines: seq<Line>)

  type Hit = (nat, string)

  // ---- The scan -------------------------------------------------------------------------------

  datatype State = State(inFence: bool, inDisabledSection: bool, skipNext: bool)

  predicate IsEnd(l: Line) { !l.fence && l.end }
  predicate IsStart(l: Line) { !l.fence && !l.end && l.start }

  /** Fence and section lines leave a pending next-line marker pending. */
  predicate KeepsPending(l: Line) { l.fence || l.end || l.start }

  predicate IsNext(l: Line) { !KeepsPending(l) && l.next }

  function Advance(st: State, l: Line): State {
    if l.fence then st.(inFence := !st.inFence)
    else if l.end then st.(inDisabledSection := false)
    else if l.start then st.(inDisabledSection := st.inDisabledSection || Section !in l.muted)
    else st.(skipNext := l.next && NextLine !in l.muted)
  }

  /** The state in front of line k, counted from zero. */
  function StateAt(lines: seq<Line>, k: nat): State
    requires k <= |lines|
  {
    if k == 0 then State(false, false, false) else Advance(StateAt(lines, k - 1), lines[k - 1])
  }

  /** Does the scan look at the words of this line at all? */
  predicate Examined(st: State, l: Line) {
    !KeepsPending(l) && !l.next && !st.inFence && !l.indented
  }

  predicate Suppressed(st: State, l: Line) {
    st.inDisabledSection || st.skipNext || (l.noqa && Noqa !in l.muted)
  }

  function Tag(n: nat, hits: seq<string>): seq<Hit> {
    if hits == [] then [] else [(n, hits[0])] + Tag(n, hits[1..])
  }

  function LineHits(lines: seq<Line>, k: nat, honour: bool): seq<Hit>
    requires k < |lines|
  {
    var st, l := StateAt(lines, k), lines[k];
    if Examined(st, l) && !(honour && Suppressed(st, l)) then Tag(k + 1, l.hits) else []
  }

  function HitsTo(lines: seq<Line>, k: nat, honour: bool): seq<Hit>
    requires k <= |lines|
  {
    if k == 0 then [] else HitsTo(lines, k - 1, honour) + LineHits(lines, k - 1, honour)
  }

  function Hits(f: File, honour: bool): seq<Hit> {
    if honour && f.disabled then [] else HitsTo(f.lines, |f.lines|, honour)
  }

  lemma {:induction false} TagStep(done: seq<Hit>, n: nat, hits: seq<string>, j: nat)
    requires j <= |hits|
    ensures j < |hits| ==> done + Tag(n, hits[j..]) == (done + [(n, hits[j])]) + Tag(n, hits[j + 1..])
    ensures j == |hits| ==> done + Tag(n, hits[j..]) == done
  {
    if j < |hits| { assert hits[j..][1..] == hits[j + 1..]; }
  }

  lemma {:induction false} ScanStep(lines: seq<Line>, k: nat, honour: bool)
    requires k < |lines|
    ensures HitsTo(lines, k + 1, honour) == HitsTo(lines, k, honour) + LineHits(lines, k, honour)
    ensures StateAt(lines, k + 1) == Advance(StateAt(lines, k), lines[k])
  {
    hide LineHits, Advance;
  }

  lemma {:induction false} ScanStart(lines: seq<Line>, honour: bool)
    ensures HitsTo(lines, 0, honour) == [] && StateAt(lines, 0) == State(false, false, false)
  {
  }

  method AddHits(before: seq<Hit>, n: nat, found: seq<string>) returns (hits: seq<Hit>)
    ensures hits == before + Tag(n, found)
  {
    hide Tag;
    hits := before;
    for j := 0 to |found|
      invariant hits + Tag(n, found[j..]) == before + Tag(n, found)
    {
      TagStep(hits, n, found, j);
      hits := hits + [(n, found[j])];
    }
    TagStep(hits, n, found, |found|);
  }

  /** What the scan does with one line, in front of which the flags are `st`. */
  method ScanLine(line: Line, n: nat, honour: bool, st: State, before: seq<Hit>) returns (after: State, hits: seq<Hit>)
    requires line.muted == {}
    ensures after == Advance(st, line)
    ensures hits == before + (if Examined(st, line) && !(honour && Suppressed(st, line)) then Tag(n, line.hits) else [])
  {
    hide Tag;
    after, hits := st, before;
    if line.fence {
      after := after.(inFence := !after.inFence);
      return;
    }
    if line.end {
      after := after.(inDisabledSection := false);
      return;
    }
    if line.start {
      after := after.(inDisabledSection := true);
      return;
    }
    var suppressedHere := after.skipNext;
    after := after.(skipNext := line.next);
    if after.skipNext {
      return;
    }
    if after.inFence || line.indented {
      return;
    }
    if honour && (after.inDisabledSection || suppressedHere || line.noqa) {
      return;
    }
    hits := AddHits(before, n, line.hits);
  }

  method Scan(f: File, honour: bool) returns (hits: seq<Hit>)
    requires forall k | 0 <= k < |f.lines| :: f.lines[k].muted == {}
    ensures hits == Hits(f, honour)
  {
    hide HitsTo, StateAt, Tag, Advance, Examined, Suppressed;
    hits := [];
    var state := State(false, false, false);
    if honour && f.disabled {
      return;
    }
    ScanStart(f.lines, honour);
    for k := 0 to |f.lines|
      invariant hits == HitsTo(f.lines, k, honour) && state == StateAt(f.lines, k)
    {
      ScanStep(f.lines, k, honour);
      state, hits := ScanLine(f.lines[k], k + 1, honour, state, hits);
    }
  }

  // ---- What suppression means -----------------------------------------------------------------

  /** A section is open in front of line k: some obeyed start marker has no end marker after it. */
  ghost predicate InSection(lines: seq<Line>, k: nat)
    requires k <= |lines|
  {
    exists s | 0 <= s < k :: IsStart(lines[s]) && Section !in lines[s].muted &&
      forall j | s < j < k :: !IsEnd(lines[j])
  }

  /** A next-line marker is pending in front of line k: only fence and section lines follow it. */
  ghost predicate Pending(lines: seq<Line>, k: nat)
    requires k <= |lines|
  {
    exists m | 0 <= m < k :: IsNext(lines[m]) && NextLine !in lines[m].muted &&
      forall j | m < j < k :: KeepsPending(lines[j])
  }

  /** The scan's flags mean what the marker syntax says. */
  lemma {:induction false} StateMeaning(lines: seq<Line>, k: nat)
    requires k <= |lines|
    ensures StateAt(lines, k).inDisabledSection <==> InSection(lines, k)
    ensures StateAt(lines, k).skipNext <==> Pending(lines, k)
  {
    if k > 0 {
      StateMeaning(lines, k - 1);
      var l := lines[k - 1];
      SectionStep(lines, k);
      PendingStep(lines, k);
    }
  }

  lemma {:induction false} SectionStep(lines: seq<Line>, k: nat)
    requires 0 < k <= |lines|
    ensures var l := lines[k - 1];
            InSection(lines, k) <==> !IsEnd(l) && (InSection(lines, k - 1) || (IsStart(l) && Section !in l.muted))
  {
    var l := lines[k - 1];
    if InSection(lines, k - 1) && !IsEnd(l) {
      var s :| 0 <= s < k - 1 && IsStart(lines[s]) && Section !in lines[s].muted &&
        forall j | s < j < k - 1 :: !IsEnd(lines[j]);
      assert forall j | s < j < k :: !IsEnd(lines[j]);
    }
  }

  lemma {:induction false} PendingStep(lines: seq<Line>, k: nat)
    requires 0 < k <= |lines|
    ensures var l := lines[k - 1];
            Pending(lines, k) <==> (if KeepsPending(l) then Pending(lines, k - 1) else l.next && NextLine !in l.muted)
  {
    var l := lines[k - 1];
    if KeepsPending(l) && Pending(lines, k - 1) {
      var m :| 0 <= m < k - 1 && IsNext(lines[m]) && NextLine !in lines[m].muted &&
        forall j | m < j < k - 1 :: KeepsPending(lines[j]);
      assert forall j | m < j < k :: KeepsPending(lines[j]);
    }
    if !KeepsPending(l) && Pending(lines, k) {
      var m :| 0 <= m < k && IsNext(lines[m]) && NextLine !in lines[m].muted &&
        forall j | m < j < k :: KeepsPending(lines[j]);
      assert m == k - 1;
    }
  }

  /** Honoured hits are among the unsuppressed ones, with their multiplicity. */
  lemma {:induction false} HonouredSubset(lines: seq<Line>, k: nat)
    requires k <= |lines|
    ensures multiset(HitsTo(lines, k, true)) <= multiset(HitsTo(lines, k, false))
  {
    if k > 0 {
      HonouredSubset(lines, k - 1);
      hide StateAt, Suppressed, Tag, Examined;
    }
  }

  lemma {:induction false} TagLines(n: nat, hits: seq<string>)
    ensures |Tag(n, hits)| == |hits|
    ensures forall i | 0 <= i < |hits| :: Tag(n, hits)[i] == (n, hits[i])
  {
    if hits != [] { TagLines(n, hits[1..]); }
  }

  predicate HasHit(hits: seq<Hit>, n: nat) {
    exists i | 0 <= i < |hits| :: hits[i].0 == n
  }

  lemma {:induction false} HasHitConcat(a: seq<Hit>, b: seq<Hit>, n: nat)
    ensures HasHit(a + b, n) <==> HasHit(a, n) || HasHit(b, n)
  {
    if HasHit(a, n) {
      var i :| 0 <= i < |a| && a[i].0 == n;
      assert (a + b)[i].0 == n;
    }
    if HasHit(b, n) {
      var i :| 0 <= i < |b| && b[i].0 == n;
      assert (a + b)[|a| + i].0 == n;
    }
  }

  lemma {:induction false} HasHitOnLine(lines: seq<Line>, k: nat, honour: bool, n: nat)
    requires k < |lines|
    ensures HasHit(LineHits(lines, k, honour), n) <==> n == k + 1 && LineHits(lines, k, honour) != []
  {
    TagLines(k + 1, lines[k].hits);
    hide StateAt, Tag, Examined, Suppressed;
    var hits := LineHits(lines, k, honour);
    if hits != [] { assert hits[0].0 == k + 1; }
  }

  /** Which lines have a hit that the scan shows. */
  lemma {:induction false} HasHitMeaning(lines: seq<Line>, k: nat, honour: bool, n: nat)
    requires k <= |lines|
    ensures HasHit(HitsTo(lines, k, honour), n) <==> 1 <= n <= k && LineHits(lines, n - 1, honour) != []
  {
    if k > 0 {
      HasHitMeaning(lines, k - 1, honour, n);
      HasHitConcat(HitsTo(lines, k - 1, honour), LineHits(lines, k - 1, honour), n);
      HasHitOnLine(lines, k - 1, honour, n);
      hide HasHit, LineHits;
    }
  }

  // ---- The dead-marker pass -------------------------------------------------------------------

  datatype Dead = DeadFile | DeadMarker(line: nat, marker: Marker)

  datatype Tracker = Tracker(inSection: bool, start: nat, hits: bool)

  function Track(tr: Tracker, k: nat, l: Line, unsuppressed: seq<Hit>): Tracker {
    if l.end then tr.(inSection := false)
    else if l.start then Tracker(true, k + 1, false)
    else if tr.inSection && HasHit(unsuppressed, k + 1) then tr.(hits := true)
    else tr
  }

  function TrackerAt(lines: seq<Line>, k: nat, unsuppressed: seq<Hit>): Tracker
    requires k <= |lines|
  {
    if k == 0 then Tracker(false, 0, false)
    else Track(TrackerAt(lines, k - 1, unsuppressed), k - 1, lines[k - 1], unsuppressed)
  }

  function DeadSection(tr: Tracker): seq<Dead> {
    if tr.inSection && !tr.hits then [DeadMarker(tr.start, Section)] else []
  }

  function DeadOn(lines: seq<Line>, k: nat, unsuppressed: seq<Hit>): seq<Dead>
    requires k < |lines|
  {
    var l := lines[k];
    if l.end then DeadSection(TrackerAt(lines, k, unsuppressed))
    else if l.start then []
    else
      (if l.next && !HasHit(unsuppressed, k + 2) then [DeadMarker(k + 1, NextLine)] else []) +
      (if l.noqa && !HasHit(unsuppressed, k + 1) then [DeadMarker(k + 1, Noqa)] else [])
  }

  function DeadTo(lines: seq<Line>, k: nat, unsuppressed: seq<Hit>): seq<Dead>
    requires k <= |lines|
  {
    if k == 0 then [] else DeadTo(lines, k - 1, unsuppressed) + DeadOn(lines, k - 1, unsuppressed)
  }

  function DeadIn(f: File): seq<Dead> {
    var unsuppressed := Hits(f, false);
    (if f.disabled && unsuppressed == [] then [DeadFile] else []) +
    DeadTo(f.lines, |f.lines|, unsuppressed) +
    DeadSection(TrackerAt(f.lines, |f.lines|, unsuppressed))
  }

  lemma {:induction false} DeadToStep(lines: seq<Line>, k: nat, unsuppressed: seq<Hit>)
    requires k <= |lines|
    ensures DeadTo(lines, k, unsuppressed) ==
            if k == 0 then [] else DeadTo(lines, k - 1, unsuppressed) + DeadOn(lines, k - 1, unsuppressed)
  {
  }

  lemma {:induction false} TrackerAtStep(lines: seq<Line>, k: nat, unsuppressed: seq<Hit>)
    requires k <= |lines|
    ensures TrackerAt(lines, k, unsuppressed) ==
            if k == 0 then Tracker(false, 0, false)
            else Track(TrackerAt(lines, k - 1, unsuppressed), k - 1, lines[k - 1], unsuppressed)
  {
  }

  /** The walk over the lines; `open` is the section left open at the end of the file. */
  method WalkMarkers(lines: seq<Line>, unsuppressed: seq<Hit>) returns (dead: seq<Dead>, open: Tracker)
    ensures dead == DeadTo(lines, |lines|, unsuppressed)
    ensures open == TrackerAt(lines, |lines|, unsuppressed)
  {
    hide HasHit, DeadTo, TrackerAt;
    dead := [];
    DeadToStep(lines, 0, unsuppressed);
    TrackerAtStep(lines, 0, unsuppressed);
    var inSection, sectionStart, sectionHits := false, 0, false;
    for k := 0 to |lines|
      invariant dead == DeadTo(lines, k, unsuppressed)
      invariant Tracker(inSection, sectionStart, sectionHits) == TrackerAt(lines, k, unsuppressed)
    {
      DeadToStep(lines, k + 1, unsuppressed);
      TrackerAtStep(lines, k + 1, unsuppressed);
      var line := lines[k];
      var here := [];
      if line.end {
        if inSection && !sectionHits {
          here := [DeadMarker(sectionStart, Section)];
        }
        inSection := false;
      } else if line.start {
        inSection, sectionStart, sectionHits := true, k + 1, false;
      } else {
        if inSection && HasHit(unsuppressed, k + 1) {
          sectionHits := true;
        }
        if line.next && !HasHit(unsuppressed, k + 2) {
          here := [DeadMarker(k + 1, NextLine)];
        }
        if line.noqa && !HasHit(unsuppressed, k + 1) {
          here := here + [DeadMarker(k + 1, Noqa)];
        }
      }
      assert here == DeadOn(lines, k, unsuppressed);
      dead := dead + here;
    }
    open := Tracker(inSection, sectionStart, sectionHits);
  }

  method DeadSuppressions(f: File) returns (dead: seq<Dead>)
    requires forall k | 0 <= k < |f.lines| :: f.lines[k].muted == {}
    ensures dead == DeadIn(f)
  {
    hide Hits, DeadTo, TrackerAt;
    var unsuppressed := Scan(f, false);
    dead := [];
    if f.disabled && unsuppressed == [] {
      dead := dead + [DeadFile];
    }
    var found, open := WalkMarkers(f.lines, unsuppressed);
    dead := dead + found;
    if open.inSection && !open.hits {
      dead := dead + [DeadMarker(open.start, Section)];
    }
  }

  // ---- A reported marker can be ignored -------------------------------------------------------

  /** The lines with one marker of line m no longer obeyed. */
  function Mute(lines: seq<Line>, m: nat, marker: Marker): seq<Line>
    requires m < |lines|
  {
    lines[m := lines[m].(muted := lines[m].muted + {marker})]
  }

  /** Line k is looked at by the scan and its words would be flagged. */
  predicate Flagged(lines: seq<Line>, k: nat)
    requires k < |lines|
  {
    Examined(StateAt(lines, k), lines[k]) && lines[k].hits != []
  }

  lemma {:induction false} LineHitsMeaning(lines: seq<Line>, k: nat, honour: bool)
    requires k < |lines|
    ensures LineHits(lines, k, honour) != [] <==>
              Flagged(lines, k) && !(honour && Suppressed(StateAt(lines, k), lines[k]))
  {
  }

  lemma {:induction false} HasHitFlagged(lines: seq<Line>, n: nat)
    ensures HasHit(HitsTo(lines, |lines|, false), n) <==> 1 <= n <= |lines| && Flagged(lines, n - 1)
  {
    HasHitMeaning(lines, |lines|, false, n);
    if 1 <= n <= |lines| { LineHitsMeaning(lines, n - 1, false); }
  }

  /** What a report says about the marker it names. */
  ghost predicate Reported(lines: seq<Line>, m: nat, marker: Marker)
    requires m < |lines|
  {
    match marker
    case Noqa => !lines[m].end && !lines[m].start && lines[m].noqa && !Flagged(lines, m)
    case NextLine => !lines[m].end && !lines[m].start && lines[m].next &&
      (m + 1 < |lines| ==> !Flagged(lines, m + 1))
    case Section => !lines[m].end && lines[m].start && exists e :: DeadSpan(lines, m, e)
  }

  /** Nothing is flagged from the start marker on line m to the end marker, or end of file, at e. */
  ghost predicate DeadSpan(lines: seq<Line>, m: nat, e: nat) {
    && m < e <= |lines| && (e < |lines| ==> lines[e].end)
    && forall j | m < j < e :: !lines[j].end && !lines[j].start && !Flagged(lines, j)
  }

  /** What the tracker knows in front of line k. */
  ghost predicate TrackerHolds(lines: seq<Line>, k: nat, tr: Tracker)
    requires k <= |lines|
  {
    tr.inSection ==>
      && 1 <= tr.start <= k && !lines[tr.start - 1].end && lines[tr.start - 1].start
      && (forall j | tr.start <= j < k :: !lines[j].end && !lines[j].start)
      && (!tr.hits ==> forall j | tr.start <= j < k :: !Flagged(lines, j))
  }

  lemma {:induction false} TrackStep(lines: seq<Line>, k: nat, tr: Tracker, unsuppressed: seq<Hit>)
    requires 0 < k <= |lines| && TrackerHolds(lines, k - 1, tr)
    requires HasHit(unsuppressed, k) <==> Flagged(lines, k - 1)
    ensures TrackerHolds(lines, k, Track(tr, k - 1, lines[k - 1], unsuppressed))
  {
    hide HasHit, Flagged;
  }

  lemma {:induction false} TrackerMeaning(lines: seq<Line>, k: nat)
    requires k <= |lines|
    ensures TrackerHolds(lines, k, TrackerAt(lines, k, HitsTo(lines, |lines|, false)))
  {
    if k > 0 {
      TrackerMeaning(lines, k - 1);
      HasHitFlagged(lines, k);
      TrackStep(lines, k, TrackerAt(lines, k - 1, HitsTo(lines, |lines|, false)), HitsTo(lines, |lines|, false));
    }
  }

  lemma {:induction false} ReportedAt(lines: seq<Line>, k: nat, m: nat, marker: Marker)
    requires k < |lines| && DeadMarker(m + 1, marker) in DeadOn(lines, k, HitsTo(lines, |lines|, false))
    ensures m < |lines| && Reported(lines, m, marker)
  {
    HasHitFlagged(lines, k + 1);
    HasHitFlagged(lines, k + 2);
    TrackerMeaning(lines, k);
    hide HasHit, Flagged, HitsTo, TrackerAt, TrackerHolds, DeadSpan, DeadSection;
    if lines[k].end {
      SectionReported(lines, k, TrackerAt(lines, k, HitsTo(lines, |lines|, false)), m, marker);
    } else {
      assert m == k;
    }
  }

  lemma {:induction false} SectionReported(lines: seq<Line>, k: nat, tr: Tracker, m: nat, marker: Marker)
    requires k < |lines| && lines[k].end && TrackerHolds(lines, k, tr) && DeadMarker(m + 1, marker) in DeadSection(tr)
    ensures m < |lines| && Reported(lines, m, marker)
  {
    hide Flagged;
    assert DeadSpan(lines, m, k);
  }

  lemma {:induction false} ReportedTo(lines: seq<Line>, k: nat, m: nat, marker: Marker)
    requires k <= |lines| && DeadMarker(m + 1, marker) in DeadTo(lines, k, HitsTo(lines, |lines|, false))
    ensures m < |lines| && Reported(lines, m, marker)
  {
    hide HasHit, Flagged, HitsTo, TrackerAt, Reported, DeadOn;
    if k > 0 {
      if DeadMarker(m + 1, marker) in DeadOn(lines, k - 1, HitsTo(lines, |lines|, false)) {
        ReportedAt(lines, k - 1, m, marker);
      } else {
        ReportedTo(lines, k - 1, m, marker);
      }
    }
  }

  lemma {:induction false} ReportMeaning(f: File, d: Dead)
    requires d in DeadIn(f)
    ensures d.DeadFile? ==> f.disabled && Hits(f, false) == []
    ensures d.DeadMarker? ==> 1 <= d.line <= |f.lines| && Reported(f.lines, d.line - 1, d.marker)
  {
    InReport(f, d);
    hide DeadIn, Hits, HitsTo, DeadTo, DeadSection, TrackerAt, Reported;
    var unsuppressed := HitsTo(f.lines, |f.lines|, false);
    if d in DeadTo(f.lines, |f.lines|, unsuppressed) {
      WalkReport(f.lines, d);
    } else if d in DeadSection(TrackerAt(f.lines, |f.lines|, unsuppressed)) {
      EndReport(f.lines, d);
    }
  }

  lemma {:induction false} WalkReport(lines: seq<Line>, d: Dead)
    requires d in DeadTo(lines, |lines|, HitsTo(lines, |lines|, false))
    ensures d.DeadMarker? && 1 <= d.line <= |lines| && Reported(lines, d.line - 1, d.marker)
  {
    hide HitsTo, DeadTo, Reported;
    DeadLinesPositive(lines, |lines|, HitsTo(lines, |lines|, false), d);
    ReportedTo(lines, |lines|, d.line - 1, d.marker);
  }

  lemma {:induction false} EndReport(lines: seq<Line>, d: Dead)
    requires d in DeadSection(TrackerAt(lines, |lines|, HitsTo(lines, |lines|, false)))
    ensures d.DeadMarker? && 1 <= d.line <= |lines| && Reported(lines, d.line - 1, d.marker)
  {
    hide HitsTo, TrackerAt, DeadSection, Reported;
    ReportedAtEnd(lines, d);
  }

  lemma {:induction false} InReport(f: File, d: Dead)
    requires d in DeadIn(f)
    ensures var unsuppressed := HitsTo(f.lines, |f.lines|, false);
            || (d == DeadFile && f.disabled && Hits(f, false) == [])
            || d in DeadTo(f.lines, |f.lines|, unsuppressed)
            || d in DeadSection(TrackerAt(f.lines, |f.lines|, unsuppressed))
  {
    hide HitsTo, DeadTo, DeadSection, TrackerAt;
  }

  lemma {:induction false} ReportedAtEnd(lines: seq<Line>, d: Dead)
    requires d in DeadSection(TrackerAt(lines, |lines|, HitsTo(lines, |lines|, false)))
    ensures d.DeadMarker? && 1 <= d.line <= |lines| && Reported(lines, d.line - 1, d.marker)
  {
    TrackerMeaning(lines, |lines|);
    hide TrackerAt, HasHit, Flagged, HitsTo;
    assert DeadSpan(lines, d.line - 1, |lines|);
  }

  lemma {:induction false} DeadLinesPositive(lines: seq<Line>, k: nat, unsuppressed: seq<Hit>, d: Dead)
    requires k <= |lines| && unsuppressed == HitsTo(lines, |lines|, false)
    ensures d in DeadTo(lines, k, unsuppressed) ==> d.DeadMarker? && d.line > 0
  {
    hide DeadOn, DeadTo, HitsTo;
    DeadToStep(lines, k, unsuppressed);
    if k > 0 {
      DeadLinesPositive(lines, k - 1, unsuppressed, d);
      DeadOnPositive(lines, k - 1, unsuppressed, d);
    }
  }

  lemma {:induction false} DeadOnPositive(lines: seq<Line>, k: nat, unsuppressed: seq<Hit>, d: Dead)
    requires k < |lines| && unsuppressed == HitsTo(lines, |lines|, false)
    ensures d in DeadOn(lines, k, unsuppressed) ==> d.DeadMarker? && d.line > 0
  {
    TrackerMeaning(lines, k);
    hide HasHit, Flagged, HitsTo, TrackerAt;
  }

  lemma {:induction false} SameHits(a: seq<Line>, b: seq<Line>, k: nat)
    requires k <= |a| == |b| && forall j | 0 <= j < k :: LineHits(a, j, true) == LineHits(b, j, true)
    ensures HitsTo(a, k, true) == HitsTo(b, k, true)
  {
    hide LineHits;
    if k > 0 { SameHits(a, b, k - 1); }
  }

  /** Muting a marker leaves fences alone, and everything in front of its line. */
  /** How the states before and after muting may differ. */
  predicate Alike(a: State, b: State, marker: Marker) {
    && a.inFence == b.inFence
    && (marker == Noqa ==> a == b)
    && (marker == NextLine ==> a.inDisabledSection == b.inDisabledSection)
    && (marker == Section ==> a.skipNext == b.skipNext)
  }

  lemma {:induction false} AlikeStep(a: State, b: State, l: Line, marker: Marker)
    requires Alike(a, b, marker)
    ensures Alike(Advance(a, l), Advance(b, l), marker)
    ensures Alike(Advance(a, l), Advance(b, l.(muted := l.muted + {marker})), marker)
  {
  }

  lemma {:induction false} MutedState(lines: seq<Line>, m: nat, marker: Marker, k: nat)
    requires m < |lines| && k <= |lines|
    ensures var a, b := StateAt(lines, k), StateAt(Mute(lines, m, marker), k);
            && a.inFence == b.inFence
            && (k <= m || marker == Noqa ==> a == b)
            && (marker == NextLine ==> a.inDisabledSection == b.inDisabledSection)
            && (marker == Section ==> a.skipNext == b.skipNext)
  {
    if k > 0 {
      MutedState(lines, m, marker, k - 1);
      StateStep(lines, k - 1);
      StateStep(Mute(lines, m, marker), k - 1);
      AlikeStep(StateAt(lines, k - 1), StateAt(Mute(lines, m, marker), k - 1), lines[k - 1], marker);
      hide StateAt, Advance;
    }
  }

  lemma {:induction false} DeadFileIgnorable(f: File)
    requires DeadFile in DeadIn(f)
    ensures Hits(f.(disabled := false), true) == Hits(f, true)
  {
    ReportMeaning(f, DeadFile);
    HonouredSubset(f.lines, |f.lines|);
    var honoured := HitsTo(f.lines, |f.lines|, true);
    assert multiset(honoured) <= multiset{};
    assert |honoured| == |multiset(honoured)|;
  }

  lemma {:induction false} DeadNoqaIgnorable(f: File, m: nat)
    requires DeadMarker(m + 1, Noqa) in DeadIn(f)
    ensures m < |f.lines| && Hits(f.(lines := Mute(f.lines, m, Noqa)), true) == Hits(f, true)
  {
    ReportMeaning(f, DeadMarker(m + 1, Noqa));
    var a, b := f.lines, Mute(f.lines, m, Noqa);
    forall j | 0 <= j < |a| ensures LineHits(a, j, true) == LineHits(b, j, true) {
      MutedState(a, m, Noqa, j);
    }
    SameHits(a, b, |a|);
  }

  // ---- Section markers: the condition is needed -----------------------------------------------

  predicate Obeyed(l: Line) { IsStart(l) && Section !in l.muted }

  /** The section open in front of line t is the work of the start marker on line m alone. */
  ghost predicate OnlyBecauseOf(lines: seq<Line>, m: nat, t: nat)
    requires t <= |lines|
  {
    && m < t && Obeyed(lines[m]) && !InSection(lines, m)
    && forall j | m < j < t :: !IsEnd(lines[j]) && !Obeyed(lines[j])
  }

  lemma {:induction false} OnlyBecauseStep(lines: seq<Line>, m: nat, k: nat)
    requires m < |lines| && k < |lines|
    ensures OnlyBecauseOf(lines, m, k + 1) <==>
              if k <= m then k == m && Obeyed(lines[m]) && !InSection(lines, m)
              else OnlyBecauseOf(lines, m, k) && !IsEnd(lines[k]) && !Obeyed(lines[k])
  {
    hide InSection;
  }

  lemma {:induction false} StateStep(lines: seq<Line>, k: nat)
    requires k < |lines|
    ensures StateAt(lines, k + 1) == Advance(StateAt(lines, k), lines[k])
  {
  }

  /** With a section muted, the scan is in a section no more often, and less often only where `only`. */
  predicate LessInside(a: State, b: State, only: bool) {
    (b.inDisabledSection ==> a.inDisabledSection) && (a.inDisabledSection && !b.inDisabledSection <==> only)
  }

  lemma {:induction false} LessInsideStep(a: State, b: State, l: Line, only: bool)
    requires LessInside(a, b, only)
    ensures LessInside(Advance(a, l), Advance(b, l), only && !IsEnd(l) && !Obeyed(l))
    ensures a == b ==>
              LessInside(Advance(a, l), Advance(b, l.(muted := l.muted + {Section})), Obeyed(l) && !a.inDisabledSection)
  {
  }

  lemma {:induction false} SectionMuted(lines: seq<Line>, m: nat, k: nat)
    requires m < |lines| && k <= |lines|
    ensures LessInside(StateAt(lines, k), StateAt(Mute(lines, m, Section), k), OnlyBecauseOf(lines, m, k))
  {
    if k == 0 {
      MutedState(lines, m, Section, 0);
    } else {
      SectionMuted(lines, m, k - 1);
      StateMeaning(lines, k - 1);
      MutedState(lines, m, Section, k - 1);
      OnlyBecauseStep(lines, m, k - 1);
      StateStep(lines, k - 1);
      StateStep(Mute(lines, m, Section), k - 1);
      hide InSection, Pending, OnlyBecauseOf, StateAt, Advance, IsEnd, Obeyed;
      LessInsideStep(StateAt(lines, k - 1), StateAt(Mute(lines, m, Section), k - 1), lines[k - 1],
                     OnlyBecauseOf(lines, m, k - 1));
    }
  }

  /** Line t is hidden by the section that m opens, and by nothing else. */
  ghost predicate HiddenOnlyBy(lines: seq<Line>, m: nat, t: nat)
    requires t < |lines|
  {
    OnlyBecauseOf(lines, m, t) && Flagged(lines, t) && !Pending(lines, t) && !(lines[t].noqa && Noqa !in lines[t].muted)
  }

  lemma {:induction false} SectionMutedLine(a: seq<Line>, m: nat, t: nat)
    requires m < |a| && t < |a|
    ensures var b := Mute(a, m, Section);
            && (LineHits(a, t, true) == LineHits(b, t, true) <==> !HiddenOnlyBy(a, m, t))
            && (HiddenOnlyBy(a, m, t) ==> LineHits(a, t, true) == [])
  {
    var b := Mute(a, m, Section);
    MutedState(a, m, Section, t);
    SectionMuted(a, m, t);
    StateMeaning(a, t);
    LineHitsMeaning(a, t, true);
    LineHitsMeaning(b, t, true);
    hide StateAt, InSection, Pending, Tag, OnlyBecauseOf;
  }

  lemma {:induction false} MoreHits(a: seq<Line>, b: seq<Line>, k: nat)
    requires k <= |a| == |b|
    requires forall j | 0 <= j < k :: LineHits(a, j, true) == LineHits(b, j, true) || LineHits(a, j, true) == []
    ensures |HitsTo(a, k, true)| <= |HitsTo(b, k, true)|
    ensures |HitsTo(a, k, true)| == |HitsTo(b, k, true)| ==>
              forall j | 0 <= j < k :: LineHits(a, j, true) == LineHits(b, j, true)
  {
    hide LineHits;
    if k > 0 { MoreHits(a, b, k - 1); }
  }

  /** A section marker can be ignored exactly when no line is hidden by it alone. */
  lemma {:induction false} SectionIgnorable(f: File, m: nat)
    requires m < |f.lines|
    ensures Hits(f.(lines := Mute(f.lines, m, Section)), true) == Hits(f, true) <==>
              f.disabled || forall t | m < t < |f.lines| :: !HiddenOnlyBy(f.lines, m, t)
  {
    var a, b := f.lines, Mute(f.lines, m, Section);
    hide StateAt, LineHits, HitsTo;
    forall t | 0 <= t < |a|
      ensures (LineHits(a, t, true) == LineHits(b, t, true) <==> !HiddenOnlyBy(a, m, t))
      ensures HiddenOnlyBy(a, m, t) ==> m < t && LineHits(a, t, true) == []
    {
      SectionMutedLine(a, m, t);
    }
    hide HiddenOnlyBy, Mute;
    if forall t | m < t < |a| :: !HiddenOnlyBy(a, m, t) {
      SameHits(a, b, |a|);
    }
    MoreHits(a, b, |a|);
  }

  /** When the dead pass reports a section, a line can be hidden by it alone only below a fence line
      that carries an end marker: the scan sees a fence there, the dead pass an end. */
  lemma {:induction false} DeadSectionHides(f: File, m: nat, t: nat)
    requires DeadMarker(m + 1, Section) in DeadIn(f) && t < |f.lines| && HiddenOnlyBy(f.lines, m, t)
    ensures exists j | m < j < t :: f.lines[j].fence && f.lines[j].end
  {
    hide DeadIn, HiddenOnlyBy, DeadSpan, Flagged, StateAt;
    ReportMeaning(f, DeadMarker(m + 1, Section));
    var e: nat :| DeadSpan(f.lines, m, e);
    BelowSpan(f.lines, m, e, t);
  }

  lemma {:induction false} BelowSpan(lines: seq<Line>, m: nat, e: nat, t: nat)
    requires DeadSpan(lines, m, e) && t < |lines| && HiddenOnlyBy(lines, m, t)
    ensures m < e < t && lines[e].fence && lines[e].end
  {
    FlaggedPlain(lines, t);
    SpanOrder(lines, m, t);
    hide OnlyBecauseOf, InSection, Pending, Flagged;
  }

  lemma {:induction false} FlaggedPlain(lines: seq<Line>, t: nat)
    requires t < |lines| && Flagged(lines, t)
    ensures !lines[t].end
  {
    hide StateAt;
  }

  lemma {:induction false} SpanOrder(lines: seq<Line>, m: nat, t: nat)
    requires t <= |lines| && OnlyBecauseOf(lines, m, t)
    ensures m < t && forall j | m < j < t :: !IsEnd(lines[j])
  {
    hide InSection;
  }

  /** So without such a line a reported section can always be ignored. */
  lemma {:induction false} DeadSectionIgnorable(f: File, m: nat)
    requires DeadMarker(m + 1, Section) in DeadIn(f)
    requires forall k | 0 <= k < |f.lines| :: !(f.lines[k].fence && f.lines[k].end)
    ensures m < |f.lines| && Hits(f.(lines := Mute(f.lines, m, Section)), true) == Hits(f, true)
  {
    ReportMeaning(f, DeadMarker(m + 1, Section));
    SectionIgnorable(f, m);
    hide DeadIn, HiddenOnlyBy, Hits, Mute, Reported;
    forall t | m < t < |f.lines| ensures !HiddenOnlyBy(f.lines, m, t) {
      if HiddenOnlyBy(f.lines, m, t) { DeadSectionHides(f, m, t); }
    }
  }

  const END_ON_FENCE := [
    Line(false, false, true, false, false, false, [], {}),
    Line(true, true, false, false, false, false, [], {}),
    Line(true, false, false, false, false, false, [], {}),
    Line(false, false, false, false, false, false, ["very"], {})]

  lemma {:induction false} EndOnFenceDead()
    ensures DeadMarker(1, Section) in DeadIn(File(false, END_ON_FENCE))
  {
    var a := END_ON_FENCE;
    var unsuppressed := HitsTo(a, 4, false);
    hide HitsTo, HasHit;
    assert TrackerAt(a, 1, unsuppressed) == Tracker(true, 1, false);
    assert DeadOn(a, 1, unsuppressed) == [DeadMarker(1, Section)];
    assert DeadMarker(1, Section) in DeadTo(a, 2, unsuppressed);
    assert DeadMarker(1, Section) in DeadTo(a, 3, unsuppressed);
    assert DeadMarker(1, Section) in DeadTo(a, 4, unsuppressed);
  }

  lemma {:induction false} EndOnFenceStates()
    ensures StateAt(END_ON_FENCE, 3) == State(false, true, false)
    ensures StateAt(Mute(END_ON_FENCE, 0, Section), 3) == State(false, false, false)
  {
    var a, b := END_ON_FENCE, Mute(END_ON_FENCE, 0, Section);
    assert StateAt(a, 1) == State(false, true, false) && StateAt(b, 1) == State(false, false, false);
    assert StateAt(a, 2) == State(true, true, false) && StateAt(b, 2) == State(true, false, false);
  }

  /** And it does hide one: a start marker, a fenced block whose first fence carries the end marker,
      and a flagged line. */
  lemma {:induction false} DeadSectionOverFence()
    ensures var f := File(false, END_ON_FENCE);
            && DeadMarker(1, Section) in DeadIn(f)
            && Hits(f, true) == []
            && Hits(f.(lines := Mute(f.lines, 0, Section)), true) == [(4, "very")]
  {
    EndOnFenceDead();
    EndOnFenceStates();
    hide DeadIn, StateAt;
    var a, b := END_ON_FENCE, Mute(END_ON_FENCE, 0, Section);
    forall k | 0 <= k < 4 ensures LineHits(a, k, true) == [] && (k < 3 ==> LineHits(b, k, true) == []) {}
    NoHits(a, 4);
    NoHits(b, 3);
    assert Tag(4, ["very"]) == [(4, "very")];
    assert HitsTo(b, 4, true) == HitsTo(b, 3, true) + LineHits(b, 3, true);
  }

  // ---- Next-line markers: the condition is needed ---------------------------------------------

  /** The line a next-line marker on line m applies to: the first that is not a fence or a section
      marker, which need not be the next line. */
  function Target(lines: seq<Line>, m: nat): (t: nat)
    requires m < |lines|
    ensures m < t <= |lines|
    ensures t < |lines| ==> !KeepsPending(lines[t])
    ensures forall j | m < j < t :: KeepsPending(lines[j])
  {
    TargetFrom(lines, m + 1)
  }

  function TargetFrom(lines: seq<Line>, k: nat): (t: nat)
    requires k <= |lines|
    ensures k <= t <= |lines|
    ensures t < |lines| ==> !KeepsPending(lines[t])
    ensures forall j | k <= j < t :: KeepsPending(lines[j])
    decreases |lines| - k
  {
    if k == |lines| || !KeepsPending(lines[k]) then k else TargetFrom(lines, k + 1)
  }

  lemma {:induction false} PendingUntilTarget(lines: seq<Line>, m: nat, k: nat)
    requires m < |lines| && IsNext(lines[m]) && lines[m].muted == {} && m < k <= |lines|
    ensures var t := Target(lines, m); var a, b := StateAt(lines, k), StateAt(Mute(lines, m, NextLine), k);
            if k <= t then a.skipNext && !b.skipNext else a == b
  {
    MutedState(lines, m, NextLine, k);
    MutedState(lines, m, NextLine, k - 1);
    if k > m + 1 { PendingUntilTarget(lines, m, k - 1); }
  }

  lemma {:induction false} OneLineMore(a: seq<Line>, b: seq<Line>, t: nat, k: nat)
    requires t < k <= |a| == |b|
    requires forall j | 0 <= j < k && j != t :: LineHits(a, j, true) == LineHits(b, j, true)
    requires LineHits(a, t, true) == []
    ensures |HitsTo(b, k, true)| == |HitsTo(a, k, true)| + |LineHits(b, t, true)|
  {
    hide LineHits;
    if k == t + 1 {
      SameHits(a, b, t);
    } else {
      OneLineMore(a, b, t, k - 1);
    }
  }

  /** A reported next-line marker can be ignored exactly when the line it applies to is not
      flagged, or is covered by an open section or its own noqa as well. */
  lemma {:induction false} DeadNextIgnorable(f: File, m: nat)
    requires DeadMarker(m + 1, NextLine) in DeadIn(f)
    requires forall k | 0 <= k < |f.lines| :: f.lines[k].muted == {}
    ensures m < |f.lines|
    ensures Hits(f.(lines := Mute(f.lines, m, NextLine)), true) == Hits(f, true) <==>
              f.disabled || f.lines[m].fence ||
              var t := Target(f.lines, m);
              t == |f.lines| || !Flagged(f.lines, t) || InSection(f.lines, t) || f.lines[t].noqa
  {
    ReportMeaning(f, DeadMarker(m + 1, NextLine));
    var a, b := f.lines, Mute(f.lines, m, NextLine);
    hide DeadIn, StateAt, LineHits, Flagged, InSection, Mute, HitsTo;
    if a[m].fence {
      FenceMuted(a, m);
      SameHits(a, b, |a|);
    } else {
      var t := Target(a, m);
      forall j | 0 <= j < |a| && j != t ensures LineHits(a, j, true) == LineHits(b, j, true) {
        NextMutedElsewhere(a, m, j);
      }
      if t == |a| {
        SameHits(a, b, |a|);
      } else {
        NextMutedAtTarget(a, m);
        OneLineMore(a, b, t, |a|);
        if LineHits(b, t, true) == [] { SameHits(a, b, |a|); }
      }
    }
  }

  lemma {:induction false} NextMutedElsewhere(a: seq<Line>, m: nat, j: nat)
    requires m < |a| && IsNext(a[m]) && a[m].muted == {} && j < |a| && j != Target(a, m)
    ensures LineHits(a, j, true) == LineHits(Mute(a, m, NextLine), j, true)
  {
    MutedState(a, m, NextLine, j);
    if j > m { PendingUntilTarget(a, m, j); }
    hide StateAt, Tag;
  }

  lemma {:induction false} NextMutedAtTarget(a: seq<Line>, m: nat)
    requires m < |a| && IsNext(a[m]) && a[m].muted == {} && Target(a, m) < |a|
    requires a[Target(a, m)].muted == {}
    ensures var t := Target(a, m);
            && LineHits(a, t, true) == []
            && (LineHits(Mute(a, m, NextLine), t, true) != [] <==>
                  Flagged(a, t) && !InSection(a, t) && !a[t].noqa)
  {
    var t := Target(a, m);
    PendingUntilTarget(a, m, t);
    MutedState(a, m, NextLine, t);
    StateMeaning(a, t);
    hide StateAt, InSection;
    LineHitsMeaning(Mute(a, m, NextLine), t, true);
  }

  lemma {:induction false} FenceMuted(a: seq<Line>, m: nat)
    requires m < |a| && a[m].fence
    ensures forall j | 0 <= j < |a| :: LineHits(a, j, true) == LineHits(Mute(a, m, NextLine), j, true)
  {
    forall j | 0 <= j < |a| ensures LineHits(a, j, true) == LineHits(Mute(a, m, NextLine), j, true) {
      FenceHides(a, m, j);
      hide StateAt;
    }
  }

  lemma {:induction false} FenceHides(lines: seq<Line>, m: nat, k: nat)
    requires m < |lines| && lines[m].fence && k <= |lines|
    ensures StateAt(lines, k) == StateAt(Mute(lines, m, NextLine), k)
  {
    if k > 0 { FenceHides(lines, m, k - 1); }
  }

  /** In particular when an ordinary line follows it. */
  lemma {:induction false} DeadNextBeforeOrdinaryLine(f: File, m: nat)
    requires DeadMarker(m + 1, NextLine) in DeadIn(f)
    requires forall k | 0 <= k < |f.lines| :: f.lines[k].muted == {}
    requires m + 1 < |f.lines| ==> !KeepsPending(f.lines[m + 1])
    ensures m < |f.lines| && Hits(f.(lines := Mute(f.lines, m, NextLine)), true) == Hits(f, true)
  {
    ReportMeaning(f, DeadMarker(m + 1, NextLine));
    DeadNextIgnorable(f, m);
  }

  lemma {:induction false} NoHits(lines: seq<Line>, k: nat)
    requires k <= |lines| && forall j | 0 <= j < k :: LineHits(lines, j, true) == []
    ensures HitsTo(lines, k, true) == []
  {
    hide LineHits;
    if k > 0 { NoHits(lines, k - 1); }
  }

  const OVER_FENCE := [
    Line(false, false, false, true, false, false, [], {}),
    Line(true, false, false, false, false, false, [], {}),
    Line(true, false, false, false, false, false, [], {}),
    Line(false, false, false, false, false, false, ["very"], {})]

  lemma {:induction false} OverFenceDead()
    ensures DeadMarker(1, NextLine) in DeadIn(File(false, OVER_FENCE))
  {
    var a := OVER_FENCE;
    var unsuppressed := HitsTo(a, 4, false);
    HasHitFlagged(a, 2);
    hide HitsTo, HasHit;
    assert DeadOn(a, 0, unsuppressed) == [DeadMarker(1, NextLine)];
    assert DeadMarker(1, NextLine) in DeadTo(a, 1, unsuppressed);
    assert DeadMarker(1, NextLine) in DeadTo(a, 2, unsuppressed);
    assert DeadMarker(1, NextLine) in DeadTo(a, 3, unsuppressed);
    assert DeadMarker(1, NextLine) in DeadTo(a, 4, unsuppressed);
  }

  lemma {:induction false} OverFenceStates()
    ensures StateAt(OVER_FENCE, 3) == State(false, false, true)
    ensures StateAt(Mute(OVER_FENCE, 0, NextLine), 3) == State(false, false, false)
  {
    var a, b := OVER_FENCE, Mute(OVER_FENCE, 0, NextLine);
    assert StateAt(a, 1) == State(false, false, true) && StateAt(b, 1) == State(false, false, false);
    assert StateAt(a, 2) == State(true, false, true) && StateAt(b, 2) == State(true, false, false);
  }

  /** But not always: over a fenced block the marker still reaches the line below it, which the
      dead pass does not look at. */
  lemma {:induction false} DeadNextOverFence()
    ensures var f := File(false, OVER_FENCE);
            && DeadMarker(1, NextLine) in DeadIn(f)
            && Hits(f, true) == []
            && Hits(f.(lines := Mute(f.lines, 0, NextLine)), true) == [(4, "very")]
  {
    OverFenceDead();
    OverFenceStates();
    hide DeadIn, StateAt;
    var a, b := OVER_FENCE, Mute(OVER_FENCE, 0, NextLine);
    forall k | 0 <= k < 4 ensures LineHits(a, k, true) == [] && (k < 3 ==> LineHits(b, k, true) == []) {}
    NoHits(a, 4);
    NoHits(b, 3);
    assert Tag(4, ["very"]) == [(4, "very")];
    assert HitsTo(b, 4, true) == HitsTo(b, 3, true) + LineHits(b, 3, true);
  }

  // ---- All reported markers together ----------------------------------------------------------

  predicate IsNamed(dead: set<Dead>, k: nat, marker: Marker) { DeadMarker(k + 1, marker) in dead }

  /** The markers of line k that `dead` names. */
  function Named(k: nat, dead: set<Dead>): set<Marker> {
    set mk | mk in {Section, NextLine, Noqa} && IsNamed(dead, k, mk)
  }

  /** The file with all of `dead` no longer obeyed. */
  function Ignoring(f: File, dead: set<Dead>): File {
    File(f.disabled && DeadFile !in dead, Ignored(f.lines, dead))
  }

  function Ignored(lines: seq<Line>, dead: set<Dead>): seq<Line> {
    seq(|lines|, k requires 0 <= k < |lines| => lines[k].(muted := lines[k].muted + Named(k, dead)))
  }

  lemma {:induction false} SameFences(lines: seq<Line>, dead: set<Dead>, k: nat)
    requires k <= |lines|
    ensures StateAt(lines, k).inFence == StateAt(Ignored(lines, dead), k).inFence
  {
    if k > 0 { SameFences(lines, dead, k - 1); }
  }

  lemma {:induction false} SameFlagged(lines: seq<Line>, dead: set<Dead>, k: nat)
    requires k < |lines|
    ensures Flagged(lines, k) <==> Flagged(Ignored(lines, dead), k)
  {
    SameFences(lines, dead, k);
    hide StateAt;
  }

  /** What the reports in `dead` say, and that what they leave out causes no trouble: no end marker on a
      fence line, an ordinary line behind every reported next-line marker. */
  ghost predicate Settled(lines: seq<Line>, dead: set<Dead>) {
    && (forall k | 0 <= k < |lines| :: !(lines[k].fence && lines[k].end))
    && (forall m: nat, mk | IsNamed(dead, m, mk) :: m < |lines| && Reported(lines, m, mk))
    && forall m: nat | IsNamed(dead, m, NextLine) && m + 1 < |lines| :: !KeepsPending(lines[m + 1])
  }

  lemma {:induction false} SectionNotReported(lines: seq<Line>, s: nat, t: nat)
    requires s < t < |lines| && Flagged(lines, t) && !lines[t].end
    requires forall k | 0 <= k < |lines| :: !(lines[k].fence && lines[k].end)
    requires forall j | s < j < t :: !IsEnd(lines[j])
    ensures !Reported(lines, s, Section)
  {
    hide Flagged;
  }

  lemma {:induction false} NextNotReported(lines: seq<Line>, m: nat, t: nat)
    requires m < t < |lines| && Flagged(lines, t) && forall j | m < j < t :: KeepsPending(lines[j])
    ensures !KeepsPending(lines[m + 1]) ==> !Reported(lines, m, NextLine)
  {
    hide Flagged;
    assert !KeepsPending(lines[m + 1]) ==> m + 1 == t;
  }

  /** A section around a flagged line is not one of those reported. */
  lemma {:induction false} SectionsKept(lines: seq<Line>, dead: set<Dead>, t: nat)
    requires Settled(lines, dead) && t < |lines| && Flagged(lines, t)
    ensures InSection(lines, t) <==> InSection(Ignored(lines, dead), t)
  {
    FlaggedPlain(lines, t);
    hide Flagged;
    var b := Ignored(lines, dead);
    if InSection(lines, t) {
      var s :| 0 <= s < t && IsStart(lines[s]) && Section !in lines[s].muted &&
        forall j | s < j < t :: !IsEnd(lines[j]);
      SectionNotReported(lines, s, t);
      assert Section !in b[s].muted;
    }
    if InSection(b, t) {
      var s :| 0 <= s < t && IsStart(b[s]) && Section !in b[s].muted && forall j | s < j < t :: !IsEnd(b[j]);
      assert forall j | s < j < t :: IsEnd(lines[j]) == IsEnd(b[j]);
    }
  }

  lemma {:induction false} PendingKept(lines: seq<Line>, dead: set<Dead>, t: nat)
    requires Settled(lines, dead) && t < |lines| && Flagged(lines, t)
    ensures Pending(lines, t) <==> Pending(Ignored(lines, dead), t)
  {
    hide Flagged;
    var b := Ignored(lines, dead);
    if Pending(lines, t) {
      var m :| 0 <= m < t && IsNext(lines[m]) && NextLine !in lines[m].muted &&
        forall j | m < j < t :: KeepsPending(lines[j]);
      NextNotReported(lines, m, t);
      assert NextLine !in b[m].muted;
    }
    if Pending(b, t) {
      var m :| 0 <= m < t && IsNext(b[m]) && NextLine !in b[m].muted && forall j | m < j < t :: KeepsPending(b[j]);
      assert forall j | m < j < t :: KeepsPending(lines[j]) == KeepsPending(b[j]);
    }
  }

  lemma {:induction false} NoqaKept(lines: seq<Line>, dead: set<Dead>, t: nat)
    requires Settled(lines, dead) && t < |lines| && Flagged(lines, t)
    ensures lines[t].noqa ==> Ignored(lines, dead)[t].muted * {Noqa} == lines[t].muted * {Noqa}
  {
    hide Flagged;
    assert !Reported(lines, t, Noqa);
  }

  lemma {:induction false} LineKept(lines: seq<Line>, dead: set<Dead>, t: nat)
    requires Settled(lines, dead) && t < |lines|
    ensures LineHits(lines, t, true) == LineHits(Ignored(lines, dead), t, true)
  {
    var b := Ignored(lines, dead);
    SameFlagged(lines, dead, t);
    LineHitsMeaning(lines, t, true);
    LineHitsMeaning(b, t, true);
    if Flagged(lines, t) {
      SectionsKept(lines, dead, t);
      PendingKept(lines, dead, t);
      NoqaKept(lines, dead, t);
      StateMeaning(lines, t);
      StateMeaning(b, t);
    }
    hide Settled, StateAt, InSection, Pending, Tag, Flagged;
    assert Noqa in b[t].muted <==> Noqa in b[t].muted * {Noqa};
    assert Noqa in lines[t].muted <==> Noqa in lines[t].muted * {Noqa};
  }

  lemma {:induction false} NothingFlagged(lines: seq<Line>, dead: set<Dead>)
    requires HitsTo(lines, |lines|, false) == []
    ensures HitsTo(Ignored(lines, dead), |lines|, true) == []
  {
    var b := Ignored(lines, dead);
    IgnoredLength(lines, dead);
    hide HitsTo, Flagged, LineHits, Ignored;
    forall j | 0 <= j < |lines| ensures LineHits(b, j, true) == [] {
      HasHitFlagged(lines, j + 1);
      SameFlagged(lines, dead, j);
      LineHitsMeaning(b, j, true);
    }
    NoHits(b, |b|);
  }

  lemma {:induction false} ReportsSettle(f: File, dead: set<Dead>)
    requires forall d | d in dead :: d in DeadIn(f)
    requires forall k | 0 <= k < |f.lines| :: !(f.lines[k].fence && f.lines[k].end)
    requires forall m: nat | IsNamed(dead, m, NextLine) && m + 1 < |f.lines| :: !KeepsPending(f.lines[m + 1])
    ensures Settled(f.lines, dead)
  {
    hide DeadIn, Reported;
    forall m: nat, mk | IsNamed(dead, m, mk) ensures m < |f.lines| && Reported(f.lines, m, mk) {
      ReportMeaning(f, DeadMarker(m + 1, mk));
    }
  }

  /** Any of the reported markers, or all of them, can be ignored together without changing the honoured
      hits: no end marker on a fence line, an ordinary line behind each of the next-line markers. */
  lemma {:induction false} DeadSetIgnorable(f: File, dead: set<Dead>)
    requires forall d | d in dead :: d in DeadIn(f)
    requires forall k | 0 <= k < |f.lines| :: !(f.lines[k].fence && f.lines[k].end)
    requires forall m: nat | IsNamed(dead, m, NextLine) && m + 1 < |f.lines| :: !KeepsPending(f.lines[m + 1])
    ensures Hits(Ignoring(f, dead), true) == Hits(f, true)
  {
    ReportsSettle(f, dead);
    if DeadFile in dead {
      ReportMeaning(f, DeadFile);
      NothingFlagged(f.lines, dead);
    }
    IgnoredLength(f.lines, dead);
    hide DeadIn, Settled, HitsTo, LineHits, Ignored;
    forall t | 0 <= t < |f.lines| ensures LineHits(f.lines, t, true) == LineHits(Ignored(f.lines, dead), t, true) {
      LineKept(f.lines, dead, t);
    }
    SameHits(f.lines, Ignored(f.lines, dead), |f.lines|);
  }

  lemma {:induction false} IgnoredLength(lines: seq<Line>, dead: set<Dead>)
    ensures |Ignored(lines, dead)| == |lines|
  {
  }
}
