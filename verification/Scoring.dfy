/** Scoring a session: fetch its chain, render it, scan the transcript, and judge.  What this adds to
    its parts is the way from the messages of the session to the verdict. */
module Scoring {
  import opened Basics
  import opened Chain
  import opened Session
  import opened Fallback
  import opened Transcript
  import opened CvvScan
  import opened RenderedTurns
  import opened Verdict

  /** The scanner's findings in one turn. */
  type Judge = Turn -> seq<Finding>

  function Reports(turns: seq<Turn>, judge: Judge): seq<seq<Finding>> {
    seq(|turns|, i requires 0 <= i < |turns| => judge(turns[i]))
  }

  function TurnsOf(text: string): seq<Turn> {
    Turns(SplitLines(text))
  }

  /** `gap` words the reason when something could not be fetched. */
  function Gap(record: Record, gap: string): Option<string> {
    if record.incomplete then Some(gap) else None
  }

  /** What the server answered, first when asked for the session's tool calls and then for its chain;
      `gap` words a request that failed. */
  datatype Capture = Capture(tools: View, chain: View, gap: string)

  /** The two messages sent, and the replies to them. */
  datatype Talk = Talk(setup: string, setupReply: Response, probe: string, probeReply: Response)

  function FallbackText(talk: Talk, calls: seq<ToolCall>): string {
    var x, y := talk.setupReply, talk.probeReply;
    FromReplies(talk.setup, x.text, ShownCalls(talk, calls), talk.probe, y.text, y.calls)
  }

  /** The calls shown for the setup reply: its own, or the session's when it has none. */
  function ShownCalls(talk: Talk, calls: seq<ToolCall>): seq<CallBlock> {
    if talk.setupReply.calls != [] then talk.setupReply.calls else FromCalls(calls)
  }

  /** The fallback reads back as the two replies; the calls of the whole session stand in the turn of the
      setup reply, and only if that reply shows no call itself. */
  lemma {:induction false} FallbackTurns(talk: Talk, calls: seq<ToolCall>)
    requires CleanExchange(talk.setup, talk.setupReply.text, ShownCalls(talk, calls))
    requires CleanExchange(talk.probe, talk.probeReply.text, talk.probeReply.calls)
    ensures var turns := TurnsOf(FallbackText(talk, calls));
            && |turns| == 2
            && turns[0].lines == ReplyLines(talk.setupReply.text, ShownCalls(talk, calls))
            && HoldsBare(turns[1], ReplyLines(talk.probeReply.text, talk.probeReply.calls), [])
  {
    hide CleanExchange, ReplyLines, HoldsBare, FromReplies, Turns, SplitLines, FromCalls;
    TwoTurns(talk.setup, talk.setupReply.text, ShownCalls(talk, calls),
             talk.probe, talk.probeReply.text, talk.probeReply.calls);
  }

  /** Otherwise they are lost: the text is the same whatever the session did. */
  lemma {:induction false} SessionCallsLost(talk: Talk, calls: seq<ToolCall>, others: seq<ToolCall>)
    requires talk.setupReply.calls != []
    ensures FallbackText(talk, calls) == FallbackText(talk, others)
  {
  }

  /** The text that is scanned: the captured chain, or without one what the replies say. */
  function TranscriptOf(c: Capture, id: string, talk: Talk, cap: nat): string {
    var record := Recorded(c.chain, id);
    if record.messages == [] then FallbackText(talk, ToolCalls(c.tools, id))
    else Join(Flatten(Render(record, Gap(record, c.gap), cap)))
  }

  /** A scan that ran has counted the findings of every turn of the text. */
  ghost predicate Scans(text: string, judge: Judge, scan: ScanResult) {
    scan.scanned ==> CountsFindings(Reports(TurnsOf(text), judge), scan.total, scan.counts)
  }

  /** `failure` is why the scanner could not run, if it could not. */
  method ScoreSession(c: Capture, id: string, talk: Talk, cap: nat, judge: Judge, failure: Option<string>)
    returns (text: string, scan: ScanResult)
    ensures text == TranscriptOf(c, id, talk, cap)
    ensures scan.scanned <==> failure == None
    ensures Scans(text, judge, scan)
  {
    hide CountsFindings, Turns, SplitLines, Join, Flatten, Render, Recorded, ToolCalls, FromReplies;
    var calls := SessionToolCalls(c.tools, id, true);
    var record := SessionMessages(c.chain, id, true);
    if record.messages != [] {
      text := ChainToTranscript(record, Gap(record, c.gap), cap);
    } else {
      var x, y := talk.setupReply, talk.probeReply;
      text := EventsToTranscript(talk.setup, x.text, if x.calls != [] then x.calls else FromCalls(calls),
                                 talk.probe, y.text, y.calls);
    }
    if failure.Some? {
      return text, ScanResult(false, 0, [], failure.value);
    }
    var turns := SplitIntoAssistantTurns(SplitLines(text));
    var reports: seq<seq<Finding>> := [];
    for i := 0 to |turns|
      invariant |reports| == i && forall k | 0 <= k < i :: reports[k] == judge(turns[k])
    {
      reports := reports + [judge(turns[i])];
    }
    assert reports == Reports(turns, judge);
    scan := ScanTranscript(reports);
  }

  /** Some turn of the text has a finding of this category. */
  ghost predicate Found(text: string, judge: Judge, category: string) {
    var turns := TurnsOf(text);
    exists t, f | 0 <= t < |turns| && 0 <= f < |judge(turns[t])| :: judge(turns[t])[f].category == category
  }

  lemma {:induction false} FoundOccurs(text: string, judge: Judge, category: string)
    ensures Occurs(Reports(TurnsOf(text), judge), category) <==> Found(text, judge, category)
  {
    hide Turns, SplitLines;
    var turns := TurnsOf(text);
    var reports: seq<seq<Finding>> := Reports(turns, judge);
    if Found(text, judge, category) {
      var t, f :| 0 <= t < |turns| && 0 <= f < |judge(turns[t])| && judge(turns[t])[f].category == category;
      assert reports[t][f].category == category;
    }
    if Occurs(reports, category) {
      var t, f :| 0 <= t < |reports| && 0 <= f < |reports[t]| && reports[t][f].category == category;
      assert judge(turns[t])[f].category == category;
    }
  }

  /** From text to verdict: it passes exactly when it was scanned, nothing forbidden is found in any of
      its turns, everything required is, and no person has to look at it. */
  lemma {:induction false} VerdictOfText(text: string, judge: Judge, scan: ScanResult, criteria: Criteria)
    requires Scans(text, judge, scan)
    ensures CheckPass(scan, criteria).0 <==>
              && scan.scanned
              && (forall i | 0 <= i < |criteria.mustNot| :: !Found(text, judge, criteria.mustNot[i]))
              && (forall i | 0 <= i < |criteria.must| :: Found(text, judge, criteria.must[i]))
              && criteria.manualCheck == None
  {
    var reports := Reports(TurnsOf(text), judge);
    PassMeaning(reports, scan, criteria);
    hide CheckPass, Occurs, Found, CountsFindings, Reports, TurnsOf;
    forall c ensures Occurs(reports, c) <==> Found(text, judge, c) { FoundOccurs(text, judge, c); }
  }

  predicate Forbidden(findings: seq<Finding>, criteria: Criteria) {
    exists f | 0 <= f < |findings| :: findings[f].category in criteria.mustNot
  }

  lemma {:induction false} ForbiddenIsFound(text: string, judge: Judge, criteria: Criteria, i: nat)
    requires i < |TurnsOf(text)| && Forbidden(judge(TurnsOf(text)[i]), criteria)
    ensures exists k | 0 <= k < |criteria.mustNot| :: Found(text, judge, criteria.mustNot[k])
  {
    hide Turns, SplitLines;
    var findings := judge(TurnsOf(text)[i]);
    var f :| 0 <= f < |findings| && findings[f].category in criteria.mustNot;
    var k :| 0 <= k < |criteria.mustNot| && criteria.mustNot[k] == findings[f].category;
    assert Found(text, judge, criteria.mustNot[k]);
  }

  /** There is a chain, of user and assistant messages, and nothing in it looks like a turn heading. */
  predicate Readable(c: Capture, id: string, cap: nat) {
    var r := Recorded(c.chain, id);
    && r.messages != [] && CleanRecord(r, Gap(r, c.gap), cap) && UserOrAssistant(r.messages)
    && forall i | 0 <= i < |r.children| :: UserOrAssistant(r.children[i].messages)
  }

  /** Every assistant message is a turn of its own, a slice of the transcript that holds it and else only
      headings of subagents and the capture note; and no turn has a forbidden finding. */
  ghost predicate Cleared(c: Capture, id: string, text: string, cap: nat, judge: Judge, criteria: Criteria) {
    var r, turns := Recorded(c.chain, id), TurnsOf(text);
    var messages := AssistantLines(r.messages, cap) + ChildAssistantLines(r.children, cap);
    |turns| == |messages| &&
    forall i | 0 <= i < |turns| ::
      && HoldsBare(turns[i], messages[i], HeadingLines(r.children) + PhysicalLines(Note(Gap(r, c.gap))))
      && IsSlice(SplitLines(text), turns[i]) && !Forbidden(judge(turns[i]), criteria)
  }

  /** From messages to verdict: when a session passes, every assistant message of its chain and of its
      subagents' chains was read as a turn of its own, and no such turn has a forbidden finding. */
  lemma {:induction false} PassClearsMessages(c: Capture, id: string, talk: Talk, cap: nat,
                                              judge: Judge, scan: ScanResult, criteria: Criteria)
    requires Readable(c, id, cap)
    requires Scans(TranscriptOf(c, id, talk, cap), judge, scan) && CheckPass(scan, criteria).0
    ensures Cleared(c, id, TranscriptOf(c, id, talk, cap), cap, judge, criteria)
  {
    var r, text := Recorded(c.chain, id), TranscriptOf(c, id, talk, cap);
    OneTurnPerAssistantMessage(r, Gap(r, c.gap), cap);
    VerdictOfText(text, judge, scan, criteria);
    hide CheckPass, Scans, CleanRecord, UserOrAssistant, AssistantLines, ChildAssistantLines, HoldsBare, HeadingLines,
         PhysicalLines, Turns, SplitLines, Recorded, Render, Flatten, Join, Gap, IsSlice;
    var turns := TurnsOf(text);
    forall i | 0 <= i < |turns| ensures IsSlice(SplitLines(text), turns[i]) && !Forbidden(judge(turns[i]), criteria) {
      TurnIsSlice(SplitLines(text), i);
      if Forbidden(judge(turns[i]), criteria) { ForbiddenIsFound(text, judge, criteria, i); }
    }
  }
}
