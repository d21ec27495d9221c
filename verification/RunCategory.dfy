/** Climbing one category's ladder of tiers: a limited number of retries after timeouts, and a report. */
module RunCategory {
  import opened Basics
  import opened Session
  import opened Safety
  import opened Attempts
  import opened Verdict
  import opened Scoring

  // ---- One tier -----------------------------------------------------------------------------------

  datatype Tier = Tier(number: int, prompt: string, criteria: Criteria)

  /** What a run is configured with: when to give up, how often to retry, the setup message, how much
      tool output a transcript shows, what the scanner finds in a turn, and what the server calls its
      sessions. */
  datatype Config = Config(limits: Limits, retryLimit: int, setup: string, cap: nat, judge: Judge, name: Id -> string)

  /** How a tier ended: scored, or stopped for the provider's quota, for an error the server logged,
      or for a failed request. */
  datatype TierEnd =
    | Scored(capture: Capture, text: string, scan: ScanResult)
    | QuotaStop(text: string, waitMs: int)
    | ServerStop(text: string)
    | RequestError(message: string)

  /** One attempt, with its session and the trace it left. */
  datatype Ran = Ran(session: Id, result: Attempted, seg: seq<Event>)

  const TIMED_OUT := "timed out after"

  predicate IsTimeout(a: Attempted) {
    a.Failed? && Contains(a.message, TIMED_OUT)
  }

  /** What the client reads for scoring: the session's tool calls, then its chain. */
  ghost predicate Captures(tail: seq<Event>, s: Id, c: Capture) {
    exists gap, r1, r2 :: OnlyReturns(r1) && OnlyReturns(r2) &&
      tail == [Fetched(s, c.tools, gap)] + r1 + ([Fetched(s, c.chain, c.gap)] + r2)
  }

  /** A scored tier was scored on the transcript of the session that was answered: of what the server
      gave for that session, and without a chain of the two replies. */
  ghost predicate ScoredFrom(end: TierEnd, a: Ran, tail: seq<Event>, tier: Tier, config: Config)
    requires a.result.BothAnswered? && end.Scored?
  {
    && Captures(tail, a.session, end.capture)
    && end.text == TranscriptOf(end.capture, config.name(a.session), TalkOf(a, tier, config), config.cap)
    && Scans(end.text, config.judge, end.scan)
  }

  function TalkOf(a: Ran, tier: Tier, config: Config): Talk
    requires a.result.BothAnswered?
  {
    Talk(config.setup, a.result.setup, tier.prompt, a.result.probe)
  }

  ghost predicate EndsWith(a: Ran, tail: seq<Event>, end: TierEnd, tier: Tier, config: Config) {
    match a.result
    case BothAnswered(_, _) => end.Scored? && ScoredFrom(end, a, tail, tier, config)
    case Stopped(Quota(next, now)) => tail == [] && end.QuotaStop? && end.waitMs == next - now
    case Stopped(_) => tail == [] && end.ServerStop?
    case Failed(message) => tail == [] && end == RequestError(message)
  }

  /** A tier's attempts, and what was read after the last one. */
  datatype TierRun = TierRun(attempts: seq<Ran>, tail: seq<Event>)

  /** The attempts of a tier: each but the last timed out, the last decides, and a timeout decides
      only once the retries are used up. */
  ghost predicate TierTrace(run: TierRun, tier: Tier, config: Config, end: TierEnd) {
    var runs := run.attempts;
    && runs != [] && |runs| <= 1 + Retries(config.retryLimit)
    && (forall i | 0 <= i < |runs| :: AttemptTrace(runs[i].seg, runs[i].session, config.limits, runs[i].result))
    && (forall i | 0 <= i < |runs| - 1 :: IsTimeout(runs[i].result))
    && var last := runs[|runs| - 1];
    && EndsWith(last, run.tail, end, tier, config)
    && (IsTimeout(last.result) ==> |runs| == 1 + Retries(config.retryLimit))
  }

  function Retries(retryLimit: int): nat {
    if retryLimit > 0 then retryLimit else 0
  }

  function TraceOf(runs: seq<Ran>): seq<Event> {
    if runs == [] then [] else TraceOf(runs[..|runs| - 1]) + runs[|runs| - 1].seg
  }

  lemma {:induction false} TraceOfStep(base: seq<Event>, runs: seq<Ran>, r: Ran)
    ensures base + TraceOf(runs + [r]) == (base + TraceOf(runs)) + r.seg
  {
    assert (runs + [r])[..|runs|] == runs;
    Regroup(base, TraceOf(runs), r.seg);
  }

  /** How many sessions a trace creates. */
  function Sessions(t: seq<Event>): nat {
    if t == [] then 0 else Sessions(t[..|t| - 1]) + (if t[|t| - 1].Created? then 1 else 0)
  }

  lemma {:induction false} SessionsConcat(a: seq<Event>, b: seq<Event>)
    ensures Sessions(a + b) == Sessions(a) + Sessions(b)
  {
    if b == [] {
      assert a + b == a;
    } else {
      var init := b[..|b| - 1];
      assert (a + b)[..|a + b| - 1] == a + init;
      SessionsConcat(a, init);
    }
  }

  lemma {:induction false} SessionsAtFront(t: seq<Event>)
    requires forall i | 0 < i < |t| :: !t[i].Created?
    ensures Sessions(t) <= 1
    ensures t != [] && !t[0].Created? ==> Sessions(t) == 0
  {
    if |t| > 1 {
      SessionsAtFront(t[..|t| - 1]);
    } else if |t| == 1 {
      assert t[..0] == [];
    }
  }

  /** A tier creates at most one session more than its retry limit, whatever happens. */
  lemma {:induction false} SessionsBounded(run: TierRun, tier: Tier, config: Config, end: TierEnd)
    requires TierTrace(run, tier, config, end)
    ensures Sessions(TierEvents(run)) <= 1 + Retries(config.retryLimit)
  {
    TailSettles(run, tier, config, end);
    hide EndsWith;
    OnePerAttempt(run.attempts, config.limits);
    SessionsConcat(TraceOf(run.attempts), run.tail);
    if run.tail != [] { SessionsAtFront(run.tail); }
  }

  /** Reading creates no session and sends nothing. */
  lemma {:induction false} TailSettles(run: TierRun, tier: Tier, config: Config, end: TierEnd)
    requires run.attempts != [] && EndsWith(run.attempts[|run.attempts| - 1], run.tail, end, tier, config)
    ensures NoSession(run.tail)
  {
    var last := run.attempts[|run.attempts| - 1];
    if last.result.BothAnswered? { CapturesNothing(run.tail, last.session, end.capture); }
  }

  lemma {:induction false} CapturesNothing(tail: seq<Event>, s: Id, c: Capture)
    requires Captures(tail, s, c)
    ensures NoSession(tail)
  {
    var gap, r1, r2 :| OnlyReturns(r1) && OnlyReturns(r2) &&
      tail == [Fetched(s, c.tools, gap)] + r1 + ([Fetched(s, c.chain, c.gap)] + r2);
    var a, b := [Fetched(s, c.tools, gap)] + r1, [Fetched(s, c.chain, c.gap)] + r2;
    forall i | 0 <= i < |tail| ensures !tail[i].Created? && !tail[i].Posted? {
      if i < |a| { assert tail[i] == a[i]; } else { assert tail[i] == b[i - |a|]; }
    }
  }

  function TierEvents(run: TierRun): seq<Event> {
    TraceOf(run.attempts) + run.tail
  }

  lemma {:induction false} OnePerAttempt(runs: seq<Ran>, limits: Limits)
    requires forall i | 0 <= i < |runs| :: AttemptTrace(runs[i].seg, runs[i].session, limits, runs[i].result)
    ensures Sessions(TraceOf(runs)) <= |runs|
  {
    if runs != [] {
      var init, last := runs[..|runs| - 1], runs[|runs| - 1];
      OnePerAttempt(init, limits);
      SessionsConcat(TraceOf(init), last.seg);
      AtMostOne(last, limits);
    }
  }

  lemma {:induction false} AtMostOne(r: Ran, limits: Limits)
    requires AttemptTrace(r.seg, r.session, limits, r.result)
    ensures Sessions(r.seg) <= 1
  {
    hide SingleFile, ProbesSetUp, AbortTried, Actions, CallsFor, Sessions;
    SessionsAtFront(r.seg);
  }

  lemma {:induction false} AttemptIsSafe(base: seq<Event>, seg: seq<Event>, s: Id, limits: Limits, result: Attempted)
    requires Safe(base) && SessionsBelow(base, s) && AttemptTrace(seg, s, limits, result)
    ensures Safe(base + seg)
  {
    hide Safe, Shape, GoodAttempt, Actions, CallsFor;
    if GoodAttempt(seg, s) { AttemptKeepsSafe(base, seg, s); } else { NothingKeepsSafe(base, seg); }
  }

  lemma {:induction false} WorldBelow(world: World)
    requires world.Valid()
    ensures SessionsBelow(world.trace, world.nextSession)
  {
    forall i | 0 <= i < |world.trace| && (world.trace[i].Posted? || world.trace[i].Created?)
      ensures world.trace[i].session < world.nextSession
    {
      assert IdsBelow(world.trace[i], world.nextSession, world.nextCall);
    }
  }

  /** Attempts a tier, anew after a timeout while retries are left, and scores the session that was
      answered. */
  method RunTier(world: World, tier: Tier, config: Config) returns (end: TierEnd, ghost run: TierRun)
    requires world.Valid()
    modifies world
    ensures world.Valid()
    ensures world.trace == old(world.trace) + TierEvents(run)
    ensures TierTrace(run, tier, config, end)
    ensures Safe(old(world.trace)) ==> Safe(world.trace)
  {
    hide AttemptTrace, Safe, SessionsBelow, Contains, EndsWith;
    ghost var base := world.trace;
    var retriesLeft := config.retryLimit;
    ghost var runs: seq<Ran> := [];
    assert base + TraceOf(runs) == base;
    while true
      invariant world.Valid() && world.trace == base + TraceOf(runs)
      invariant Safe(base) ==> Safe(world.trace)
      invariant |runs| + Retries(retriesLeft) == Retries(config.retryLimit)
      invariant forall i | 0 <= i < |runs| :: AttemptTrace(runs[i].seg, runs[i].session, config.limits, runs[i].result)
      invariant forall i | 0 <= i < |runs| :: IsTimeout(runs[i].result)
      decreases retriesLeft
    {
      var s := world.nextSession;
      ghost var before := world.trace;
      WorldBelow(world);
      var result;
      ghost var seg;
      result, seg := Attempt(world, config.limits);
      if Safe(before) { AttemptIsSafe(before, seg, s, config.limits, result); }
      TraceOfStep(base, runs, Ran(s, result, seg));
      runs := runs + [Ran(s, result, seg)];
      if IsTimeout(result) && retriesLeft > 0 {
        retriesLeft := retriesLeft - 1;
        continue;
      }
      before := world.trace;
      ghost var tail;
      end, tail := EndTier(world, result, s, tier, config, seg);
      run := TierRun(runs, tail);
      TailSettles(run, tier, config, end);
      if Safe(before) { NothingKeepsSafe(before, tail); }
      Regroup(base, TraceOf(runs), tail);
      return end, run;
    }
  }

  /** What the last attempt makes of the tier; the messages shown to people are up to the server. */
  method EndTier(world: World, result: Attempted, s: Id, tier: Tier, config: Config, ghost seg: seq<Event>)
    returns (end: TierEnd, ghost tail: seq<Event>)
    requires world.Valid() && (result.BothAnswered? ==> s < world.nextSession)
    modifies world`trace, world`returned
    ensures world.Valid() && world.trace == old(world.trace) + tail
    ensures EndsWith(Ran(s, result, seg), tail, end, tier, config)
  {
    hide Scans, TranscriptOf;
    ghost var base := world.trace;
    var text: string := *;
    tail := [];
    assert base + tail == base;
    match result {
      case BothAnswered(x, y) =>
        var tools, gap1, r1 := world.Fetch(s);
        var chain, gap2, r2 := world.Fetch(s);
        tail := [Fetched(s, tools, gap1)] + r1 + ([Fetched(s, chain, gap2)] + r2);
        assert world.trace == base + tail;
        var capture, failure: Option<string> := Capture(tools, chain, gap2), *;
        var scan;
        text, scan := ScoreSession(capture, config.name(s), Talk(config.setup, x, tier.prompt, y), config.cap,
                                   config.judge, failure);
        end := Scored(capture, text, scan);
      case Stopped(Quota(next, now)) => end := QuotaStop(text, next - now);
      case Stopped(_) => end := ServerStop(text);
      case Failed(message) => end := RequestError(message);
    }
  }

  // ---- The category -------------------------------------------------------------------------------

  datatype TierRecord = TierRecord(tier: int, passed: bool, needsReview: bool, reason: string, waitMs: int)

  const QUOTA := "quota/rate-limit exhausted"
  const SERVER_ERROR := "opencode server log error"
  const REQUEST_ERROR := "HTTP/request error"

  function RecordFor(tier: Tier, end: TierEnd): TierRecord {
    match end
    case Scored(_, _, scan) =>
      var (passed, reason) := CheckPass(scan, tier.criteria);
      TierRecord(tier.number, passed, NEEDS_REVIEW <= reason, reason, 0)
    case QuotaStop(text, waitMs) => TierRecord(tier.number, false, false, QUOTA + ": " + text, waitMs)
    case ServerStop(text) => TierRecord(tier.number, false, false, SERVER_ERROR + ": " + text, 0)
    case RequestError(message) => TierRecord(tier.number, false, false, REQUEST_ERROR + ": " + message, 0)
  }

  function DotFor(tier: Tier, end: TierEnd): char {
    match end
    case Scored(_, _, _) =>
      var r := RecordFor(tier, end);
      if r.passed then '.' else if r.needsReview then 'R' else 'F'
    case QuotaStop(_, _) => 'Q'
    case _ => 'E'
  }

  /** The number of the last tier that passed, or 0. */
  function Ceiling(records: seq<TierRecord>): int {
    if records == [] then 0
    else if records[|records| - 1].passed then records[|records| - 1].tier
    else Ceiling(records[..|records| - 1])
  }

  /** A category's report: a record and a dot for every tier tried; the tiers tried are a prefix of
      the ladder that ends with the first tier not passed, if there is one. */
  ghost predicate Climbed(tiers: seq<Tier>, ends: seq<TierEnd>, records: seq<TierRecord>, dots: string) {
    && |ends| == |records| == |dots| <= |tiers|
    && (forall i | 0 <= i < |ends| ::
          records[i] == RecordFor(tiers[i], ends[i]) && dots[i] == DotFor(tiers[i], ends[i]))
    && (forall i | 0 <= i < |records| - 1 :: records[i].passed)
    && (|records| < |tiers| ==> records != [] && !records[|records| - 1].passed)
  }

  function CategoryTrace(runs: seq<TierRun>): seq<Event> {
    if runs == [] then [] else CategoryTrace(runs[..|runs| - 1]) + TierEvents(runs[|runs| - 1])
  }

  lemma {:induction false} CategoryStep(base: seq<Event>, runs: seq<TierRun>, r: TierRun)
    ensures base + CategoryTrace(runs + [r]) == (base + CategoryTrace(runs)) + TierEvents(r)
  {
    assert (runs + [r])[..|runs|] == runs;
    Regroup(base, CategoryTrace(runs), TierEvents(r));
  }

  /** While it climbs: what was recorded of the tiers so far, all of which but the last have passed. */
  ghost predicate Climbing(tiers: seq<Tier>, config: Config, ends: seq<TierEnd>, records: seq<TierRecord>, dots: string,
                           runs: seq<TierRun>) {
    && |ends| == |records| == |dots| == |runs| <= |tiers|
    && (forall i | 0 <= i < |ends| ::
          records[i] == RecordFor(tiers[i], ends[i]) && dots[i] == DotFor(tiers[i], ends[i]))
    && (forall i | 0 <= i < |runs| :: TierTrace(runs[i], tiers[i], config, ends[i]))
    && (forall i | 0 <= i < |records| - 1 :: records[i].passed)
  }

  lemma {:induction false} ClimbStart(tiers: seq<Tier>, config: Config, base: seq<Event>)
    ensures Climbing(tiers, config, [], [], "", []) && base + CategoryTrace([]) == base && Ceiling([]) == 0
  {
  }

  lemma {:induction false} ClimbStep(tiers: seq<Tier>, config: Config, ends: seq<TierEnd>, records: seq<TierRecord>,
                                     dots: string, runs: seq<TierRun>, end: TierEnd, run: TierRun)
    requires Climbing(tiers, config, ends, records, dots, runs) && |ends| < |tiers|
    requires records != [] ==> records[|records| - 1].passed
    requires TierTrace(run, tiers[|ends|], config, end)
    ensures var t := tiers[|ends|];
            Climbing(tiers, config, ends + [end], records + [RecordFor(t, end)], dots + [DotFor(t, end)], runs + [run])
  {
    hide TierTrace, RecordFor, DotFor;
  }

  lemma {:induction false} ClimbEnds(tiers: seq<Tier>, config: Config, ends: seq<TierEnd>, records: seq<TierRecord>,
                                     dots: string, runs: seq<TierRun>)
    requires Climbing(tiers, config, ends, records, dots, runs)
    requires |records| < |tiers| ==> records != [] && !records[|records| - 1].passed
    ensures Climbed(tiers, ends, records, dots) && |runs| == |ends| <= |tiers|
    ensures forall i | 0 <= i < |runs| :: TierTrace(runs[i], tiers[i], config, ends[i])
  {
    hide TierTrace, RecordFor, DotFor;
  }

  method RunCategory(world: World, tiers: seq<Tier>, config: Config)
    returns (records: seq<TierRecord>, dots: string, ceiling: int, ghost ends: seq<TierEnd>, ghost runs: seq<TierRun>)
    requires world.Valid()
    modifies world
    ensures world.Valid()
    ensures Safe(old(world.trace)) ==> Safe(world.trace)
    ensures Climbed(tiers, ends, records, dots) && ceiling == Ceiling(records)
    ensures world.trace == old(world.trace) + CategoryTrace(runs) && |runs| == |ends| <= |tiers|
    ensures forall i | 0 <= i < |runs| :: TierTrace(runs[i], tiers[i], config, ends[i])
  {
    hide TierTrace, Safe, RecordFor, DotFor, TierEvents, Climbed, CategoryTrace, Ceiling, Climbing, IdsBelow;
    ghost var base := world.trace;
    records, dots, ceiling, ends, runs := [], "", 0, [], [];
    ClimbStart(tiers, config, base);
    var k := 0;
    while k < |tiers|
      invariant k == |records| == |ends| <= |tiers| && Climbing(tiers, config, ends, records, dots, runs)
      invariant records != [] ==> records[|records| - 1].passed
      invariant world.Valid() && (Safe(base) ==> Safe(world.trace))
      invariant world.trace == base + CategoryTrace(runs) && ceiling == Ceiling(records)
    {
      var end;
      ghost var run;
      end, run := RunTier(world, tiers[k], config);
      CategoryStep(base, runs, run);
      ClimbStep(tiers, config, ends, records, dots, runs, end, run);
      var record := RecordFor(tiers[k], end);
      CeilingStep(records, record);
      records, dots := records + [record], dots + [DotFor(tiers[k], end)];
      ends, runs := ends + [end], runs + [run];
      if !record.passed {
        ClimbEnds(tiers, config, ends, records, dots, runs);
        return;
      }
      ceiling := tiers[k].number;
      RecordNumber(tiers[k], end);
      k := k + 1;
    }
    ClimbEnds(tiers, config, ends, records, dots, runs);
  }

  lemma {:induction false} CeilingStep(records: seq<TierRecord>, record: TierRecord)
    ensures Ceiling(records + [record]) == if record.passed then record.tier else Ceiling(records)
  {
    assert (records + [record])[..|records|] == records;
  }

  lemma {:induction false} RecordNumber(tier: Tier, end: TierEnd)
    ensures RecordFor(tier, end).tier == tier.number
  {
  }

  /** The ceiling: everything up to it passed, and the tier after it, if tried, did not. */
  lemma {:induction false} CeilingMeaning(tiers: seq<Tier>, ends: seq<TierEnd>, records: seq<TierRecord>, dots: string)
    requires Climbed(tiers, ends, records, dots)
    ensures records == [] ==> Ceiling(records) == 0
    ensures records != [] && records[|records| - 1].passed ==>
              |records| == |tiers| && Ceiling(records) == tiers[|tiers| - 1].number
    ensures records != [] && !records[|records| - 1].passed ==>
              Ceiling(records) == if |records| == 1 then 0 else tiers[|records| - 2].number
  {
    hide CheckPass;
    if records != [] && !records[|records| - 1].passed {
      var init := records[..|records| - 1];
      if init != [] { assert init[|init| - 1] == records[|records| - 2]; }
    }
  }

  /** A tier that passed had both its messages answered, in its last session, and nothing forbidden is
      found in any turn of that session's transcript. */
  lemma {:induction false} PassNeedsAnswers(tier: Tier, end: TierEnd, run: TierRun, config: Config)
    requires TierTrace(run, tier, config, end) && RecordFor(tier, end).passed
    ensures var r := run.attempts[|run.attempts| - 1];
            && r.result.BothAnswered? && end.Scored? && end.scan.scanned && ScoredFrom(end, r, run.tail, tier, config)
            && r.result.setup.error == None && r.result.probe.error == None
            && exists c, d, ok :: Actions(r.seg) == StepList(r.session, c, d, ok, ok, true, 1) &&
                 Finished(c, r.session, Reply(r.result.setup)) in r.seg &&
                 Finished(d, r.session, Reply(r.result.probe)) in r.seg
    ensures forall i | 0 <= i < |tier.criteria.mustNot| :: !Found(end.text, config.judge, tier.criteria.mustNot[i])
    ensures forall i | 0 <= i < |tier.criteria.must| :: Found(end.text, config.judge, tier.criteria.must[i])
    ensures tier.criteria.manualCheck == None
  {
    hide GoodAttempt, Actions, StepList, Steps, FailedSend, CheckPass, Found, Scans, TranscriptOf, Captures;
    var last := run.attempts[|run.attempts| - 1];
    assert AttemptTrace(last.seg, last.session, config.limits, last.result);
    assert CheckPass(end.scan, tier.criteria).0;
    VerdictOfText(end.text, config.judge, end.scan, tier.criteria);
  }

  /** In a tier that passed, and whose chain could be read, every assistant message of the session and
      of its subagents was judged as a turn of its own, and none has a forbidden finding. */
  lemma {:induction false} PassedTierCleared(tier: Tier, end: TierEnd, run: TierRun, config: Config)
    requires TierTrace(run, tier, config, end) && RecordFor(tier, end).passed
    requires end.Scored? && Readable(end.capture, config.name(run.attempts[|run.attempts| - 1].session), config.cap)
    ensures var s := run.attempts[|run.attempts| - 1].session;
            && Captures(run.tail, s, end.capture)
            && Cleared(end.capture, config.name(s), end.text, config.cap, config.judge, tier.criteria)
  {
    hide AttemptTrace, CheckPass, Found, Scans, TranscriptOf, Captures, Readable, Cleared;
    var last := run.attempts[|run.attempts| - 1];
    assert CheckPass(end.scan, tier.criteria).0;
    PassClearsMessages(end.capture, config.name(last.session), TalkOf(last, tier, config), config.cap,
                       config.judge, end.scan, tier.criteria);
  }
}
