/** Sending one message with an eye on the server: a worker thread holds the blocking POST while the
    main thread polls, and may give up on the session.

    The trace records what the client does and sees, and when a worker's POST returns.  Workers run
    on their own: at every step of the main thread any of them, those of abandoned sessions
    included, may return, with any outcome.
  */
module Session {
  import opened Basics
  import opened Chain

  type Id = nat
  type Call = nat

  /** A reply carries an error when its `finish` says so, and then that error's text; else its text
      and the tool calls in it. */
  datatype Response = Response(error: Option<string>, text: string, calls: seq<CallBlock>)

  datatype Outcome = Reply(response: Response) | Raised(message: string)

  datatype Kind = Setup | Probe

  // ---- The server log -----------------------------------------------------------------------------

  /** What the classifier's markers find in a line; `code` is its quoted three-digit status. */
  datatype Features = Features(contextOverflow: bool, rateLimitText: bool, code: Option<nat>,
                               exhaustedOrUnavailable: bool, tooManyRequestsType: bool, timeoutError: bool)

  datatype LogLine = LogLine(mentions: set<Id>, isError: bool, features: Features)

  datatype Class = ContextOverflow | HttpStatus(code: nat) | ProviderTimeout | Unclassified

  /** None when the server's own retry still has a chance. */
  function Classify(f: Features): Option<Class> {
    if f.contextOverflow then Some(ContextOverflow)
    else if f.rateLimitText then None
    else if f.code.Some? && (f.code.value == 401 || f.code.value == 403) then Some(HttpStatus(f.code.value))
    else if f.code.Some? && (f.code.value == 429 || f.code.value >= 500) then None
    else if f.exhaustedOrUnavailable then None
    else if f.tooManyRequestsType then None
    else if f.timeoutError then Some(ProviderTimeout)
    else Some(Unclassified)
  }

  /** The classes the server retries by itself: rate limits and 5xx, however they are spelled,
      unless the line is also a context overflow, or carries a status that settles it. */
  predicate Retryable(f: Features) {
    var denied := f.code == Some(401) || f.code == Some(403);
    var retriedCode := f.code.Some? && (f.code.value == 429 || f.code.value >= 500);
    !f.contextOverflow &&
    (f.rateLimitText || retriedCode || (!denied && (f.exhaustedOrUnavailable || f.tooManyRequestsType)))
  }

  lemma {:induction false} ClassifyMeaning(f: Features)
    ensures Classify(f) == None <==> Retryable(f)
  {
  }

  predicate ErrorOf(line: LogLine, s: Id) { s in line.mentions && line.isError }

  /** The first ERROR line that mentions the session; later ones are not looked at. */
  function FirstError(lines: seq<LogLine>, s: Id): Option<LogLine> {
    if lines == [] then None
    else if ErrorOf(lines[0], s) then Some(lines[0])
    else FirstError(lines[1..], s)
  }

  lemma {:induction false} FirstErrorMeaning(lines: seq<LogLine>, s: Id)
    ensures FirstError(lines, s) == None <==> forall i | 0 <= i < |lines| :: !ErrorOf(lines[i], s)
    ensures FirstError(lines, s).Some? ==>
              exists i | 0 <= i < |lines| ::
                FirstError(lines, s) == Some(lines[i]) && ErrorOf(lines[i], s) &&
                forall j | 0 <= j < i :: !ErrorOf(lines[j], s)
  {
    if lines != [] && !ErrorOf(lines[0], s) {
      var rest := lines[1..];
      FirstErrorMeaning(rest, s);
      assert forall i | 0 < i < |lines| :: lines[i] == rest[i - 1];
      if FirstError(lines, s).Some? {
        var i :| 0 <= i < |rest| && FirstError(rest, s) == Some(rest[i]) && ErrorOf(rest[i], s) &&
          forall j | 0 <= j < i :: !ErrorOf(rest[j], s);
        assert lines[i + 1] == rest[i];
      }
    }
  }

  // ---- The trace ----------------------------------------------------------------------------------

  /** One status answer: not available, or a type, and for a retry the announced next attempt. */
  datatype Status = Unavailable | Idle | Busy | Retry(next: Option<int>)

  datatype Event =
    | Created(session: Id)
    | CreateFailed(message: string)
    | Posted(session: Id, kind: Kind, call: Call)
    | Finished(call: Call, session: Id, outcome: Outcome)
    | Aborted(session: Id, ok: bool)
    | SawStatus(session: Id, status: Status)
    | SawLog(session: Id, lines: seq<LogLine>)
    | SawProgress(session: Id, previous: Option<Snapshot>, current: Option<Snapshot>)
    | SawRetry(session: Id, next: int, now: int)
    | Fetched(session: Id, view: View, gap: string)

  /** When to give up: milliseconds of announced wait, and turns without a finish reason. */
  datatype Limits = Limits(quotaWait: int, unproductive: int)

  /** The client's own actions. */
  predicate IsAction(e: Event) {
    e.Created? || e.CreateFailed? || e.Posted? || e.Aborted?
  }

  function Actions(t: seq<Event>): seq<Event> {
    if t == [] then [] else Actions(t[..|t| - 1]) + (if IsAction(t[|t| - 1]) then [t[|t| - 1]] else [])
  }

  lemma {:induction false} ActionsConcat(a: seq<Event>, b: seq<Event>)
    ensures Actions(a + b) == Actions(a) + Actions(b)
  {
    if b == [] {
      assert a + b == a;
    } else {
      var init := b[..|b| - 1];
      assert (a + b)[..|a + b| - 1] == a + init;
      ActionsConcat(a, init);
    }
  }

  predicate OnlyReturns(t: seq<Event>) {
    forall i | 0 <= i < |t| :: t[i].Finished?
  }

  lemma {:induction false} NoActions(t: seq<Event>)
    requires forall i | 0 <= i < |t| :: !IsAction(t[i])
    ensures Actions(t) == []
  {
    if t != [] { NoActions(t[..|t| - 1]); }
  }

  /** An event followed by returns of other workers. */
  lemma {:induction false} ActionsStep(seg: seq<Event>, e: Event, returns': seq<Event>)
    requires OnlyReturns(returns')
    ensures Actions(seg + [e] + returns') == Actions(seg) + (if IsAction(e) then [e] else [])
  {
    ActionsConcat(seg + [e], returns');
    ActionsConcat(seg, [e]);
    NoActions(returns');
    assert [e][..0] == [];
  }

  lemma {:induction false} ActionsQuiet(seg: seq<Event>, returns': seq<Event>)
    requires OnlyReturns(returns')
    ensures Actions(seg + returns') == Actions(seg)
  {
    ActionsConcat(seg, returns');
    NoActions(returns');
  }

  // ---- The world ----------------------------------------------------------------------------------

  /** Between two states of the workers: calls that returned stay returned, and every new return is
      in `returns'`. */
  ghost predicate Moved(before: map<Call, Outcome>, after: map<Call, Outcome>, owner: map<Call, Id>,
                        returns': seq<Event>) {
    && OnlyReturns(returns')
    && (forall c | c in before :: c in after && after[c] == before[c])
    && (forall c | c in after && c !in before :: c in owner && Finished(c, owner[c], after[c]) in returns')
  }

  class World {
    var trace: seq<Event>
    var nextSession: Id
    var nextCall: Call
    var owner: map<Call, Id>
    var returned: map<Call, Outcome>
    /** How many more waits the current call outlasts: every POST returns in the end. */
    var patience: nat

    ghost predicate Valid() reads this {
      && (forall c | c in owner :: c < nextCall) && returned.Keys <= owner.Keys
      && forall i | 0 <= i < |trace| :: IdsBelow(trace[i], nextSession, nextCall)
    }

    constructor ()
      ensures Valid() && trace == []
    {
      trace, nextSession, nextCall, owner, returned, patience := [], 0, 0, map[], map[], 0;
    }

    /** Any number of outstanding calls return. */
    method Others() returns (ghost returns': seq<Event>)
      requires Valid()
      modifies `trace, `returned
      ensures Valid() && trace == old(trace) + returns'
      ensures Moved(old(returned), returned, owner, returns')
    {
      returns' := [];
      var n: nat := *;
      assert trace == old(trace) + [];
      while n > 0
        invariant Valid() && trace == old(trace) + returns'
        invariant Moved(old(returned), returned, owner, returns')
      {
        n := n - 1;
        var outstanding := owner.Keys - returned.Keys;
        if outstanding != {} {
          var c :| c in outstanding;
          var outcome: Outcome := *;
          returned := returned[c := outcome];
          var e := Finished(c, owner[c], outcome);
          trace := trace + [e];
          ghost var before := returns';
          returns' := returns' + [e];
          assert returns'[|before|] == e;
          assert forall x :: x in before ==> x in returns';
        }
      }
    }

    /** One event of the main thread, then whatever the workers do meanwhile. */
    method Do(e: Event) returns (ghost returns': seq<Event>)
      requires Valid() && IdsBelow(e, nextSession, nextCall)
      modifies `trace, `returned
      ensures Valid() && trace == old(trace) + [e] + returns'
      ensures Moved(old(returned), returned, owner, returns')
    {
      trace := trace + [e];
      returns' := Others();
    }

    method CreateSession() returns (session: Option<Id>, message: string, ghost returns': seq<Event>)
      requires Valid()
      modifies `trace, `returned, `nextSession
      ensures Valid() && Moved(old(returned), returned, owner, returns')
      ensures match session
              case Some(s) =>
                s == old(nextSession) && nextSession == s + 1 && trace == old(trace) + [Created(s)] + returns'
              case None => nextSession == old(nextSession) && trace == old(trace) + [CreateFailed(message)] + returns'
    {
      var works: bool := *;
      message := *;
      if works {
        session := Some(nextSession);
        nextSession := nextSession + 1;
        returns' := Do(Created(session.value));
      } else {
        session := None;
        returns' := Do(CreateFailed(message));
      }
    }

    /** Starts a worker on a new call; it may even have returned by the time this does. */
    method Post(s: Id, kind: Kind) returns (call: Call, ghost returns': seq<Event>)
      requires Valid() && s < nextSession
      modifies `trace, `returned, `nextCall, `owner, `patience
      ensures Valid() && call == old(nextCall) && nextCall == call + 1
      ensures owner == old(owner)[call := s]
      ensures trace == old(trace) + [Posted(s, kind, call)] + returns'
      ensures Moved(old(returned), returned, owner, returns')
    {
      call := nextCall;
      nextCall := nextCall + 1;
      owner := owner[call := s];
      patience := *;
      returns' := Do(Posted(s, kind, call));
    }

    /** Waits one poll interval for a call: has it returned? */
    method Wait(call: Call) returns (done: bool, ghost returns': seq<Event>)
      requires Valid() && call in owner
      modifies `trace, `returned, `patience
      ensures Valid() && trace == old(trace) + returns' && Moved(old(returned), returned, owner, returns')
      ensures done <==> call in returned
      ensures patience <= old(patience) && (!done ==> patience < old(patience))
    {
      returns' := Others();
      if call !in returned && patience == 0 {
        var outcome: Outcome := *;
        returned := returned[call := outcome];
        var e := Finished(call, owner[call], outcome);
        trace := trace + [e];
        ghost var before := returns';
        returns' := returns' + [e];
        assert returns'[|before|] == e;
        assert forall x :: x in before ==> x in returns';
      } else if call !in returned {
        patience := patience - 1;
      }
      done := call in returned;
    }

    /** Asks for a session's chain and its children's: what the server answers, and how a request
        that failed is worded. */
    method Fetch(s: Id) returns (view: View, gap: string, ghost returns': seq<Event>)
      requires Valid() && s < nextSession
      modifies `trace, `returned
      ensures Valid() && trace == old(trace) + [Fetched(s, view, gap)] + returns' && OnlyReturns(returns')
    {
      view, gap := *, *;
      returns' := Do(Fetched(s, view, gap));
    }

    method Abort(s: Id) returns (ok: bool, ghost returns': seq<Event>)
      requires Valid() && s < nextSession
      modifies `trace, `returned
      ensures Valid() && trace == old(trace) + [Aborted(s, ok)] + returns'
      ensures Moved(old(returned), returned, owner, returns')
    {
      ok := *;
      returns' := Do(Aborted(s, ok));
    }
  }

  predicate IdsBelow(e: Event, session: Id, call: Call) {
    match e
    case Created(s) => s < session
    case CreateFailed(_) => true
    case Posted(s, _, c) => s < session && c < call
    case Finished(c, _, _) => c < call
    case Aborted(s, _) => s < session
    case SawStatus(s, _) => s < session
    case SawLog(s, _) => s < session
    case SawProgress(s, _, _) => s < session
    case SawRetry(s, _, _) => s < session
    case Fetched(s, _, _) => s < session
  }

  // ---- Giving up ----------------------------------------------------------------------------------

  datatype Bailout =
    | ServerLog(line: LogLine, class_: Class)
    | Unproductive
    | Quota(next: int, now: int)

  datatype SendResult = Replied(response: Response) | Error(message: string) | GaveUp(why: Bailout)

  /** The bailout an observation calls for, if any. */
  function CallsFor(e: Event, s: Id, limits: Limits): Option<Bailout> {
    match e
    case SawLog(_, lines) =>
      (match FirstError(lines, s)
       case None => None
       case Some(line) =>
         match Classify(line.features)
         case None => None
         case Some(c) => Some(ServerLog(line, c)))
    case SawProgress(_, previous, current) =>
      if UnproductiveLoop(previous, current, limits.unproductive) then Some(Unproductive) else None
    case SawRetry(_, next, now) =>
      if next - now > limits.quotaWait then Some(Quota(next, now)) else None
    case _ => None
  }

  /** Nothing seen so far calls for a bailout. */
  ghost predicate Calm(seg: seq<Event>, s: Id, limits: Limits) {
    forall i | 0 <= i < |seg| :: CallsFor(seg[i], s, limits) == None
  }

  /** What a poll still owes: after a status it reads the log, and for a retry with an announced
      attempt it then compares that with the clock. */
  datatype Duty = NoDuty | OwesLog(status: Status) | Looked(status: Status) | Neglected

  /** The state of the polling, as the trace shows it: the last snapshot, and the duty. */
  datatype Memory = Memory(snapshot: Option<Snapshot>, duty: Duty)

  predicate Discharged(d: Duty) {
    d == NoDuty || (d.Looked? && !(d.status.Retry? && d.status.next.Some?))
  }

  function Update(m: Memory, e: Event): Memory {
    match e
    case SawStatus(_, status) =>
      m.(duty := if !Discharged(m.duty) then Neglected else if status == Unavailable then NoDuty else OwesLog(status))
    case SawLog(_, _) => m.(duty := if m.duty.OwesLog? then Looked(m.duty.status) else Neglected)
    case SawProgress(_, previous, current) =>
      Memory(current, if m.duty.Looked? && previous == m.snapshot then m.duty else Neglected)
    case SawRetry(_, next, _) =>
      m.(duty := if m.duty == Looked(Retry(Some(next))) then NoDuty else Neglected)
    case _ => m
  }

  function Recall(t: seq<Event>): Memory {
    if t == [] then Memory(None, NoDuty) else Update(Recall(t[..|t| - 1]), t[|t| - 1])
  }

  lemma {:induction false} RecallStep(t: seq<Event>, e: Event)
    ensures Recall(t + [e]) == Update(Recall(t), e)
  {
    assert (t + [e])[..|t|] == t;
  }

  lemma {:induction false} RecallReturns(t: seq<Event>, returns': seq<Event>)
    requires OnlyReturns(returns')
    ensures Recall(t + returns') == Recall(t)
  {
    if returns' == [] {
      assert t + returns' == t;
    } else {
      var init, last := returns'[..|returns'| - 1], returns'[|returns'| - 1];
      RecallReturns(t, init);
      RecallStep(t + init, last);
      assert t + init + [last] == t + returns';
    }
  }

  /** The trace of one send: what the client did, that every poll looked at everything it should,
      each progress check comparing with the one before, and why the send ended as it did. */
  ghost predicate SendTrace(seg: seq<Event>, s: Id, kind: Kind, limits: Limits, result: SendResult) {
    && seg != [] && seg[0].Posted?
    && var call := seg[0].call;
    && seg[0] == Posted(s, kind, call)
    && Recall(seg).duty != Neglected && (!result.GaveUp? ==> Discharged(Recall(seg).duty))
    && match result
       case Replied(r) =>
         && Actions(seg) == [seg[0]] && Calm(seg, s, limits)
         && Finished(call, s, Reply(r)) in seg
       case Error(m) =>
         && (exists ok :: Actions(seg) == [seg[0], Aborted(s, ok)]) && Calm(seg, s, limits)
         && Finished(call, s, Raised(m)) in seg
       case GaveUp(why) =>
         && (exists ok :: Actions(seg) == [seg[0], Aborted(s, ok)])
         && exists i | 0 <= i < |seg| :: CallsFor(seg[i], s, limits) == Some(why) && Calm(seg[..i], s, limits)
  }
}
