/** The polling loop around one POST. */
module QuotaSend {
  import opened Basics
  import opened Chain
  import opened Session

  /** While the loop runs: only the POST has been done, nothing called for giving up, and if the
      worker has returned, its return is in the trace. */
  ghost predicate Polling(seg: seq<Event>, s: Id, kind: Kind, call: Call, limits: Limits,
                          returned: map<Call, Outcome>) {
    && seg != [] && seg[0] == Posted(s, kind, call)
    && Actions(seg) == [seg[0]] && Calm(seg, s, limits) && Recall(seg).duty != Neglected
    && (call in returned ==> Finished(call, s, returned[call]) in seg)
  }

  lemma {:induction false} ReturnsAreCalm(returns': seq<Event>, s: Id, limits: Limits)
    requires OnlyReturns(returns')
    ensures Calm(returns', s, limits)
  {
  }

  lemma {:induction false} CalmConcat(a: seq<Event>, b: seq<Event>, s: Id, limits: Limits)
    requires Calm(a, s, limits) && Calm(b, s, limits)
    ensures Calm(a + b, s, limits)
  {
    hide CallsFor;
    forall i | 0 <= i < |a + b| ensures CallsFor((a + b)[i], s, limits) == None {
      if i < |a| { assert (a + b)[i] == a[i]; } else { assert (a + b)[i] == b[i - |a|]; }
    }
  }

  lemma {:induction false} StartsPolling(s: Id, kind: Kind, call: Call, limits: Limits, before: map<Call, Outcome>,
                                         after: map<Call, Outcome>, owner: map<Call, Id>, returns': seq<Event>)
    requires Moved(before, after, owner, returns') && call !in before && call in owner && owner[call] == s
    ensures Polling([Posted(s, kind, call)] + returns', s, kind, call, limits, after)
    ensures Recall([Posted(s, kind, call)] + returns') == Memory(None, NoDuty)
  {
    var e := Posted(s, kind, call);
    ActionsStep([], e, returns');
    assert [] + [e] == [e];
    ReturnsAreCalm(returns', s, limits);
    CalmConcat([e], returns', s, limits);
    RecallStep([], e);
    RecallReturns([e], returns');
  }

  /** Workers returning leave the loop polling. */
  lemma {:induction false} StillPolling(seg: seq<Event>, s: Id, kind: Kind, call: Call, limits: Limits,
                                        before: map<Call, Outcome>, after: map<Call, Outcome>,
                                        owner: map<Call, Id>, returns': seq<Event>)
    requires Polling(seg, s, kind, call, limits, before) && Moved(before, after, owner, returns')
    requires call in owner && owner[call] == s
    ensures Polling(seg + returns', s, kind, call, limits, after)
    ensures Recall(seg + returns') == Recall(seg)
  {
    ReturnsAreCalm(returns', s, limits);
    RecallReturns(seg, returns');
    ActionsQuiet(seg, returns');
    CalmConcat(seg, returns', s, limits);
    hide Calm, Actions, Recall;
  }

  /** So does an observation that calls for nothing. */
  lemma {:induction false} Observed(seg: seq<Event>, e: Event, s: Id, kind: Kind, call: Call, limits: Limits,
                                    before: map<Call, Outcome>, after: map<Call, Outcome>,
                                    owner: map<Call, Id>, returns': seq<Event>)
    requires Polling(seg, s, kind, call, limits, before) && Moved(before, after, owner, returns')
    requires call in owner && owner[call] == s
    requires !IsAction(e) && CallsFor(e, s, limits) == None
    requires Update(Recall(seg), e).duty != Neglected
    ensures Polling(seg + [e] + returns', s, kind, call, limits, after)
    ensures Recall(seg + [e] + returns') == Update(Recall(seg), e)
  {
    RecallStep(seg, e);
    ActionsStep(seg, e, []);
    assert seg + [e] + [] == seg + [e];
    CalmConcat(seg, [e], s, limits);
    assert Polling(seg + [e], s, kind, call, limits, before) by { hide Calm, Actions, Recall; }
    StillPolling(seg + [e], s, kind, call, limits, before, after, owner, returns');
  }

  lemma {:induction false} StatusCallsFor(s: Id, status: Status, limits: Limits)
    ensures CallsFor(SawStatus(s, status), s, limits) == None
  {
  }

  lemma {:induction false} LogCallsFor(s: Id, lines: seq<LogLine>, limits: Limits)
    ensures CallsFor(SawLog(s, lines), s, limits) ==
            match FirstError(lines, s)
            case None => None
            case Some(line) =>
              match Classify(line.features)
              case None => None
              case Some(c) => Some(ServerLog(line, c))
  {
  }

  lemma {:induction false} ProgressCallsFor(s: Id, previous: Option<Snapshot>, current: Option<Snapshot>,
                                            limits: Limits)
    ensures CallsFor(SawProgress(s, previous, current), s, limits) ==
            if UnproductiveLoop(previous, current, limits.unproductive) then Some(Unproductive) else None
  {
  }

  lemma {:induction false} RetryCallsFor(s: Id, next: int, now: int, limits: Limits)
    ensures CallsFor(SawRetry(s, next, now), s, limits) ==
            if next - now > limits.quotaWait then Some(Quota(next, now)) else None
  {
  }

  /** After the call's return was noticed. */
  lemma {:induction false} AfterReply(seg: seq<Event>, s: Id, kind: Kind, call: Call, limits: Limits,
                                      returned: map<Call, Outcome>, r: Response)
    requires Polling(seg, s, kind, call, limits, returned) && call in returned && returned[call] == Reply(r)
    requires Discharged(Recall(seg).duty)
    ensures SendTrace(seg, s, kind, limits, Replied(r))
  {
  }

  lemma {:induction false} AfterError(seg: seq<Event>, s: Id, kind: Kind, call: Call, limits: Limits,
                                      returned: map<Call, Outcome>, m: string, ok: bool, returns': seq<Event>)
    requires Polling(seg, s, kind, call, limits, returned) && call in returned && returned[call] == Raised(m)
    requires Discharged(Recall(seg).duty)
    requires OnlyReturns(returns')
    ensures SendTrace(seg + [Aborted(s, ok)] + returns', s, kind, limits, Error(m))
  {
    ActionsStep(seg, Aborted(s, ok), returns');
    RecallStep(seg, Aborted(s, ok));
    RecallReturns(seg + [Aborted(s, ok)], returns');
    ReturnsAreCalm(returns', s, limits);
    CalmConcat(seg, [Aborted(s, ok)], s, limits);
    CalmConcat(seg + [Aborted(s, ok)], returns', s, limits);
  }

  lemma {:induction false} AfterGivingUp(seg: seq<Event>, s: Id, kind: Kind, call: Call, limits: Limits,
                                         returned: map<Call, Outcome>, e: Event, why: Bailout, r1: seq<Event>,
                                         ok: bool, r2: seq<Event>, r3: seq<Event>)
    requires Polling(seg, s, kind, call, limits, returned)
    requires !IsAction(e) && CallsFor(e, s, limits) == Some(why)
    requires OnlyReturns(r1) && OnlyReturns(r2) && OnlyReturns(r3)
    requires Update(Recall(seg), e).duty != Neglected
    ensures SendTrace(seg + [e] + r1 + [Aborted(s, ok)] + r2 + r3, s, kind, limits, GaveUp(why))
  {
    var t := seg + [e] + r1;
    ActionsStep(seg, e, r1);
    ActionsStep(t, Aborted(s, ok), r2);
    ActionsQuiet(t + [Aborted(s, ok)] + r2, r3);
    RecallStep(seg, e);
    RecallReturns(seg + [e], r1);
    RecallStep(t, Aborted(s, ok));
    RecallReturns(t + [Aborted(s, ok)], r2);
    RecallReturns(t + [Aborted(s, ok)] + r2, r3);
    hide Actions, CallsFor, Recall;
    var all := t + [Aborted(s, ok)] + r2 + r3;
    assert all[|seg|] == e && all[..|seg|] == seg && all[0] == seg[0];
  }

  /** A poll step's outcome: either the loop goes on polling, or the send is over. */
  ghost predicate Stepped(seg: seq<Event>, s: Id, kind: Kind, call: Call, limits: Limits,
                          returned: map<Call, Outcome>, why: Option<Bailout>) {
    match why
    case None => Polling(seg, s, kind, call, limits, returned)
    case Some(b) => SendTrace(seg, s, kind, limits, GaveUp(b))
  }

  /** Records an observation; when it calls for giving up, makes the one abort attempt and waits once
      more for the worker to unwind. */
  method Observe(world: World, s: Id, kind: Kind, call: Call, limits: Limits, e: Event, why: Option<Bailout>,
                 ghost base: seq<Event>, ghost seg: seq<Event>)
    returns (ghost full: seq<Event>)
    requires world.Valid() && s < world.nextSession && call in world.owner && world.owner[call] == s
    requires Polling(seg, s, kind, call, limits, world.returned) && world.trace == base + seg
    requires !IsAction(e) && IdsBelow(e, world.nextSession, world.nextCall) && CallsFor(e, s, limits) == why
    requires Update(Recall(seg), e).duty != Neglected
    modifies world`trace, world`returned, world`patience
    ensures world.Valid() && world.trace == base + full
    ensures Stepped(full, s, kind, call, limits, world.returned, why)
    ensures why == None ==> Recall(full) == Update(Recall(seg), e)
    ensures world.patience <= old(world.patience)
  {
    hide CallsFor, Actions, Calm, SendTrace, Polling, Recall;
    ghost var was := world.returned;
    var r1 := world.Do(e);
    if why == None {
      Observed(seg, e, s, kind, call, limits, was, world.returned, world.owner, r1);
      full := seg + [e] + r1;
    } else {
      var ok, r2 := world.Abort(s);
      var done, r3 := world.Wait(call);
      AfterGivingUp(seg, s, kind, call, limits, was, e, why.value, r1, ok, r2, r3);
      full := seg + [e] + r1 + [Aborted(s, ok)] + r2 + r3;
    }
  }

  /** What came of the call, once its worker has returned; an error leaves one abort attempt. */
  method Conclude(world: World, s: Id, kind: Kind, call: Call, limits: Limits,
                  ghost base: seq<Event>, ghost seg: seq<Event>)
    returns (result: SendResult, ghost full: seq<Event>)
    requires world.Valid() && s < world.nextSession && call in world.returned
    requires Polling(seg, s, kind, call, limits, world.returned) && world.trace == base + seg
    requires Discharged(Recall(seg).duty)
    modifies world`trace, world`returned
    ensures world.Valid() && world.trace == base + full
    ensures SendTrace(full, s, kind, limits, result)
  {
    hide CallsFor, Actions, Calm, SendTrace, Polling, Recall;
    ghost var was := world.returned;
    full := seg;
    match world.returned[call] {
      case Raised(message) =>
        result := Error(message);
        var ok, r := world.Abort(s);
        AfterError(seg, s, kind, call, limits, was, message, ok, r);
        full := seg + [Aborted(s, ok)] + r;
      case Reply(response) =>
        result := Replied(response);
        AfterReply(seg, s, kind, call, limits, was, response);
    }
  }

  /** One poll: the status, the log, now and then the progress, and an announced retry; stops at the first
      observation that calls for giving up. */
  method Poll(world: World, s: Id, kind: Kind, call: Call, limits: Limits, lastSnapshot: Option<Snapshot>,
              ghost base: seq<Event>, ghost seg: seq<Event>)
    returns (why: Option<Bailout>, snapshot: Option<Snapshot>, ghost full: seq<Event>)
    requires world.Valid() && s < world.nextSession && call in world.owner && world.owner[call] == s
    requires Polling(seg, s, kind, call, limits, world.returned) && world.trace == base + seg
    requires lastSnapshot == Recall(seg).snapshot && Discharged(Recall(seg).duty)
    modifies world`trace, world`returned, world`patience
    ensures world.Valid() && world.trace == base + full && world.patience <= old(world.patience)
    ensures Stepped(full, s, kind, call, limits, world.returned, why)
    ensures why == None ==> snapshot == Recall(full).snapshot && Discharged(Recall(full).duty)
  {
    hide Polling, SendTrace, CallsFor, Recall, FirstError, Classify, UnproductiveLoop;
    why, snapshot := None, lastSnapshot;
    var status: Status := *;
    StatusCallsFor(s, status, limits);
    full := Observe(world, s, kind, call, limits, SawStatus(s, status), None, base, seg);
    if status == Unavailable {
      return;
    }

    var lines: seq<LogLine> := *;
    LogCallsFor(s, lines, limits);
    var line := FirstError(lines, s);
    var class_ := if line == None then None else Classify(line.value.features);
    why := if class_ == None then None else Some(ServerLog(line.value, class_.value));
    full := Observe(world, s, kind, call, limits, SawLog(s, lines), why, base, full);
    if why.Some? {
      return;
    }

    var due: bool := *;
    if due {
      var current: Option<Snapshot> := *;
      ProgressCallsFor(s, lastSnapshot, current, limits);
      why := if UnproductiveLoop(lastSnapshot, current, limits.unproductive) then Some(Unproductive) else None;
      full := Observe(world, s, kind, call, limits, SawProgress(s, lastSnapshot, current), why, base, full);
      if why.Some? {
        return;
      }
      snapshot := current;
    }

    if status.Retry? && status.next.Some? {
      var next, now: int := status.next.value, *;
      RetryCallsFor(s, next, now, limits);
      why := if next - now > limits.quotaWait then Some(Quota(next, now)) else None;
      full := Observe(world, s, kind, call, limits, SawRetry(s, next, now), why, base, full);
    }
  }

  /** Sends a message and waits for its answer, polling; gives up early on a server error that is
      never retried, on a loop of empty turns, or on a wait beyond the limit.  Every send ends in
      exactly one of a reply, an error and a bailout; a reply leaves the session alone, the others
      attempt one abort; and a bailout is the response to the first observation that calls for one. */
  method QuotaAwareSendMessage(world: World, s: Id, kind: Kind, limits: Limits)
    returns (result: SendResult, ghost seg: seq<Event>)
    requires world.Valid() && s < world.nextSession
    modifies world
    ensures world.Valid() && world.nextSession == old(world.nextSession)
    ensures world.trace == old(world.trace) + seg && SendTrace(seg, s, kind, limits, result)
  {
    hide Polling, SendTrace, Recall, Moved;
    ghost var base, was := world.trace, world.returned;
    var call, r := world.Post(s, kind);
    seg := [Posted(s, kind, call)] + r;
    StartsPolling(s, kind, call, limits, was, world.returned, world.owner, r);
    var lastSnapshot: Option<Snapshot> := None;
    while true
      invariant world.Valid() && world.nextSession == old(world.nextSession)
      invariant world.trace == base + seg
      invariant Polling(seg, s, kind, call, limits, world.returned)
      invariant lastSnapshot == Recall(seg).snapshot && Discharged(Recall(seg).duty)
      invariant call in world.owner && world.owner[call] == s
      decreases world.patience
    {
      was := world.returned;
      var done;
      done, r := world.Wait(call);
      StillPolling(seg, s, kind, call, limits, was, world.returned, world.owner, r);
      seg := seg + r;
      if done {
        break;
      }
      var why;
      why, lastSnapshot, seg := Poll(world, s, kind, call, limits, lastSnapshot, base, seg);
      if why.Some? {
        return GaveUp(why.value), seg;
      }
    }
    result, seg := Conclude(world, s, kind, call, limits, base, seg);
  }

  // ---- When a session is left alone ---------------------------------------------------------------

  /** Every ERROR line either belongs to other sessions or is of a class the server retries. */
  predicate BenignLog(lines: seq<LogLine>, s: Id) {
    forall i | 0 <= i < |lines| :: ErrorOf(lines[i], s) ==> Retryable(lines[i].features)
  }

  predicate Benign(e: Event, s: Id, limits: Limits) {
    match e
    case SawLog(_, lines) => BenignLog(lines, s)
    case SawRetry(_, next, now) => next - now <= limits.quotaWait
    case _ => true
  }

  /** A session whose ERROR lines are all retryable or about others, and whose waits stay within the
      limit, is never given up for those reasons, however the send ends. */
  lemma {:induction false} BenignNeverAborted(seg: seq<Event>, s: Id, kind: Kind, limits: Limits, result: SendResult)
    requires SendTrace(seg, s, kind, limits, result)
    requires forall i | 0 <= i < |seg| :: Benign(seg[i], s, limits)
    ensures result.GaveUp? ==> result.why == Unproductive
  {
    if result.GaveUp? {
      var i :| 0 <= i < |seg| && CallsFor(seg[i], s, limits) == Some(result.why);
      assert Benign(seg[i], s, limits);
      if seg[i].SawLog? {
        var lines := seg[i].lines;
        FirstErrorMeaning(lines, s);
        if FirstError(lines, s).Some? {
          ClassifyMeaning(FirstError(lines, s).value.features);
        }
      }
    }
  }

  /** The snapshots come from the session's own chain, which only grows: chains[i] is the chain when
      event i was seen. */
  ghost predicate SnapshotsOf(chains: seq<seq<Message>>, seg: seq<Event>) {
    && |chains| == |seg|
    && (forall i, j | 0 <= i <= j < |seg| :: Grows(chains[i], chains[j]))
    && forall i | 0 <= i < |seg| && seg[i].SawProgress? && seg[i].current.Some? ::
         chains[i] != [] && seg[i].current == Some(Counted(chains[i]))
  }

  /** A poll that neglects nothing compares each progress check with the one remembered. */
  lemma {:induction false} NeverNeglected(seg: seq<Event>, i: nat)
    requires i < |seg| && Recall(seg).duty != Neglected
    ensures Recall(seg[..i]).duty != Neglected
    ensures seg[i].SawProgress? ==> seg[i].previous == Recall(seg[..i]).snapshot
  {
    var n := |seg| - 1;
    if i < n {
      NeverNeglected(seg[..n], i);
      assert seg[..n][..i] == seg[..i];
    }
  }

  /** What is remembered is the last progress check. */
  lemma {:induction false} RememberedCheck(seg: seq<Event>)
    requires Recall(seg).snapshot.Some?
    ensures exists k | 0 <= k < |seg| :: LastCheck(seg, k) && seg[k].current == Recall(seg).snapshot
  {
    var n := |seg| - 1;
    if seg[n].SawProgress? {
      assert LastCheck(seg, n);
    } else {
      RememberedCheck(seg[..n]);
      var k :| 0 <= k < n && LastCheck(seg[..n], k) && seg[..n][k].current == Recall(seg[..n]).snapshot;
      assert LastCheck(seg, k);
    }
  }

  ghost predicate LastCheck(seg: seq<Event>, k: nat) {
    k < |seg| && seg[k].SawProgress? && forall j | k < j < |seg| :: !seg[j].SawProgress?
  }

  /** A session whose ERROR lines and waits are benign is given up only if, from one progress check to
      the next, its chain gained messages that all carry nothing, and nothing else. */
  lemma {:induction false} BenignOnlyEmptyTurns(seg: seq<Event>, s: Id, kind: Kind, limits: Limits, result: SendResult,
                                                chains: seq<seq<Message>>)
    requires SendTrace(seg, s, kind, limits, result) && SnapshotsOf(chains, seg) && result.GaveUp?
    requires forall i | 0 <= i < |seg| :: Benign(seg[i], s, limits)
    ensures exists k, i | 0 <= k < i < |seg| ::
              LastCheck(seg[..i], k) && seg[i].SawProgress? && OnlyEmptyTurns(chains[k], chains[i], limits.unproductive)
  {
    BenignNeverAborted(seg, s, kind, limits, result);
    var i :| 0 <= i < |seg| && CallsFor(seg[i], s, limits) == Some(result.why);
    hide Calm, Actions, SendTrace, Benign, FirstError, Classify, OnlyEmptyTurns, Grows, Counted;
    Unproductively(seg[i], s, limits);
    assert Recall(seg).duty != Neglected by { NoNeglect(seg, s, kind, limits, result); }
    NeverNeglected(seg, i);
    RememberedCheck(seg[..i]);
    var k :| 0 <= k < i && LastCheck(seg[..i], k) && seg[..i][k].current == Recall(seg[..i]).snapshot;
    assert seg[..i][k] == seg[k];
    UnproductiveMeaning(chains[k], chains[i], limits.unproductive);
  }

  lemma {:induction false} NoNeglect(seg: seq<Event>, s: Id, kind: Kind, limits: Limits, result: SendResult)
    requires SendTrace(seg, s, kind, limits, result)
    ensures Recall(seg).duty != Neglected
  {
  }

  lemma {:induction false} Unproductively(e: Event, s: Id, limits: Limits)
    requires CallsFor(e, s, limits) == Some(Unproductive)
    ensures e.SawProgress? && UnproductiveLoop(e.previous, e.current, limits.unproductive)
    ensures e.previous.Some? && e.current.Some?
  {
  }

  /** Only the first ERROR line is classified: an earlier retryable one hides what follows it. */
  lemma {:induction false} FirstErrorDecides(lines: seq<LogLine>, later: seq<LogLine>, s: Id, limits: Limits)
    requires FirstError(lines, s).Some? && Retryable(FirstError(lines, s).value.features)
    ensures CallsFor(SawLog(s, lines + later), s, limits) == None
  {
    FirstErrorOf(lines, later, s);
    ClassifyMeaning(FirstError(lines, s).value.features);
  }

  /** Exactly when a log calls for nothing. */
  lemma {:induction false} LogCallsForNothing(lines: seq<LogLine>, s: Id, limits: Limits)
    ensures CallsFor(SawLog(s, lines), s, limits) == None <==>
              match FirstError(lines, s) case None => true case Some(line) => Retryable(line.features)
  {
    if FirstError(lines, s).Some? { ClassifyMeaning(FirstError(lines, s).value.features); }
  }

  /** A rate limit in front of a context overflow: only the overflow would be acted on, and it is not
      looked at. */
  lemma {:induction false} OverflowHidden(s: Id, limits: Limits)
    ensures var limited := LogLine({s}, true, Features(false, true, None, false, false, false));
            var overflow := LogLine({s}, true, Features(true, false, None, false, false, false));
            && CallsFor(SawLog(s, [overflow]), s, limits).Some?
            && CallsFor(SawLog(s, [limited, overflow]), s, limits) == None
  {
    var limited := LogLine({s}, true, Features(false, true, None, false, false, false));
    var overflow := LogLine({s}, true, Features(true, false, None, false, false, false));
    LogCallsForNothing([overflow], s, limits);
    LogCallsForNothing([limited, overflow], s, limits);
  }

  lemma {:induction false} FirstErrorOf(lines: seq<LogLine>, later: seq<LogLine>, s: Id)
    requires FirstError(lines, s).Some?
    ensures FirstError(lines + later, s) == FirstError(lines, s)
  {
    if !ErrorOf(lines[0], s) {
      FirstErrorOf(lines[1..], later, s);
      assert (lines + later)[1..] == lines[1..] + later;
    }
  }
}
