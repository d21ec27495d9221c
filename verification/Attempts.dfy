/** One attempt at a tier: a session of its own, a setup message, a probe, and an abort. */
module Attempts {
  import opened Basics
  import opened Session
  import opened QuotaSend
  import opened Safety

  // ---- The shape of an attempt --------------------------------------------------------------------

  lemma {:induction false} ActionsMembers(t: seq<Event>)
    ensures forall e :: e in Actions(t) <==> e in t && IsAction(e)
  {
    if t != [] {
      var init, last := t[..|t| - 1], t[|t| - 1];
      ActionsMembers(init);
      assert t == init + [last];
    }
  }

  /** The abort attempt behind a POST, if there was one. */
  lemma {:induction false} ActionsBehind(head: Event, rest: seq<Event>)
    requires IsAction(head)
    ensures Actions([head] + rest) == [head] + Actions(rest)
    ensures forall e :: e in rest && IsAction(e) ==> e in Actions(rest)
    ensures forall e :: e in Actions(rest) ==> e in rest
  {
    ActionsConcat([head], rest);
    assert [head][..0] == [];
    assert Actions([head]) == [head];
    ActionsMembers(rest);
  }

  lemma {:induction false} TriedIn(seg: seq<Event>, s: Id, ok: bool)
    requires seg != [] && Aborted(s, ok) in seg[1..]
    ensures AbortTried(seg, s, 0, |seg|)
  {
    var k :| 0 <= k < |seg[1..]| && seg[1..][k] == Aborted(s, ok);
    assert seg[k + 1] == Aborted(s, ok);
  }

  /** A send posts once, at its start, and creates nothing. */
  lemma {:induction false} SendPostsOnce(seg: seq<Event>, s: Id, kind: Kind, limits: Limits, result: SendResult)
    requires SendTrace(seg, s, kind, limits, result)
    ensures forall i | 0 < i < |seg| :: !seg[i].Posted?
    ensures forall i | 0 <= i < |seg| :: !seg[i].Created?
    ensures !result.Replied? ==> AbortTried(seg, s, 0, |seg|)
    ensures result.Replied? ==> Answered(seg, seg[0].call, s, 0, |seg|)
  {
    var ok := SendActions(seg, s, kind, limits, result);
    hide SendTrace, Actions, CallsFor, AbortTried, Answered;
    var aborts := if result.Replied? then [] else [Aborted(s, ok)];
    assert Actions(seg) == [Posted(s, kind, seg[0].call)] + aborts;
    OnlyFirstPosts(seg, aborts);
    if result.Replied? {
      RepliedIn(seg, seg[0].call, s, result.response);
    } else {
      assert aborts[0] == Aborted(s, ok);
      TriedIn(seg, s, ok);
    }
  }

  lemma {:induction false} OnlyFirstPosts(seg: seq<Event>, aborts: seq<Event>)
    requires seg != [] && seg[0].Posted? && forall i | 0 <= i < |aborts| :: aborts[i].Aborted?
    requires |Actions(seg)| > 0 && Actions(seg)[1..] == aborts
    ensures forall i | 0 < i < |seg| :: !seg[i].Posted? && !seg[i].Created?
    ensures forall i | 0 <= i < |aborts| :: aborts[i] in seg[1..]
  {
    var head, rest := seg[0], seg[1..];
    assert seg == [head] + rest;
    ActionsBehind(head, rest);
    hide Actions;
    assert Actions(rest) == aborts;
    forall i | 0 < i < |seg| ensures !seg[i].Posted? && !seg[i].Created? {
      assert seg[i] == rest[i - 1] && rest[i - 1] in rest;
      assert IsAction(seg[i]) ==> seg[i] in aborts;
    }
    assert forall i | 0 <= i < |aborts| :: aborts[i] in aborts;
  }

  lemma {:induction false} RepliedIn(seg: seq<Event>, c: Call, s: Id, r: Response)
    requires seg != [] && !seg[0].Finished? && Finished(c, s, Reply(r)) in seg
    ensures Answered(seg, c, s, 0, |seg|)
  {
    var k :| 0 <= k < |seg| && seg[k] == Finished(c, s, Reply(r));
  }

  lemma {:induction false} ShapeStart(s: Id, returns': seq<Event>)
    requires OnlyReturns(returns')
    ensures var seg := [Created(s)] + returns'; Shape(seg, s) && forall i | 0 <= i < |seg| :: !seg[i].Posted?
  {
  }

  lemma {:induction false} ShapeSetup(seg: seq<Event>, a: seq<Event>, s: Id, limits: Limits, result: SendResult)
    requires Shape(seg, s) && (forall i | 0 <= i < |seg| :: !seg[i].Posted?)
    requires SendTrace(a, s, Setup, limits, result)
    ensures Shape(seg + a, s)
    ensures result.Replied? ==> OnlySetup(seg + a, s, |seg|)
    ensures !result.Replied? ==> GoodAttempt(seg + a, s)
  {
    SendPostsOnce(a, s, Setup, limits, result);
    assert a[0].kind == Setup && a[0].session == s;
    hide SendTrace, SetUp;
    var t, n := seg + a, |seg|;
    assert t[n] == a[0];
    assert forall i | 0 <= i < |t| :: t[i] == if i < n then seg[i] else a[i - n];
    assert forall i | 0 <= i < |t| && t[i].Posted? :: i == n;
    AnsweredShift(seg, a, a[0].call, s, 0, |a|);
    AbortShift(seg, a, s, 0, |a|);
    if AbortTried(a, s, 0, |a|) { AbortWiden(t, s, n, |t|); }
  }

  lemma {:induction false} AbortWiden(t: seq<Event>, s: Id, lo: nat, hi: nat)
    requires AbortTried(t, s, lo, hi)
    ensures AbortTried(t, s, 0, hi)
  {
  }

  lemma {:induction false} ShapeProbe(seg: seq<Event>, b: seq<Event>, s: Id, i: nat, limits: Limits, result: SendResult)
    requires Shape(seg, s) && OnlySetup(seg, s, i)
    requires SendTrace(b, s, Probe, limits, result)
    ensures Shape(seg + b, s)
    ensures !result.Replied? ==> GoodAttempt(seg + b, s)
  {
    SendPostsOnce(b, s, Probe, limits, result);
    assert b[0].session == s;
    hide SendTrace;
    var t, n := seg + b, |seg|;
    assert t[n] == b[0] && t[i] == seg[i];
    assert forall k | 0 <= k < |t| :: t[k] == if k < n then seg[k] else b[k - n];
    assert forall k | 0 <= k < |t| && t[k].Posted? :: k == i || k == n;
    AnsweredShift(seg, b, seg[i].call, s, i, n);
    assert SetUp(t, n);
    AbortShift(seg, b, s, 0, |b|);
    if AbortTried(b, s, 0, |b|) { AbortWiden(t, s, n, |t|); }
  }

  lemma {:induction false} ShapeTail(seg: seq<Event>, s: Id, ok: bool, returns': seq<Event>)
    requires Shape(seg, s) && OnlyReturns(returns')
    ensures GoodAttempt(seg + [Aborted(s, ok)] + returns', s)
  {
    var tail := [Aborted(s, ok)] + returns';
    var t := seg + tail;
    assert t == seg + [Aborted(s, ok)] + returns';
    assert t[|seg|] == Aborted(s, ok);
    assert forall k | 0 <= k < |t| :: t[k] == if k < |seg| then seg[k] else tail[k - |seg|];
    forall i, j | 0 <= i < j < |t| && t[i].Posted? && t[j].Posted? && t[i].session == t[j].session
      ensures Answered(t, t[i].call, t[i].session, i, j)
    {
      AnsweredShift(seg, tail, t[i].call, t[i].session, i, j);
    }
    assert ProbesSetUp(tail);
    ProbesExtend(seg, tail);
  }

  // ---- The attempt --------------------------------------------------------------------------------

  /** `BothAnswered`: both messages got a reply without an error in it. */
  datatype Attempted = BothAnswered(setup: Response, probe: Response) | Stopped(why: Bailout) | Failed(message: string)

  /** The actions of an attempt that got a session: it sends the setup message and perhaps the probe,
      then aborts, twice when the send had already done so before it raised an error. */
  ghost predicate Steps(seg: seq<Event>, s: Id, probed: bool, aborts: nat) {
    exists c, d, ok, ok2 :: Actions(seg) == StepList(s, c, d, ok, ok2, probed, aborts)
  }

  function StepList(s: Id, c: Call, d: Call, ok: bool, ok2: bool, probed: bool, aborts: nat): seq<Event> {
    [Created(s), Posted(s, Setup, c)] + (if probed then [Posted(s, Probe, d)] else []) +
    (if aborts == 1 then [Aborted(s, ok)] else [Aborted(s, ok), Aborted(s, ok2)])
  }

  /** The attempt's sends account for its result. */
  ghost predicate AttemptTrace(seg: seq<Event>, s: Id, limits: Limits, result: Attempted) {
    match result
    case BothAnswered(x, y) =>
      && GoodAttempt(seg, s) && x.error == None && y.error == None
      && exists c, d, ok :: Actions(seg) == StepList(s, c, d, ok, ok, true, 1) &&
           Finished(c, s, Reply(x)) in seg && Finished(d, s, Reply(y)) in seg
    case Stopped(why) =>
      && GoodAttempt(seg, s) && (Steps(seg, s, false, 1) || Steps(seg, s, true, 1))
      && exists i | 0 <= i < |seg| :: CallsFor(seg[i], s, limits) == Some(why)
    case Failed(m) =>
      || (NoSession(seg) && Actions(seg) == [CreateFailed(m)])
      || (GoodAttempt(seg, s) && exists probed :: FailedSend(seg, s, m, probed))
  }

  /** A send raised the error, or got a reply that contains it. */
  ghost predicate FailedSend(seg: seq<Event>, s: Id, m: string, probed: bool) {
    || (Steps(seg, s, probed, 2) && exists c :: Finished(c, s, Raised(m)) in seg)
    || (Steps(seg, s, probed, 1) && exists c, x: Response :: x.error == Some(m) && Finished(c, s, Reply(x)) in seg)
  }

  /** What one send contributes. */
  lemma {:induction false} SendActions(a: seq<Event>, s: Id, kind: Kind, limits: Limits, r: SendResult)
    returns (ok: bool)
    requires SendTrace(a, s, kind, limits, r)
    ensures a != [] && a[0].Posted?
    ensures Actions(a) ==
            if r.Replied? then [Posted(s, kind, a[0].call)] else [Posted(s, kind, a[0].call), Aborted(s, ok)]
    ensures r.Replied? ==> Finished(a[0].call, s, Reply(r.response)) in a
    ensures r.Error? ==> Finished(a[0].call, s, Raised(r.message)) in a
    ensures r.GaveUp? ==> exists i | 0 <= i < |a| :: CallsFor(a[i], s, limits) == Some(r.why)
  {
    hide Actions, Calm, Recall, CallsFor;
    if r.Replied? {
      ok := true;
    } else {
      ok :| Actions(a) == [a[0], Aborted(s, ok)];
    }
  }

  lemma {:induction false} ActionsOfOne(e: Event, r: seq<Event>)
    requires OnlyReturns(r) && IsAction(e)
    ensures Actions([e] + r) == [e]
  {
    ActionsStep([], e, r);
    assert [] + [e] == [e];
  }

  lemma {:induction false} StoppedBecause(seg: seq<Event>, a: seq<Event>, s: Id, limits: Limits, why: Bailout,
                                          c: Call, d: Call, ok: bool, probed: bool)
    requires exists i | 0 <= i < |a| :: CallsFor(a[i], s, limits) == Some(why)
    requires GoodAttempt(seg + a, s) && Actions(seg + a) == StepList(s, c, d, ok, ok, probed, 1)
    ensures AttemptTrace(seg + a, s, limits, Stopped(why))
  {
    hide GoodAttempt, StepList, Actions, CallsFor;
    var i :| 0 <= i < |a| && CallsFor(a[i], s, limits) == Some(why);
    assert (seg + a)[|seg| + i] == a[i];
    assert Steps(seg + a, s, probed, 1);
  }

  /** The message of an error or of a reply that contains one. */
  function Problem(r: SendResult): Option<string> {
    match r
    case Replied(response) => response.error
    case Error(message) => Some(message)
    case GaveUp(_) => None
  }

  /** The end of an attempt whose send went wrong and which the category then closed. */
  lemma {:induction false} FailedBecause(seg: seq<Event>, a: seq<Event>, s: Id, limits: Limits, r: SendResult,
                                         c: Call, d: Call, ok: bool, last: bool, tail: seq<Event>, probed: bool)
    requires !r.GaveUp? && Problem(r).Some? && GoodAttempt(seg + a + [Aborted(s, last)] + tail, s)
    requires a != [] && a[0].Posted?
    requires r.Replied? ==> Finished(a[0].call, s, Reply(r.response)) in a
    requires r.Error? ==> Finished(a[0].call, s, Raised(r.message)) in a
    requires OnlyReturns(tail)
    requires Actions(seg + a) ==
             [Created(s), Posted(s, Setup, c)] + (if probed then [Posted(s, Probe, d)] else []) +
             (if r.Replied? then [] else [Aborted(s, ok)])
    ensures AttemptTrace(seg + a + [Aborted(s, last)] + tail, s, limits, Failed(Problem(r).value))
  {
    ActionsStep(seg + a, Aborted(s, last), tail);
    hide GoodAttempt, Actions;
    var t, m := seg + a + [Aborted(s, last)] + tail, Problem(r).value;
    if r.Replied? {
      assert Actions(t) == StepList(s, c, d, last, last, probed, 1);
      assert Finished(a[0].call, s, Reply(r.response)) in t;
    } else {
      assert Actions(t) == StepList(s, c, d, ok, last, probed, 2);
      assert Finished(a[0].call, s, Raised(m)) in t;
    }
    assert FailedSend(t, s, m, probed);
  }

  lemma {:induction false} AnsweredBoth(start: seq<Event>, a: seq<Event>, b: seq<Event>, s: Id, limits: Limits,
                                        ok: bool, tail: seq<Event>, x: Response, y: Response)
    requires x.error == None && y.error == None
    requires a != [] && a[0].Posted? && b != [] && b[0].Posted? && OnlyReturns(tail)
    requires Finished(a[0].call, s, Reply(x)) in a && Finished(b[0].call, s, Reply(y)) in b
    requires Actions(start + a + b) == [Created(s), Posted(s, Setup, a[0].call), Posted(s, Probe, b[0].call)]
    requires GoodAttempt(start + a + b + [Aborted(s, ok)] + tail, s)
    ensures AttemptTrace(start + a + b + [Aborted(s, ok)] + tail, s, limits, BothAnswered(x, y))
  {
    var t, c, d := start + a + b + [Aborted(s, ok)] + tail, a[0].call, b[0].call;
    ActionsStep(start + a + b, Aborted(s, ok), tail);
    hide GoodAttempt, Actions;
    assert Actions(t) == StepList(s, c, d, ok, ok, true, 1);
    assert Finished(c, s, Reply(x)) in t && Finished(d, s, Reply(y)) in t;
  }

  /** The best-effort abort with which the category closes a session itself. */
  method CloseSession(world: World, s: Id, ghost base: seq<Event>, ghost seg: seq<Event>)
    returns (ghost full: seq<Event>, ghost ok: bool, ghost r: seq<Event>)
    requires world.Valid() && s < world.nextSession && Shape(seg, s) && world.trace == base + seg
    modifies world`trace, world`returned
    ensures world.Valid() && world.trace == base + full && GoodAttempt(full, s)
    ensures full == seg + [Aborted(s, ok)] + r && OnlyReturns(r)
  {
    hide Shape, GoodAttempt;
    var worked, more := world.Abort(s);
    ShapeTail(seg, s, worked, more);
    ok, r := worked, more;
    full := seg + [Aborted(s, ok)] + r;
  }

  method Attempt(world: World, limits: Limits) returns (result: Attempted, ghost seg: seq<Event>)
    requires world.Valid()
    modifies world
    ensures world.Valid() && world.nextSession >= old(world.nextSession)
    ensures result.BothAnswered? ==> world.nextSession > old(world.nextSession)
    ensures world.trace == old(world.trace) + seg
    ensures AttemptTrace(seg, old(world.nextSession), limits, result)
  {
    hide AttemptTrace, Shape, GoodAttempt, SendTrace, OnlySetup, Actions, CallsFor, OnlyReturns, IdsBelow;
    ghost var base := world.trace;
    var session, message, r0 := world.CreateSession();
    if session == None {
      seg := [CreateFailed(message)] + r0;
      NotCreated(message, r0, old(world.nextSession), limits);
      return Failed(message), seg;
    }
    var s := session.value;
    ghost var start := [Created(s)] + r0;
    ShapeStart(s, r0);
    ActionsOfOne(Created(s), r0);

    var setup, a := QuotaAwareSendMessage(world, s, Setup, limits);
    ShapeSetup(start, a, s, limits, setup);
    ghost var aborted := SendActions(a, s, Setup, limits, setup);
    ActionsConcat(start, a);
    seg := start + a;
    assert world.trace == base + seg;
    if setup.GaveUp? {
      StoppedBecause(start, a, s, limits, setup.why, a[0].call, 0, aborted, false);
      return Stopped(setup.why), seg;
    }
    var problem := Problem(setup);
    if problem.Some? {
      ghost var ok, r;
      seg, ok, r := CloseSession(world, s, base, seg);
      FailedBecause(start, a, s, limits, setup, a[0].call, 0, aborted, ok, r, false);
      return Failed(problem.value), seg;
    }

    result, seg := SendProbe(world, s, limits, base, start, a, setup.response);
  }

  /** The second half of an attempt, once the setup message was answered: the probe, and the abort. */
  method SendProbe(world: World, s: Id, limits: Limits, ghost base: seq<Event>, ghost start: seq<Event>,
                   ghost a: seq<Event>, setup: Response)
    returns (result: Attempted, ghost seg: seq<Event>)
    requires world.Valid() && s < world.nextSession && world.trace == base + (start + a)
    requires Shape(start + a, s) && OnlySetup(start + a, s, |start|)
    requires a != [] && a[0].Posted? && Finished(a[0].call, s, Reply(setup)) in a && setup.error == None
    requires Actions(start + a) == [Created(s), Posted(s, Setup, a[0].call)]
    modifies world
    ensures world.Valid() && world.nextSession >= old(world.nextSession)
    ensures world.trace == base + seg && AttemptTrace(seg, s, limits, result)
  {
    hide AttemptTrace, Shape, GoodAttempt, SendTrace, OnlySetup, Actions, CallsFor, OnlyReturns, IdsBelow;
    seg := start + a;
    var probe, b := QuotaAwareSendMessage(world, s, Probe, limits);
    ShapeProbe(seg, b, s, |start|, limits, probe);
    ghost var aborted := SendActions(b, s, Probe, limits, probe);
    ActionsConcat(seg, b);
    seg := seg + b;
    assert world.trace == base + seg;
    if probe.GaveUp? {
      StoppedBecause(start + a, b, s, limits, probe.why, a[0].call, b[0].call, aborted, true);
      return Stopped(probe.why), seg;
    }
    ghost var ok, r;
    seg, ok, r := CloseSession(world, s, base, seg);
    var problem := Problem(probe);
    if problem.Some? {
      FailedBecause(start + a, b, s, limits, probe, a[0].call, b[0].call, aborted, ok, r, true);
      return Failed(problem.value), seg;
    }
    AnsweredBoth(start, a, b, s, limits, ok, r, setup, probe.response);
    return BothAnswered(setup, probe.response), seg;
  }

  lemma {:induction false} NotCreated(m: string, returns': seq<Event>, s: Id, limits: Limits)
    requires OnlyReturns(returns')
    ensures AttemptTrace([CreateFailed(m)] + returns', s, limits, Failed(m))
  {
    ActionsOfOne(CreateFailed(m), returns');
  }
}
