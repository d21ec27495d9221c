/** Waiting for a server to come up: the three-state wait of the end-to-end probe.

    Time is counted in microseconds.  What a probe answers, and how long it takes, is up to the
    environment, within the probe's own timeout.
  */
module ServerWait {
  import opened Basics

  function Seconds(n: int): int { 1_000_000 * n }

  const SWEEP_TIMEOUT_S := 5
  const BIND_POLL_INTERVAL_S := 2

  /** The longest a call may take: the deadline, one last sweep, and one poll interval. */
  function Budget(readyTimeoutS: int, candidates: nat): int {
    Seconds(Max(readyTimeoutS, 0) + 5 * candidates + 2)
  }

  datatype State = Up | Absent | Slow

  datatype Answer = Answer(url: string, state: State)

  /** The clock and the network, with a log of every probe and its answer. */
  class Host {
    var now: int
    var log: seq<Answer>

    constructor (start: int)
      ensures now == start && log == []
    {
      now, log := start, [];
    }

    method Probe(url: string, timeoutS: int) returns (state: State)
      requires timeoutS > 0
      modifies this
      ensures old(now) < now <= old(now) + Seconds(timeoutS)
      ensures log == old(log) + [Answer(url, state)]
    {
      state := *;
      var elapsed :| 0 < elapsed <= Seconds(timeoutS);
      now := now + elapsed;
      log := log + [Answer(url, state)];
    }

    method Sleep(seconds: nat)
      modifies `now
      ensures now == old(now) + Seconds(seconds)
    {
      now := now + Seconds(seconds);
    }
  }

  function StripSlashes(url: string): string {
    if url != "" && url[|url| - 1] == '/' then StripSlashes(url[..|url| - 1]) else url
  }

  predicate AnyUp(log: seq<Answer>) { exists k | 0 <= k < |log| :: log[k].state == Up }
  predicate AnySlow(log: seq<Answer>) { exists k | 0 <= k < |log| :: log[k].state == Slow }

  /** Once a candidate answered slowly, no other candidate is probed. */
  ghost predicate SticksToSlow(log: seq<Answer>) {
    forall i, j :: 0 <= i < j < |log| && log[i].state == Slow ==> log[j].url == log[i].url
  }

  /** Every sweep asks the candidates in order, until one is slow. */
  ghost predicate SweepsInOrder(log: seq<Answer>, candidates: seq<string>) {
    candidates != [] ==>
      forall i | 0 <= i < |log| ::
        log[i].url == candidates[i % |candidates|] || exists j | 0 <= j < i :: log[j].state == Slow
  }

  lemma {:induction false} PositionInSweep(sweeps: nat, count: nat, i: nat)
    requires i < count
    ensures (sweeps * count + i) % count == i
  {
    DivideUnique(sweeps * count + i, count, sweeps, i);
  }

  /** Nothing has answered yet, and the questions were asked in order. */
  ghost predicate Quiet(log: seq<Answer>, candidates: seq<string>) {
    && !AnyUp(log) && !AnySlow(log)
    && SweepsInOrder(log, candidates) && SticksToSlow(log)
    && forall i | 0 <= i < |log| :: log[i].url in candidates
  }

  /** Candidate `url` has answered slowly, and only it has been asked since. */
  ghost predicate Awaiting(log: seq<Answer>, url: string, candidates: seq<string>) {
    && !AnyUp(log) && AnySlow(log) && log[|log| - 1].url == url
    && SweepsInOrder(log, candidates) && SticksToSlow(log)
    && forall i | 0 <= i < |log| :: log[i].url in candidates
  }

  /** A call may end with the log `asked` and the answer `url`. */
  ghost predicate Settled(asked: seq<Answer>, url: string, candidates: seq<string>) {
    // honest: the answer is the candidate whose last probe said up, and nothing is asked after that
    && (if AnyUp(asked)
        then asked[|asked| - 1].state == Up && url == StripSlashes(asked[|asked| - 1].url) &&
             !AnyUp(asked[..|asked| - 1])
        else url == "")
    && SweepsInOrder(asked, candidates) && SticksToSlow(asked)
    && forall i | 0 <= i < |asked| :: asked[i].url in candidates
  }

  function Max(a: int, b: int): int { if a < b then b else a }

  lemma {:induction false} Asked(prior: seq<Answer>, url: string, state: State, candidates: seq<string>)
    requires Quiet(prior, candidates) && url in candidates
    requires url == candidates[|prior| % |candidates|]
    ensures var asked := prior + [Answer(url, state)];
            match state
            case Up => AnyUp(asked) && Settled(asked, StripSlashes(url), candidates)
            case Slow => Awaiting(asked, url, candidates)
            case Absent => Quiet(asked, candidates)
  {
    var asked := prior + [Answer(url, state)];
    assert asked[|prior|] == Answer(url, state) && asked[..|prior|] == prior;
  }

  lemma {:induction false} AskedAgain(prior: seq<Answer>, url: string, state: State, candidates: seq<string>)
    requires Awaiting(prior, url, candidates) && url in candidates
    ensures var asked := prior + [Answer(url, state)];
            if state == Up then AnyUp(asked) && Settled(asked, StripSlashes(url), candidates)
            else Awaiting(asked, url, candidates)
  {
    var asked, n := prior + [Answer(url, state)], |prior|;
    assert asked[n] == Answer(url, state) && asked[..n] == prior;
    var k :| 0 <= k < n && prior[k].state == Slow;
    assert asked[k].state == Slow;
    forall i, j | 0 <= i < j < |asked| && asked[i].state == Slow
      ensures asked[j].url == asked[i].url
    {
      assert i < n - 1 ==> prior[n - 1].url == prior[i].url;
    }
  }

  /** Waits on one slow candidate until the deadline. */
  method AwaitReady(host: Host, candidate: string, deadline: int, ghost prior: seq<Answer>,
                    ghost candidates: seq<string>)
    returns (url: string, ghost asked: seq<Answer>)
    requires Awaiting(prior, candidate, candidates) && candidate in candidates
    modifies host
    ensures host.log == old(host.log) + asked
    ensures Settled(prior + asked, url, candidates) && AnySlow(prior + asked)
    ensures !AnyUp(prior + asked) ==> host.now >= deadline
    ensures old(host.now) <= host.now <= Max(old(host.now), deadline + Seconds(1))
  {
    asked := [];
    assert prior + asked == prior;
    while host.now < deadline
      invariant host.log == old(host.log) + asked
      invariant Awaiting(prior + asked, candidate, candidates)
      invariant old(host.now) <= host.now <= Max(old(host.now), deadline + Seconds(1))
      decreases deadline - host.now
    {
      hide Awaiting, Settled, AnyUp;
      var remaining := Max(1, (deadline - host.now) / Seconds(1));
      var state := host.Probe(candidate, remaining);
      AskedAgain(prior + asked, candidate, state, candidates);
      assert prior + (asked + [Answer(candidate, state)]) == (prior + asked) + [Answer(candidate, state)];
      asked := asked + [Answer(candidate, state)];
      if state == Up {
        SlowStays(prior, asked);
        return StripSlashes(candidate), asked;
      }
    }
    return "", asked;
  }

  lemma {:induction false} SlowStays(prior: seq<Answer>, more: seq<Answer>)
    requires AnySlow(prior)
    ensures AnySlow(prior + more)
  {
    var k :| 0 <= k < |prior| && prior[k].state == Slow;
    assert (prior + more)[k].state == Slow;
  }

  /** One sweep over the candidates; `settled` when one of them is up or was waited for. */
  method Sweep(host: Host, candidates: seq<string>, deadline: int, ghost prior: seq<Answer>, ghost sweeps: nat)
    returns (settled: bool, url: string, ghost asked: seq<Answer>)
    requires Quiet(prior, candidates) && |prior| == sweeps * |candidates|
    modifies host
    ensures host.log == old(host.log) + asked
    ensures old(host.now) <= host.now <= Max(old(host.now) + Seconds(5 * |candidates|), deadline + Seconds(1))
    ensures settled ==> Settled(prior + asked, url, candidates)
    ensures settled ==> AnyUp(prior + asked) || (AnySlow(prior + asked) && host.now >= deadline)
    ensures forall i | 0 <= i < |asked| && i < |candidates| ::
              asked[i].url == candidates[i] || exists j | 0 <= j < i :: asked[j].state == Slow
    ensures !settled ==> Quiet(prior + asked, candidates) && |asked| == |candidates| &&
                         host.now <= old(host.now) + Seconds(5 * |candidates|)
  {
    hide Quiet, AnyUp, AnySlow, Awaiting, Settled;
    settled, url, asked := false, "", [];
    ghost var start := host.now;
    ghost var log := prior;
    assert log == prior + asked;
    for i := 0 to |candidates|
      invariant host.log == old(host.log) + asked && log == prior + asked
      invariant Quiet(log, candidates) && |asked| == i && |log| == sweeps * |candidates| + i
      invariant forall k | 0 <= k < i :: asked[k].url == candidates[k]
      invariant start <= host.now <= start + Seconds(5 * i)
    {
      var candidate := candidates[i];
      var state := host.Probe(candidate, SWEEP_TIMEOUT_S);
      PositionInSweep(sweeps, |candidates|, i);
      Asked(log, candidate, state, candidates);
      log := log + [Answer(candidate, state)];
      asked := asked + [Answer(candidate, state)];
      assert log == prior + asked;
      if state == Up {
        return true, StripSlashes(candidate), asked;
      }
      if state == Slow {
        ghost var rest;
        url, rest := AwaitReady(host, candidate, deadline, log, candidates);
        assert prior + (asked + rest) == log + rest;
        ghost var swept := asked;
        asked := asked + rest;
        assert forall k | 0 <= k <= i :: asked[k] == swept[k];
        assert asked[i].state == Slow;
        return true, url, asked;
      }
    }
  }

  /** `asked` is what this call added to the log. */
  method WaitForServer(host: Host, candidates: seq<string>, readyTimeoutS: int, expectServer: bool)
    returns (url: string, ghost asked: seq<Answer>)
    modifies host
    ensures host.log == old(host.log) + asked
    ensures Settled(asked, url, candidates)
    // bounded
    ensures host.now <= old(host.now) + Budget(readyTimeoutS, |candidates|)
    // patient: a server that is expected, or was seen coming up, is given the whole deadline
    ensures !AnyUp(asked) && (expectServer || AnySlow(asked)) ==>
              host.now >= old(host.now) + Seconds(readyTimeoutS)
    // a caller that expects no server and finds none makes exactly one sweep
    ensures !expectServer && !AnyUp(asked) && !AnySlow(asked) ==> |asked| == |candidates|
  {
    hide SweepsInOrder, SticksToSlow;
    asked := [];
    ghost var start := host.now;
    var deadline := host.now + Seconds(readyTimeoutS);
    ghost var sweeps := 0;
    QuietAtFirst(candidates);
    while true
      invariant host.log == old(host.log) + asked
      invariant Quiet(asked, candidates)
      invariant start <= host.now <= start + Seconds(Max(readyTimeoutS, 0) + 2)
      invariant |asked| == sweeps * |candidates| && (sweeps == 0 || expectServer)
      decreases deadline + Seconds(3) - host.now
    {
      var settled;
      ghost var more;
      settled, url, more := Sweep(host, candidates, deadline, asked, sweeps);
      asked := asked + more;
      if settled {
        return;
      }
      if !expectServer {
        return "", asked;
      }
      if host.now >= deadline {
        return "", asked;
      }
      sweeps := sweeps + 1;
      host.Sleep(BIND_POLL_INTERVAL_S);
    }
  }

  lemma {:induction false} QuietAtFirst(candidates: seq<string>)
    ensures Quiet([], candidates)
  {
  }
}
