/** A CONNECT tunnel (section 9.3.6 of RFC 9110) as a transition system.

    The main thread confirms the tunnel, sends what the client pipelined, starts the two relays and
    closes the upstream side once the downward relay is done and the other one was joined, or the
    join timed out.  Every interleaving of the two relays and the main thread is a sequence of
    actions; how much a socket takes or gives at a time, and when it fails, is part of the action.
  */
module Tunnel {
  import opened Basics

  const ESTABLISHED := "HTTP/1.1 200 Connection Established\r\n\r\n"
  const RECV_LIMIT := 65536

  /** `Done(clean)`: the relay has shut its target down; clean when it saw the end of its source. */
  datatype Status = Running | Ended | Failed | Done(clean: bool)

  /** One direction.  `source` is all the peer will ever send; `inHand` was read, or put there by
      the main thread, and is not yet sent. */
  datatype Relay = Relay(source: string, taken: nat, inHand: string, delivered: string, status: Status)

  datatype Phase = Confirming | Draining | Relaying | Closed | Raised

  datatype State = State(phase: Phase, up: Relay, down: Relay)

  datatype Direction = Up | Down

  datatype Action =
    | Send(dir: Direction, n: nat)
    | SendFails(dir: Direction)
    | Sent                          // the main thread's own send has returned
    | Recv(dir: Direction, n: nat)
    | RecvEnd(dir: Direction)
    | RecvFails(dir: Direction)
    | ShutDown(dir: Direction)
    | Close

  function Init(client: string, origin: string, pending: string): State {
    State(Confirming, Relay(client, 0, pending, "", Running), Relay(origin, 0, ESTABLISHED, "", Running))
  }

  function Get(s: State, dir: Direction): Relay {
    if dir == Up then s.up else s.down
  }

  function Set(s: State, dir: Direction, r: Relay): State {
    if dir == Up then s.(up := r) else s.(down := r)
  }

  /** Who may send now: the main thread confirms downward, then drains upward; then the relays do,
      and the upward one finds its socket closed after the close. */
  predicate MaySend(s: State, dir: Direction) {
    match s.phase
    case Confirming => dir == Down
    case Draining => dir == Up
    case Relaying => true
    case Closed => dir == Down
    case Raised => false
  }

  predicate RelaysRun(s: State) {
    s.phase == Relaying || s.phase == Closed
  }

  /** The state after an action, or None where the action cannot happen. */
  function Next(s: State, a: Action): Option<State> {
    match a
    case Send(dir, n) =>
      var r := Get(s, dir);
      if MaySend(s, dir) && r.status == Running && 1 <= n <= |r.inHand| then
        Some(Set(s, dir, r.(inHand := r.inHand[n..], delivered := r.delivered + r.inHand[..n])))
      else None
    case SendFails(dir) =>
      var r := Get(s, dir);
      if r.status != Running || r.inHand == "" then None
      else if RelaysRun(s) then Some(Set(s, dir, r.(status := Failed)))
      else if MaySend(s, dir) then Some(s.(phase := Raised))
      else None
    case Sent =>
      if s.phase == Confirming && s.down.inHand == "" then Some(s.(phase := Draining))
      else if s.phase == Draining && s.up.inHand == "" then Some(s.(phase := Relaying))
      else None
    case Recv(dir, n) =>
      var r := Get(s, dir);
      if RelaysRun(s) && r.status == Running && r.inHand == "" &&
         1 <= n <= RECV_LIMIT && r.taken + n <= |r.source| then
        Some(Set(s, dir, r.(taken := r.taken + n, inHand := r.source[r.taken..r.taken + n])))
      else None
    case RecvEnd(dir) =>
      var r := Get(s, dir);
      if RelaysRun(s) && r.status == Running && r.inHand == "" && r.taken == |r.source| then
        Some(Set(s, dir, r.(status := Ended)))
      else None
    case RecvFails(dir) =>
      var r := Get(s, dir);
      if RelaysRun(s) && r.status == Running && r.inHand == "" then
        Some(Set(s, dir, r.(status := Failed)))
      else None
    case ShutDown(dir) =>
      var r := Get(s, dir);
      if r.status == Ended || r.status == Failed then
        Some(Set(s, dir, r.(status := Done(r.status == Ended))))
      else None
    case Close =>
      if s.phase == Relaying && s.down.status.Done? then Some(s.(phase := Closed)) else None
  }

  function Run(s: State, actions: seq<Action>): Option<State> {
    if actions == [] then Some(s)
    else
      match Run(s, actions[..|actions| - 1])
      case None => None
      case Some(t) => Next(t, actions[|actions| - 1])
  }

  /** Nothing is lost, invented or reordered inside one direction. */
  predicate Conserves(r: Relay, before: string) {
    && r.taken <= |r.source|
    && r.delivered + r.inHand == before + r.source[..r.taken]
    && (r.status == Ended || r.status == Done(true) ==> r.inHand == "" && r.taken == |r.source|)
  }

  predicate Inv(s: State, client: string, origin: string, pending: string) {
    && s.up.source == client && s.down.source == origin
    && Conserves(s.up, pending) && Conserves(s.down, ESTABLISHED)
    && (!RelaysRun(s) ==> s.up.taken == 0 && s.down.taken == 0 && s.up.status == Running && s.down.status == Running)
    && (s.phase != Confirming && s.phase != Raised ==> ESTABLISHED <= s.down.delivered)
    && (RelaysRun(s) ==> pending <= s.up.delivered)
    && (s.phase == Confirming ==> s.up.delivered == "")
  }

  lemma {:induction false} SendConserves(r: Relay, n: nat, before: string)
    requires Conserves(r, before) && r.status == Running && n <= |r.inHand|
    ensures Conserves(r.(inHand := r.inHand[n..], delivered := r.delivered + r.inHand[..n]), before)
    ensures r.delivered <= r.delivered + r.inHand[..n]
  {
    assert r.inHand == r.inHand[..n] + r.inHand[n..];
    assert r.delivered + (r.inHand[..n] + r.inHand[n..]) == (r.delivered + r.inHand[..n]) + r.inHand[n..];
  }

  lemma {:induction false} RecvConserves(r: Relay, n: nat, before: string)
    requires Conserves(r, before) && r.status == Running && r.inHand == "" && r.taken + n <= |r.source|
    ensures Conserves(r.(taken := r.taken + n, inHand := r.source[r.taken..r.taken + n]), before)
  {
    assert r.delivered + "" == r.delivered;
    assert r.source[..r.taken + n] == r.source[..r.taken] + r.source[r.taken..r.taken + n];
    assert before + (r.source[..r.taken] + r.source[r.taken..r.taken + n]) ==
           (before + r.source[..r.taken]) + r.source[r.taken..r.taken + n];
  }

  lemma {:induction false} FinishedPrefix(r: Relay, before: string)
    requires Conserves(r, before) && r.inHand == "" && r.taken == 0
    ensures r.delivered == before
  {
    assert r.delivered + "" == r.delivered;
    assert before + "" == before;
  }

  lemma {:induction false} SendKeepsInv(s: State, dir: Direction, n: nat,
                                        client: string, origin: string, pending: string)
    requires Inv(s, client, origin, pending) && Next(s, Send(dir, n)).Some?
    ensures Inv(Next(s, Send(dir, n)).value, client, origin, pending)
  {
    var r := Get(s, dir);
    SendConserves(r, n, if dir == Up then pending else ESTABLISHED);
    hide Conserves;
    Longer(ESTABLISHED, s.down.delivered, r.inHand[..n]);
    Longer(pending, s.up.delivered, r.inHand[..n]);
  }

  lemma {:induction false} RecvKeepsInv(s: State, dir: Direction, n: nat,
                                        client: string, origin: string, pending: string)
    requires Inv(s, client, origin, pending) && Next(s, Recv(dir, n)).Some?
    ensures Inv(Next(s, Recv(dir, n)).value, client, origin, pending)
  {
    RecvConserves(Get(s, dir), n, if dir == Up then pending else ESTABLISHED);
    hide Conserves;
  }

  lemma {:induction false} Longer(a: string, b: string, c: string)
    ensures a <= b ==> a <= b + c
  {
  }

  /** Every action keeps the invariant. */
  lemma {:induction false} NextKeepsInv(s: State, a: Action, client: string, origin: string, pending: string)
    requires Inv(s, client, origin, pending) && Next(s, a).Some?
    ensures Inv(Next(s, a).value, client, origin, pending)
  {
    match a {
      case Send(dir, n) =>
        SendKeepsInv(s, dir, n, client, origin, pending);
      case Recv(dir, n) =>
        RecvKeepsInv(s, dir, n, client, origin, pending);
      case Sent =>
        if s.phase == Confirming {
          FinishedPrefix(s.down, ESTABLISHED);
        } else {
          FinishedPrefix(s.up, pending);
        }
      case SendFails(dir) =>
      case RecvEnd(dir) =>
      case RecvFails(dir) =>
      case ShutDown(dir) =>
      case Close =>
    }
  }

  lemma {:induction false} RunKeepsInv(actions: seq<Action>, client: string, origin: string, pending: string)
    requires Run(Init(client, origin, pending), actions).Some?
    ensures Inv(Run(Init(client, origin, pending), actions).value, client, origin, pending)
  {
    if actions != [] {
      var init, last := actions[..|actions| - 1], actions[|actions| - 1];
      RunKeepsInv(init, client, origin, pending);
      var t := Run(Init(client, origin, pending), init).value;
      hide Inv, Next, Init;
      NextKeepsInv(t, last, client, origin, pending);
    } else {
      assert client[..0] == "" && origin[..0] == "";
      assert "" + pending == pending + "" && "" + ESTABLISHED == ESTABLISHED + "";
    }
  }

  /** Over every run: what reached the upstream is always a prefix of the pipelined octets followed
      by the client's, what reached the client is always a prefix of the confirmation followed by
      the origin's, and the confirmation is complete before anything is relayed. */
  lemma {:induction false} DeliveredIsPrefix(actions: seq<Action>, client: string, origin: string, pending: string)
    requires Run(Init(client, origin, pending), actions).Some?
    ensures var s := Run(Init(client, origin, pending), actions).value;
            && s.up.delivered <= pending + client
            && s.down.delivered <= ESTABLISHED + origin
            && (s.up.taken > 0 || s.down.taken > 0 ==> ESTABLISHED <= s.down.delivered && pending <= s.up.delivered)
  {
    RunKeepsInv(actions, client, origin, pending);
    var s := Run(Init(client, origin, pending), actions).value;
    hide Run, Init;
    PrefixOf(s.up, pending);
    PrefixOf(s.down, ESTABLISHED);
  }

  lemma {:induction false} PrefixOf(r: Relay, before: string)
    requires Conserves(r, before)
    ensures r.delivered <= before + r.source
  {
    assert before + r.source == (before + r.source[..r.taken]) + r.source[r.taken..];
    assert before + r.source == r.delivered + (r.inHand + r.source[r.taken..]);
  }

  /** A direction that was shut down has sent everything it read, unless a socket failed; when it
      saw the end of its source, it delivered the whole of it. */
  lemma {:induction false} CleanMeansComplete(actions: seq<Action>, client: string, origin: string, pending: string)
    requires Run(Init(client, origin, pending), actions).Some?
    ensures var s := Run(Init(client, origin, pending), actions).value;
            && (s.up.status == Done(true) ==> s.up.delivered == pending + client)
            && (s.down.status == Done(true) ==> s.down.delivered == ESTABLISHED + origin)
  {
    RunKeepsInv(actions, client, origin, pending);
    var s := Run(Init(client, origin, pending), actions).value;
    hide Run, Init;
    assert s.up.delivered + "" == s.up.delivered && s.down.delivered + "" == s.down.delivered;
    assert client[..|client|] == client && origin[..|origin|] == origin;
  }

  predicate Fails(a: Action) {
    a.SendFails? || a.RecvFails?
  }

  predicate NeverFailed(r: Relay) {
    r.status != Failed && r.status != Done(false)
  }

  lemma {:induction false} NoFailureNoFailed(actions: seq<Action>, client: string, origin: string, pending: string)
    requires Run(Init(client, origin, pending), actions).Some?
    requires forall i | 0 <= i < |actions| :: !Fails(actions[i])
    ensures var s := Run(Init(client, origin, pending), actions).value;
            NeverFailed(s.up) && NeverFailed(s.down)
  {
    if actions != [] {
      NoFailureNoFailed(actions[..|actions| - 1], client, origin, pending);
    }
  }

  /** If no socket fails and the upstream side was closed after both relays finished, both
      directions are complete. */
  lemma {:induction false} QuietTunnelComplete(actions: seq<Action>, client: string, origin: string, pending: string)
    requires Run(Init(client, origin, pending), actions).Some?
    requires forall i | 0 <= i < |actions| :: !Fails(actions[i])
    requires var s := Run(Init(client, origin, pending), actions).value; s.up.status.Done? && s.down.status.Done?
    ensures var s := Run(Init(client, origin, pending), actions).value;
            s.up.delivered == pending + client && s.down.delivered == ESTABLISHED + origin
  {
    NoFailureNoFailed(actions, client, origin, pending);
    CleanMeansComplete(actions, client, origin, pending);
  }

  // ---- When a direction is shut down short ----------------------------------------------------------

  /** A failed send of a running relay, and nothing else, leaves octets in hand. */
  predicate HoldsIffSendFailed(r: Relay, failed: bool) {
    (failed ==> r.status == Failed || r.status == Done(false)) &&
    (r.status != Running ==> (r.inHand == "" <==> !failed))
  }

  lemma {:induction false} SendFailureStep(s: State, a: Action, dir: Direction, failed: bool)
    requires Next(s, a).Some? && s.phase != Raised
    requires !RelaysRun(s) ==> s.up.status == Running && s.down.status == Running && !failed
    requires HoldsIffSendFailed(Get(s, dir), failed)
    ensures var t := Next(s, a).value;
            && (t.phase != Raised ==> HoldsIffSendFailed(Get(t, dir), failed || a == SendFails(dir)))
            && (t.phase == Raised ==> t.up.status == Running && t.down.status == Running)
            && (t.phase != Raised && !RelaysRun(t) ==>
                  t.up.status == Running && t.down.status == Running && a != SendFails(dir))
  {
  }

  /** A send of the main thread's own that fails ends the tunnel before any relay runs. */
  lemma {:induction false} NothingAfterRaise(s: State, a: Action)
    requires s.phase == Raised ==> s.up.status == Running && s.down.status == Running
    ensures Next(s, a).Some? ==> s.phase != Raised
  {
  }

  lemma {:induction false} SendFailureRun(actions: seq<Action>, dir: Direction,
                                          client: string, origin: string, pending: string)
    requires Run(Init(client, origin, pending), actions).Some?
    ensures var s := Run(Init(client, origin, pending), actions).value;
            && (s.phase != Raised ==> HoldsIffSendFailed(Get(s, dir), SendFails(dir) in actions))
            && (s.phase == Raised || !RelaysRun(s) ==> s.up.status == Running && s.down.status == Running)
            && (s.phase != Raised && !RelaysRun(s) ==> SendFails(dir) !in actions)
  {
    if actions != [] {
      var init, last := actions[..|actions| - 1], actions[|actions| - 1];
      SendFailureRun(init, dir, client, origin, pending);
      assert actions == init + [last];
      var s := Run(Init(client, origin, pending), init).value;
      hide Run, Init, Next, HoldsIffSendFailed;
      NothingAfterRaise(s, last);
      SendFailureStep(s, last, dir, SendFails(dir) in init);
    }
  }

  /** Over every run and in either direction: a relay that has stopped sent all it had read if and only
      if none of its sends failed; it delivered all there is if and only if it also had read all of it. */
  lemma {:induction false} ShutDownShort(actions: seq<Action>, dir: Direction,
                                         client: string, origin: string, pending: string)
    requires Run(Init(client, origin, pending), actions).Some?
    requires Get(Run(Init(client, origin, pending), actions).value, dir).status != Running
    ensures var r := Get(Run(Init(client, origin, pending), actions).value, dir);
            var before := if dir == Up then pending else ESTABLISHED;
            && (r.inHand == "" <==> SendFails(dir) !in actions)
            && r.taken <= |r.source|
            && (r.delivered == before + r.source[..r.taken] <==> SendFails(dir) !in actions)
            && (r.delivered == before + r.source <==> SendFails(dir) !in actions && r.taken == |r.source|)
  {
    RunKeepsInv(actions, client, origin, pending);
    SendFailureRun(actions, dir, client, origin, pending);
    var r := Get(Run(Init(client, origin, pending), actions).value, dir);
    hide Run, Init;
    Delivered(r, if dir == Up then pending else ESTABLISHED);
  }

  lemma {:induction false} Delivered(r: Relay, before: string)
    requires Conserves(r, before)
    ensures r.delivered == before + r.source[..r.taken] <==> r.inHand == ""
    ensures r.delivered == before + r.source <==> r.inHand == "" && r.taken == |r.source|
  {
    assert |r.delivered| + |r.inHand| == |before| + r.taken;
    assert r.delivered + "" == r.delivered;
    if r.taken == |r.source| { assert r.source[..r.taken] == r.source; }
  }

  /** It happens: the upstream socket fails under the client's first octet, and its writing side is
      shut down with that octet in hand. */
  lemma {:induction false} ShutDownHolding()
    ensures var end := Run(Init("A", "", ""), FAILED_SEND);
            end.Some? && end.value.up == Relay("A", 1, "A", "", Done(false))
  {
    Opened("A", "");
    ThreeMore(Init("A", "", ""), OPENING, Recv(Up, 1), SendFails(Up), ShutDown(Up));
    hide Run, Init;
    assert "A"[0..1] == "A";
  }

  const OPENING: seq<Action> := [Send(Down, |ESTABLISHED|), Sent, Sent]
  const FAILED_SEND: seq<Action> := OPENING + [Recv(Up, 1), SendFails(Up), ShutDown(Up)]
  const CLOSED_SHORT: seq<Action> := OPENING + [RecvEnd(Down), ShutDown(Down), Close]

  lemma {:induction false} RunSteps(s: State, actions: seq<Action>, a: Action)
    ensures Run(s, actions + [a]) == AndThen(Run(s, actions), a)
  {
    hide Next;
    assert (actions + [a])[..|actions|] == actions;
  }

  function AndThen(s: Option<State>, a: Action): Option<State> {
    match s case None => None case Some(t) => Next(t, a)
  }

  lemma {:induction false} ThreeMore(s: State, actions: seq<Action>, a: Action, b: Action, c: Action)
    ensures Run(s, actions + [a, b, c]) == AndThen(AndThen(AndThen(Run(s, actions), a), b), c)
  {
    hide Run, Next;
    RunSteps(s, actions, a);
    RunSteps(s, actions + [a], b);
    RunSteps(s, actions + [a] + [b], c);
    assert actions + [a] + [b] + [c] == actions + [a, b, c];
  }

  /** The tunnel is up and nothing was relayed yet. */
  lemma {:induction false} Opened(client: string, origin: string)
    ensures Run(Init(client, origin, ""), OPENING) ==
            Some(State(Relaying, Relay(client, 0, "", "", Running), Relay(origin, 0, "", ESTABLISHED, Running)))
  {
    var s := Init(client, origin, "");
    ThreeMore(s, [], Send(Down, |ESTABLISHED|), Sent, Sent);
    assert [] + OPENING == OPENING;
    assert ESTABLISHED[|ESTABLISHED|..] == "" && "" + ESTABLISHED[..|ESTABLISHED|] == ESTABLISHED;
  }

  // ---- When the close cuts the client short ---------------------------------------------------------

  lemma {:induction false} RunConcat(s: State, a: seq<Action>, b: seq<Action>)
    ensures Run(s, a + b) == match Run(s, a) case None => None case Some(t) => Run(t, b)
  {
    if b == [] {
      assert a + b == a;
    } else {
      var n := |b| - 1;
      RunConcat(s, a, b[..n]);
      assert (a + b)[..|a + b| - 1] == a + b[..n];
    }
  }

  lemma {:induction false} ClosedStays(s: State, actions: seq<Action>)
    requires s.phase == Closed && Run(s, actions).Some?
    ensures Run(s, actions).value.phase == Closed && Run(s, actions).value.up.delivered == s.up.delivered
  {
    if actions != [] { ClosedStays(s, actions[..|actions| - 1]); }
  }

  /** Over every run with a close in it: the upstream ends up with everything if and only if, at the
      close, all of the client's octets had been read and none was in hand. */
  lemma {:induction false} CloseTruncates(a: seq<Action>, b: seq<Action>,
                                          client: string, origin: string, pending: string)
    requires Run(Init(client, origin, pending), a + [Close] + b).Some?
    ensures Run(Init(client, origin, pending), a).Some?
    ensures var at := Run(Init(client, origin, pending), a).value;
            var end := Run(Init(client, origin, pending), a + [Close] + b).value;
            && end.up.delivered == at.up.delivered
            && (end.up.delivered == pending + client <==> at.up.inHand == "" && at.up.taken == |client|)
  {
    var s := Init(client, origin, pending);
    RunConcat(s, a + [Close], b);
    RunSteps(s, a, Close);
    var t := Run(s, a + [Close]).value;
    ClosedStays(t, b);
    RunKeepsInv(a, client, origin, pending);
    hide Run, Init;
    Delivered(Run(s, a).value.up, pending);
  }

  /** It happens: the origin ends at once, and the close comes before the client's octet was read. */
  lemma {:induction false} ClosedShort()
    ensures var end := Run(Init("A", "", ""), CLOSED_SHORT);
            end.Some? && end.value.phase == Closed && end.value.up.delivered == "" && end.value.up.status == Running
  {
    Opened("A", "");
    ThreeMore(Init("A", "", ""), OPENING, RecvEnd(Down), ShutDown(Down), Close);
    hide Run, Init;
  }
}
