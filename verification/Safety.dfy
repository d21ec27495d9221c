/** What every run of the client keeps, as a property of its whole trace: one message at a time into a
    session, probes only after an answered setup, every session closed. */
module Safety {
  import opened Session

  // ---- Safety of a whole trace --------------------------------------------------------------------

  /** Call c of session s got its reply strictly between the two positions. */
  ghost predicate Answered(t: seq<Event>, c: Call, s: Id, lo: nat, hi: nat) {
    exists k | lo < k < hi && k < |t| :: t[k].Finished? && t[k].call == c && t[k].session == s && t[k].outcome.Reply?
  }

  ghost predicate AbortTried(t: seq<Event>, s: Id, lo: nat, hi: nat) {
    exists k | lo < k < hi && k < |t| :: t[k].Aborted? && t[k].session == s
  }

  /** A session gets a second message only after the first one was answered. */
  ghost predicate SingleFile(t: seq<Event>) {
    forall i, j | 0 <= i < j < |t| && t[i].Posted? && t[j].Posted? && t[i].session == t[j].session ::
      Answered(t, t[i].call, t[i].session, i, j)
  }

  /** The setup message is the one that was answered before a probe. */
  ghost predicate SetUp(t: seq<Event>, j: nat)
    requires j < |t| && t[j].Posted?
  {
    exists i | 0 <= i < j :: t[i].Posted? && t[i].kind == Setup && t[i].session == t[j].session &&
      Answered(t, t[i].call, t[i].session, i, j)
  }

  ghost predicate ProbesSetUp(t: seq<Event>) {
    forall j | 0 <= j < |t| && t[j].Posted? && t[j].kind == Probe :: SetUp(t, j)
  }

  /** Every session gets an abort attempt before the next one is created ... */
  ghost predicate ClosedBeforeNext(t: seq<Event>) {
    forall i, j | 0 <= i < j < |t| && t[i].Created? && t[j].Created? :: AbortTried(t, t[i].session, i, j)
  }

  /** ... and in the end. */
  ghost predicate AllClosed(t: seq<Event>) {
    forall i | 0 <= i < |t| && t[i].Created? :: AbortTried(t, t[i].session, i, |t|)
  }

  ghost predicate Safe(t: seq<Event>) {
    SingleFile(t) && ProbesSetUp(t) && ClosedBeforeNext(t) && AllClosed(t)
  }

  /** The calls of session s that were posted among the first n events, and have not returned there. */
  ghost predicate IsOutstanding(t: seq<Event>, n: nat, s: Id, i: nat) {
    && i < n <= |t| && t[i].Posted? && t[i].session == s
    && !exists k | i < k < n :: t[k].Finished? && t[k].call == t[i].call
  }

  ghost function Outstanding(t: seq<Event>, n: nat, s: Id): set<Call>
    requires n <= |t|
  {
    set i: nat | i < n && IsOutstanding(t, n, s, i) :: t[i].call
  }

  /** No session ever has two messages outstanding, at any point of a safe trace. */
  lemma {:induction false} NeverTwoOutstanding(t: seq<Event>, n: nat, s: Id)
    requires Safe(t) && n <= |t|
    ensures |Outstanding(t, n, s)| <= 1
  {
    forall c, d | c in Outstanding(t, n, s) && d in Outstanding(t, n, s) ensures c == d {
      var i: nat :| i < n && IsOutstanding(t, n, s, i) && t[i].call == c;
      var j: nat :| j < n && IsOutstanding(t, n, s, j) && t[j].call == d;
      assert i < j ==> Answered(t, c, s, i, j);
      assert j < i ==> Answered(t, d, s, j, i);
    }
    AtMostOneElement(Outstanding(t, n, s));
  }

  lemma {:induction false} AtMostOneElement(s: set<Call>)
    requires forall c, d | c in s && d in s :: c == d
    ensures |s| <= 1
  {
    if c :| c in s {
      assert s == {c};
    }
  }

  // ---- One attempt --------------------------------------------------------------------------------

  /** What one attempt, on a session of its own, adds to the trace. */
  ghost predicate GoodAttempt(seg: seq<Event>, s: Id) {
    Shape(seg, s) && AbortTried(seg, s, 0, |seg|)
  }

  ghost predicate Shape(seg: seq<Event>, s: Id) {
    && seg != [] && seg[0] == Created(s)
    && (forall i | 0 < i < |seg| :: !seg[i].Created?)
    && (forall i | 0 <= i < |seg| && seg[i].Posted? :: seg[i].session == s)
    && SingleFile(seg) && ProbesSetUp(seg)
  }

  /** The setup message, at position i, is the only one so far, and it was answered. */
  ghost predicate OnlySetup(seg: seq<Event>, s: Id, i: nat) {
    && i < |seg| && seg[i].Posted? && seg[i].kind == Setup && seg[i].session == s
    && (forall j | 0 <= j < |seg| && seg[j].Posted? :: j == i)
    && Answered(seg, seg[i].call, s, i, |seg|)
  }

  predicate NoSession(seg: seq<Event>) {
    forall i | 0 <= i < |seg| :: !seg[i].Created? && !seg[i].Posted?
  }

  predicate SessionsBelow(t: seq<Event>, s: Id) {
    forall i | 0 <= i < |t| :: (t[i].Posted? || t[i].Created?) ==> t[i].session < s
  }

  lemma {:induction false} AnsweredShift(a: seq<Event>, b: seq<Event>, c: Call, s: Id, lo: nat, hi: nat)
    ensures hi <= |a| && Answered(a, c, s, lo, hi) ==> Answered(a + b, c, s, lo, hi)
    ensures Answered(b, c, s, lo, hi) ==> Answered(a + b, c, s, |a| + lo, |a| + hi)
  {
    var t := a + b;
    if hi <= |a| && Answered(a, c, s, lo, hi) {
      var k :| lo < k < hi && k < |a| && a[k].Finished? && a[k].call == c && a[k].session == s && a[k].outcome.Reply?;
      assert t[k] == a[k];
    }
    if Answered(b, c, s, lo, hi) {
      var k :| lo < k < hi && k < |b| && b[k].Finished? && b[k].call == c && b[k].session == s && b[k].outcome.Reply?;
      assert t[|a| + k] == b[k];
    }
  }

  lemma {:induction false} AbortShift(a: seq<Event>, b: seq<Event>, s: Id, lo: nat, hi: nat)
    ensures hi <= |a| && AbortTried(a, s, lo, hi) ==> AbortTried(a + b, s, lo, hi) && AbortTried(a + b, s, lo, |a + b|)
    ensures AbortTried(b, s, lo, hi) ==> AbortTried(a + b, s, |a| + lo, |a| + hi)
  {
    var t := a + b;
    if hi <= |a| && AbortTried(a, s, lo, hi) {
      var k :| lo < k < hi && k < |a| && a[k].Aborted? && a[k].session == s;
      assert t[k] == a[k];
    }
    if AbortTried(b, s, lo, hi) {
      var k :| lo < k < hi && k < |b| && b[k].Aborted? && b[k].session == s;
      assert t[|a| + k] == b[k];
    }
  }

  lemma {:induction false} SingleFileExtends(a: seq<Event>, b: seq<Event>, s: Id)
    requires SingleFile(a) && SingleFile(b) && SessionsBelow(a, s)
    requires forall i | 0 <= i < |b| && b[i].Posted? :: b[i].session >= s
    ensures SingleFile(a + b)
  {
    var t := a + b;
    forall i, j | 0 <= i < j < |t| && t[i].Posted? && t[j].Posted? && t[i].session == t[j].session
      ensures Answered(t, t[i].call, t[i].session, i, j)
    {
      if j < |a| {
        AnsweredShift(a, b, t[i].call, t[i].session, i, j);
      } else if i >= |a| {
        assert t[i] == b[i - |a|] && t[j] == b[j - |a|];
        AnsweredShift(a, b, t[i].call, t[i].session, i - |a|, j - |a|);
      } else {
        assert false;
      }
    }
  }

  lemma {:induction false} ProbesExtend(a: seq<Event>, b: seq<Event>)
    requires ProbesSetUp(a) && ProbesSetUp(b)
    ensures ProbesSetUp(a + b)
  {
    var t := a + b;
    forall j | 0 <= j < |t| && t[j].Posted? && t[j].kind == Probe ensures SetUp(t, j) {
      if j < |a| {
        assert SetUp(a, j);
        var i :| 0 <= i < j && a[i].Posted? && a[i].kind == Setup && a[i].session == a[j].session &&
          Answered(a, a[i].call, a[i].session, i, j);
        AnsweredShift(a, b, a[i].call, a[i].session, i, j);
        assert t[i] == a[i];
      } else {
        var j' := j - |a|;
        assert SetUp(b, j');
        var i :| 0 <= i < j' && b[i].Posted? && b[i].kind == Setup && b[i].session == b[j'].session &&
          Answered(b, b[i].call, b[i].session, i, j');
        AnsweredShift(a, b, b[i].call, b[i].session, i, j');
        assert t[|a| + i] == b[i];
      }
    }
  }

  lemma {:induction false} ClosingExtends(a: seq<Event>, b: seq<Event>, s: Id)
    requires ClosedBeforeNext(a) && AllClosed(a) && GoodAttempt(b, s)
    ensures ClosedBeforeNext(a + b) && AllClosed(a + b)
  {
    var t := a + b;
    hide SingleFile, ProbesSetUp;
    forall i, j | 0 <= i < j < |t| && t[i].Created? && t[j].Created? ensures AbortTried(t, t[i].session, i, j) {
      if j < |a| {
        AbortShift(a, b, t[i].session, i, j);
      } else {
        assert t[j] == b[j - |a|] && j == |a|;
        AbortShift(a, b, t[i].session, i, |a|);
      }
    }
    forall i | 0 <= i < |t| && t[i].Created? ensures AbortTried(t, t[i].session, i, |t|) {
      if i < |a| {
        AbortShift(a, b, t[i].session, i, |a|);
      } else {
        assert t[i] == b[i - |a|] && i == |a|;
        AbortShift(a, b, s, 0, |b|);
      }
    }
  }

  /** A good attempt on a fresh session keeps the whole trace safe. */
  lemma {:induction false} AttemptKeepsSafe(a: seq<Event>, b: seq<Event>, s: Id)
    requires Safe(a) && GoodAttempt(b, s) && SessionsBelow(a, s)
    ensures Safe(a + b)
  {
    SingleFileExtends(a, b, s);
    ProbesExtend(a, b);
    ClosingExtends(a, b, s);
  }

  /** So does anything that creates no session and sends no message. */
  lemma {:induction false} NothingKeepsSafe(a: seq<Event>, b: seq<Event>)
    requires Safe(a) && NoSession(b)
    ensures Safe(a + b)
  {
    var t := a + b;
    assert forall i | |a| <= i < |t| :: t[i] == b[i - |a|];
    assert forall i | 0 <= i < |t| && (t[i].Posted? || t[i].Created?) :: i < |a| && t[i] == a[i];
    assert SingleFile(b) && ProbesSetUp(b);
    forall i, j | 0 <= i < j < |t| && t[i].Posted? && t[j].Posted? && t[i].session == t[j].session
      ensures Answered(t, t[i].call, t[i].session, i, j)
    {
      AnsweredShift(a, b, t[i].call, t[i].session, i, j);
    }
    ProbesExtend(a, b);
    forall i, j | 0 <= i < j < |t| && t[i].Created? && t[j].Created? ensures AbortTried(t, t[i].session, i, j) {
      AbortShift(a, b, t[i].session, i, j);
    }
    forall i | 0 <= i < |t| && t[i].Created? ensures AbortTried(t, t[i].session, i, |t|) {
      AbortShift(a, b, t[i].session, i, |a|);
    }
  }
}
