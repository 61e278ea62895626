/** What holds in every state that any threads can reach: who can be stuck, and on what. */
module LockRuns {
  import opened Wrappers
  import opened LockSpec
  import opened LockOrder
  import opened LockRoles

  lemma {:induction false} RunConcat(s: Sys, a: seq<Action>, b: seq<Action>)
    ensures Run(s, a + b) == Run(Run(s, a), b)
  {
    if b == [] {
      assert a + b == a;
    } else {
      RunConcat(s, a, b[..|b| - 1]);
      assert (a + b)[..|a + b| - 1] == a + b[..|b| - 1];
    }
  }

  lemma RunOne(s: Sys, a: Action)
    ensures Run(s, [a]) == Next(s, a)
  {
    assert [a][..0] == [];
  }

  // ----- the invariant

  /** A thread will finish holding nothing, taking its locks in order. */
  predicate InOrder(th: Thread) {
    After(th.held, th.ops) == Some({})
  }

  predicate OrderInv(s: Sys) {
    && (forall t :: 0 <= t < |s.threads| ==> InOrder(s.threads[t]))
    && (forall t :: 0 <= t < |s.threads| ==> s.threads[t].held !! s.kept)
    && (forall t, u :: 0 <= t < u < |s.threads| ==> s.threads[t].held !! s.threads[u].held)
  }

  /** The same for what a thread still has to do, where a closing may be past locking the channels. */
  predicate Allowed(s: Sys, role: Role, op: Op) {
    match op
    case Decide(sess, n) => role == Called(CloseSession(sess)) && n <= CountChs(s, sess)
    case Join(sess) => role == Called(CloseSession(sess))
    case _ => Fits(role, op)
  }

  predicate RolesInv(s: Sys) {
    && (forall t, op :: 0 <= t < |s.threads| && op in s.threads[t].ops ==> Allowed(s, s.threads[t].role, op))
    && (forall l :: l in s.kept ==> l.ChLock? && l.i < CountChs(s, l.s))
  }

  predicate Inv(s: Sys) {
    OrderInv(s) && RolesInv(s)
  }

  /** Whatever a thread's first operation leaves open, it stays in order. */
  lemma InOrderKept(s: Sys, th: Thread, yes: bool, i: nat)
    requires th.ops != [] && InOrder(th)
    ensures InOrder(Thread(th.role, HeldAfter(th.held, th.ops[0], yes), Rest(s, th.ops[0], th.ops[1..], yes, i)))
  {
    var held, rest := th.held, th.ops[1..];
    match th.ops[0]
    case Acquire(_) =>
    case Release(_) =>
    case AddChannel(_) =>
    case Join(_) =>
    case Spawn(_) =>
    case Optional(body) => if yes { AfterConcat(held, body, rest); }
    case EachChannel(sess) =>
      NeutralVisits(held, sess, CountChs(s, sess));
      AfterConcat(held, Visits(sess, CountChs(s, sess)), rest);
    case LockAll(sess) =>
      var n := CountChs(s, sess);
      AfterTakes(sess, n);
      AfterConcat(held, Takes(sess, n), [Decide(sess, n)] + rest);
      assert ([Decide(sess, n)] + rest)[1..] == rest;
    case Decide(sess, n) =>
      if yes {
        assert held - ChRange(sess, 0, n) == {SessLock(sess)};
        assert ([Join(sess)] + rest)[1..] == rest;
      } else {
        AfterReleases(sess, n, n);
        assert ChRange(sess, n, n) == {};
        assert {SessLock(sess)} + {} == {SessLock(sess)};
        AfterConcat(held, Releases(sess, n), rest);
      }
    case SomeChannel(sess) =>
      NeutralUse(held, ChLock(sess, i));
      AfterConcat(held, Use(ChLock(sess, i)), rest);
  }

  lemma MoveOrderInv(s: Sys, t: nat, yes: bool, i: nat)
    requires OrderInv(s)
    ensures OrderInv(Move(s, t, yes, i))
  {
    if Enabled(s, t) {
      var th := s.threads[t];
      var v := Move(s, t, yes, i);
      var next := v.threads[t];
      InOrderKept(s, th, yes, i);
      if th.ops[0].Decide? && yes {
        assert ChRange(th.ops[0].s, 0, th.ops[0].n) <= th.held;
      }
      assert v.kept + next.held <= s.kept + th.held + (if th.ops[0].Acquire? then {th.ops[0].l} else {});
      forall u | 0 <= u < |v.threads| ensures InOrder(v.threads[u]) && v.threads[u].held !! v.kept {
        if u < |s.threads| && u != t {
          assert InOrder(s.threads[u]) && s.threads[u].held !! th.held && s.threads[u].held !! s.kept;
        }
      }
      forall a, b | 0 <= a < b < |v.threads| ensures v.threads[a].held !! v.threads[b].held {
        if b < |s.threads| {
          assert s.threads[a].held !! s.threads[b].held;
        }
      }
    }
  }

  lemma {:induction false} VisitsFit(role: Role, s: nat, n: nat)
    requires !role.InHandler?
    ensures AllFit(role, Visits(s, n)) && AllFit(role, Takes(s, n)) && AllFit(role, Releases(s, n))
  {
    if n > 0 {
      VisitsFit(role, s, n - 1);
    }
  }

  /** What an operation unfolds into, apart from the parts of a closing, fits as well. */
  lemma RestFits(s: Sys, role: Role, first: Op, rest: seq<Op>, yes: bool, i: nat, op: Op)
    requires Allowed(s, role, first) && op in Rest(s, first, rest, yes, i) && op !in rest
    ensures Fits(role, op)
      || (first.LockAll? && op == Decide(first.s, CountChs(s, first.s)))
      || (first.Decide? && yes && op == Join(first.s))
  {
    match first
    case EachChannel(sess) => VisitsFit(role, sess, CountChs(s, sess));
    case LockAll(sess) => VisitsFit(role, sess, CountChs(s, sess));
    case Decide(sess, n) => if !yes { VisitsFit(role, sess, n); }
    case Optional(body) => assert op in body;
    case SomeChannel(sess) => assert op == Acquire(ChLock(sess, i)) || op == Release(ChLock(sess, i));
    case Acquire(_) =>
    case Release(_) =>
    case AddChannel(_) =>
    case Spawn(_) =>
    case Join(_) =>
  }

  lemma FitsAllowed(s: Sys, role: Role, op: Op)
    requires Fits(role, op)
    ensures Allowed(s, role, op)
  {
  }

  lemma RestAllowed(s: Sys, th: Thread, yes: bool, i: nat, op: Op)
    requires th.ops != [] && forall o :: o in th.ops ==> Allowed(s, th.role, o)
    requires op in Rest(s, th.ops[0], th.ops[1..], yes, i)
    ensures Allowed(s, th.role, op)
  {
    assert Allowed(s, th.role, th.ops[0]);
    if op in th.ops[1..] {
      assert op in th.ops;
    } else {
      RestFits(s, th.role, th.ops[0], th.ops[1..], yes, i, op);
      if Fits(th.role, op) { FitsAllowed(s, th.role, op); }
    }
  }

  lemma AllowedGrows(s: Sys, v: Sys, role: Role, op: Op)
    requires Allowed(s, role, op) && forall sess: nat :: CountChs(s, sess) <= CountChs(v, sess)
    ensures Allowed(v, role, op)
  {
  }

  lemma MoveRolesInv(s: Sys, t: nat, yes: bool, i: nat)
    requires RolesInv(s)
    ensures RolesInv(Move(s, t, yes, i))
  {
    if Enabled(s, t) {
      var v := Move(s, t, yes, i);
      var th := s.threads[t];
      forall sess: nat ensures CountChs(s, sess) <= CountChs(v, sess) {}
      forall u, op | 0 <= u < |v.threads| && op in v.threads[u].ops
        ensures Allowed(v, v.threads[u].role, op)
      {
        if u == t {
          RestAllowed(s, th, yes, i, op);
          AllowedGrows(s, v, th.role, op);
        } else if u == |s.threads| {
          assert Allowed(s, th.role, th.ops[0]) && op in th.ops[0].body;
          FitsAllowed(v, Goroutine, op);
        } else {
          AllowedGrows(s, v, s.threads[u].role, op);
        }
      }
      assert Allowed(s, th.role, th.ops[0]);
    }
  }

  lemma BeginInv(s: Sys, c: Call, inHandler: bool)
    requires Inv(s)
    ensures Inv(Next(s, Begin(c, inHandler)))
  {
    EveryOperationInOrder(c);
    ScriptFits(c, inHandler);
  }

  lemma InvNext(s: Sys, a: Action)
    requires Inv(s)
    ensures Inv(Next(s, a))
  {
    match a
    case Begin(c, inHandler) => BeginInv(s, c, inHandler);
    case Step(t, yes, i) =>
      MoveOrderInv(s, t, yes, i);
      MoveRolesInv(s, t, yes, i);
  }

  lemma {:induction false} InvRun(acts: seq<Action>)
    ensures Inv(Run(NewNode(), acts))
  {
    if acts != [] {
      InvRun(acts[..|acts| - 1]);
      InvNext(Run(NewNode(), acts[..|acts| - 1]), acts[|acts| - 1]);
    }
  }

  // ----- the sessions that were closed

  /** A call has closed session s, which then had n channels. */
  datatype Closing = Closing(s: nat, n: nat)

  /** The closing that a step makes, if it is the step in which a call of CloseSession goes through. */
  function ClosingBy(s: Sys, a: Action): seq<Closing> {
    if a.Step? && a.yes && Unfinished(s, a.t) && s.threads[a.t].ops[0].Decide?
       && s.threads[a.t].role == Called(CloseSession(s.threads[a.t].ops[0].s))
    then [Closing(s.threads[a.t].ops[0].s, s.threads[a.t].ops[0].n)]
    else []
  }

  function Closings(s: Sys, acts: seq<Action>): seq<Closing> {
    if acts == [] then []
    else Closings(s, acts[..|acts| - 1]) + ClosingBy(Run(s, acts[..|acts| - 1]), acts[|acts| - 1])
  }

  ghost predicate KeptBy(closings: seq<Closing>, l: Lock) {
    l.ChLock? && exists n :: Closing(l.s, n) in closings && l.i < n
  }

  lemma KeptNext(s: Sys, a: Action, closings: seq<Closing>, l: Lock)
    requires Inv(s) && (l in s.kept <==> KeptBy(closings, l))
    ensures l in Next(s, a).kept <==> KeptBy(closings + ClosingBy(s, a), l)
  {
    if a.Step? && a.yes && Unfinished(s, a.t) && s.threads[a.t].ops[0].Decide? {
      var op := s.threads[a.t].ops[0];
      assert Allowed(s, s.threads[a.t].role, op);
      assert Closing(op.s, op.n) in closings + ClosingBy(s, a);
    }
  }

  /** In every run, a lock is kept exactly if it is the lock of one of the channels that a session had
      when a call closed it. */
  lemma {:induction false} KeptExactlyByClosings(acts: seq<Action>, l: Lock)
    ensures l in Run(NewNode(), acts).kept <==> KeptBy(Closings(NewNode(), acts), l)
  {
    if acts != [] {
      var front := acts[..|acts| - 1];
      KeptExactlyByClosings(front, l);
      InvRun(front);
      KeptNext(Run(NewNode(), front), acts[|acts| - 1], Closings(NewNode(), front), l);
    }
  }

  /** What it means for the locks that no session was closed: none is kept, and no thread has yet to wait
      for a handler. */
  predicate NoneClosed(s: Sys) {
    s.kept == {} && forall t, op :: 0 <= t < |s.threads| && op in s.threads[t].ops ==> !op.Join?
  }

  lemma RestJoins(s: Sys, th: Thread, yes: bool, i: nat, op: Op)
    requires th.ops != [] && Allowed(s, th.role, th.ops[0])
    requires op in Rest(s, th.ops[0], th.ops[1..], yes, i) && op.Join?
    ensures op in th.ops || (th.ops[0].Decide? && yes)
  {
    if op !in th.ops[1..] {
      RestFits(s, th.role, th.ops[0], th.ops[1..], yes, i, op);
    }
  }

  lemma NoneClosedNext(s: Sys, a: Action)
    requires Inv(s) && NoneClosed(s) && ClosingBy(s, a) == []
    ensures NoneClosed(Next(s, a))
  {
    var v := Next(s, a);
    forall u, op | 0 <= u < |v.threads| && op in v.threads[u].ops ensures !op.Join? {
      if a.Begin? {
        ScriptFits(a.c, a.inHandler);
      } else if Enabled(s, a.t) {
        var th := s.threads[a.t];
        assert Allowed(s, th.role, th.ops[0]);
        if u == a.t && op.Join? {
          RestJoins(s, th, a.yes, a.i, op);
        } else if u == |s.threads| {
          assert Fits(Goroutine, op);
        }
      }
    }
    if a.Step? && Enabled(s, a.t) {
      assert Allowed(s, s.threads[a.t].role, s.threads[a.t].ops[0]);
    }
  }

  lemma {:induction false} NoneClosedRun(acts: seq<Action>)
    requires Closings(NewNode(), acts) == []
    ensures NoneClosed(Run(NewNode(), acts))
  {
    if acts != [] {
      NoneClosedRun(acts[..|acts| - 1]);
      InvRun(acts[..|acts| - 1]);
      NoneClosedNext(Run(NewNode(), acts[..|acts| - 1]), acts[|acts| - 1]);
    }
  }

  // ----- no deadlock

  predicate WaitsFor(s: Sys, t: nat, l: Lock) {
    Unfinished(s, t) && s.threads[t].ops[0] == Acquire(l)
  }

  /** A lock above which no lock of a set is. */
  lemma {:induction false} Highest(locks: set<Lock>) returns (m: Lock)
    requires locks != {}
    ensures m in locks && forall l :: l in locks ==> !Below(m, l)
    decreases locks
  {
    m :| m in locks;
    if locks != {m} {
      var h := Highest(locks - {m});
      if !Below(m, h) {
        forall l | l in locks ensures !Below(m, l) {
          if l != m { assert !Below(h, l); }
        }
      } else {
        forall l | l in locks ensures !Below(h, l) {
          if l == m { assert !Below(h, m); }
        }
        m := h;
      }
    }
  }

  function HeldBy(threads: seq<Thread>): set<Lock> {
    if threads == [] then {} else HeldBy(threads[..|threads| - 1]) + threads[|threads| - 1].held
  }

  lemma {:induction false} HeldBySome(threads: seq<Thread>, l: Lock)
    ensures l in HeldBy(threads) <==> exists t :: 0 <= t < |threads| && l in threads[t].held
  {
    if threads != [] {
      HeldBySome(threads[..|threads| - 1], l);
    }
  }

  /** A thread waiting at the top: either its lock is free or kept, or someone holds a higher one. */
  lemma WaiterAboveHeld(s: Sys, t: nat, l: Lock, m: Lock)
    requires Inv(s) && WaitsFor(s, t, l) && m in s.threads[t].held
    ensures Below(m, l)
  {
  }

  ghost predicate SomeoneCanStep(s: Sys) {
    exists t :: Enabled(s, t)
  }

  /** Some thread waits for the lock of a channel whose session has been closed. */
  ghost predicate SomeoneWaitsForKept(s: Sys) {
    exists t, l :: WaitsFor(s, t, l) && l in s.kept
  }

  /** Closing the session waits, holding the session's lock, for the session's handler, which is in a
      callback that waits for that lock. */
  predicate ClosingAndHandlerWait(s: Sys, t: nat, u: nat, sess: nat) {
    && Unfinished(s, t) && s.threads[t].ops[0] == Join(sess) && SessLock(sess) in s.threads[t].held
    && WaitsFor(s, u, SessLock(sess)) && s.threads[u].role == InHandler(sess)
  }

  ghost predicate SomeClosingAndHandlerWait(s: Sys) {
    exists t, u, sess :: ClosingAndHandlerWait(s, t, u, sess)
  }

  /** A set of all locks that threads hold, and one of them with none above it. */
  ghost predicate Top(s: Sys, locks: set<Lock>, m: Lock) {
    && (forall l :: l in locks <==> exists u :: 0 <= u < |s.threads| && l in s.threads[u].held)
    && (forall l :: l in locks ==> !Below(m, l))
  }

  /** A thread that cannot step, while no held lock is above one of its own, waits for a lock that was
      kept or for a handler. */
  lemma TopWaiter(s: Sys, t: nat, locks: set<Lock>, m: Lock)
    requires Inv(s) && !SomeoneCanStep(s) && Unfinished(s, t)
    requires Top(s, locks, m) && (locks == {} || m in s.threads[t].held)
    ensures SomeoneWaitsForKept(s) || SomeClosingAndHandlerWait(s)
  {
    assert !Enabled(s, t) && InOrder(s.threads[t]);
    if s.threads[t].ops[0].Join? {
      JoinWaiter(s, t, locks, m);
    } else {
      var l := s.threads[t].ops[0].l;
      assert WaitsFor(s, t, l);
      if locks != {} { WaiterAboveHeld(s, t, l, m); }
      assert l !in locks && !Free(s, l);
      assert l in s.kept;
    }
  }

  lemma JoinWaiter(s: Sys, t: nat, locks: set<Lock>, m: Lock)
    requires Inv(s) && !SomeoneCanStep(s) && Unfinished(s, t) && s.threads[t].ops[0].Join?
    requires Top(s, locks, m) && (locks == {} || m in s.threads[t].held)
    ensures SomeoneWaitsForKept(s) || SomeClosingAndHandlerWait(s)
  {
    var sess := s.threads[t].ops[0].s;
    assert !Enabled(s, t) && InOrder(s.threads[t]);
    assert s.threads[t].held == {SessLock(sess)};
    assert SessLock(sess) in locks;
    var u: nat :| u < |s.threads| && s.threads[u].role == InHandler(sess) && s.threads[u].ops != [];
    assert !Enabled(s, u) && Unfinished(s, u);
    assert Allowed(s, s.threads[u].role, s.threads[u].ops[0]);
    var l := s.threads[u].ops[0].l;
    assert WaitsFor(s, u, l) && HandlerLock(sess, l);
    if l !in s.kept {
      assert l in locks && !Below(SessLock(sess), l);
      assert ClosingAndHandlerWait(s, t, u, sess);
    }
  }

  /** In every reachable state, if some thread is unfinished, then some thread can step, unless a session
      was closed: then a thread may wait for the lock of one of its channels, or its closing and its
      handler for each other. */
  lemma StuckOnlyAfterClosing(acts: seq<Action>, t: nat)
    requires Unfinished(Run(NewNode(), acts), t)
    ensures var s := Run(NewNode(), acts);
      SomeoneCanStep(s) || SomeoneWaitsForKept(s) || SomeClosingAndHandlerWait(s)
  {
    InvRun(acts);
    StuckState(Run(NewNode(), acts), t);
  }

  lemma StuckState(s: Sys, t: nat)
    requires Inv(s) && Unfinished(s, t)
    ensures SomeoneCanStep(s) || SomeoneWaitsForKept(s) || SomeClosingAndHandlerWait(s)
  {
    if !SomeoneCanStep(s) {
      var locks := HeldBy(s.threads);
      forall l ensures l in locks <==> exists u :: 0 <= u < |s.threads| && l in s.threads[u].held {
        HeldBySome(s.threads, l);
      }
      if locks == {} {
        TopWaiter(s, t, locks, NodeLock);
      } else {
        var m := Highest(locks);
        var waiter: nat :| waiter < |s.threads| && m in s.threads[waiter].held;
        assert InOrder(s.threads[waiter]);
        TopWaiter(s, waiter, locks, m);
      }
    }
  }

  /** As long as no call has closed a session, there is no deadlock: in every reachable state with an
      unfinished thread, some thread can step. */
  lemma NoDeadlockWhileSessionsStayOpen(acts: seq<Action>, t: nat)
    requires Unfinished(Run(NewNode(), acts), t)
    requires Closings(NewNode(), acts) == []
    ensures SomeoneCanStep(Run(NewNode(), acts))
  {
    InvRun(acts);
    NoneClosedRun(acts);
    CanStepIfNoneClosed(Run(NewNode(), acts), t);
  }

  lemma CanStepIfNoneClosed(s: Sys, t: nat)
    requires Inv(s) && NoneClosed(s) && Unfinished(s, t)
    ensures SomeoneCanStep(s)
  {
    StuckState(s, t);
  }

  predicate AllFinished(s: Sys) {
    forall t :: 0 <= t < |s.threads| ==> s.threads[t].ops == []
  }
}
