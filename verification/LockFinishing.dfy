/** Without new calls only so many steps can follow: every thread finishes, however it is scheduled and
    however its operations turn out, unless a session is closed. */
module LockFinishing {
  import opened LockSpec
  import opened LockRuns

  // ----- what is left to do

  /** The channels that a program may still add. */
  function Adds(ops: seq<Op>): nat
    decreases ops
  {
    if ops == [] then 0 else AddsOp(ops[0]) + Adds(ops[1..])
  }

  function AddsOp(op: Op): nat
    decreases op
  {
    match op
    case AddChannel(_) => 1
    case Optional(body) => Adds(body)
    case Spawn(body) => Adds(body)
    case _ => 0
  }

  /** The most steps that a program and the goroutines it starts can make, where no session ever has more
      than k channels. */
  function Cost(k: nat, ops: seq<Op>): nat
    decreases ops
  {
    if ops == [] then 0 else CostOp(k, ops[0]) + Cost(k, ops[1..])
  }

  function CostOp(k: nat, op: Op): nat
    decreases op
  {
    match op
    case Optional(body) => 1 + Cost(k, body)
    case Spawn(body) => 1 + Cost(k, body)
    case EachChannel(_) => 1 + 2 * k
    case SomeChannel(_) => 3
    case LockAll(_) => 3 + 2 * k
    case Decide(_, n) => 2 + n
    case Acquire(_) => 1
    case Release(_) => 1
    case AddChannel(_) => 1
    case Join(_) => 1
  }

  lemma {:induction false} CostConcat(k: nat, a: seq<Op>, b: seq<Op>)
    ensures Cost(k, a + b) == Cost(k, a) + Cost(k, b) && Adds(a + b) == Adds(a) + Adds(b)
  {
    if a == [] {
      assert a + b == b;
    } else {
      CostConcat(k, a[1..], b);
      assert (a + b)[0] == a[0] && (a + b)[1..] == a[1..] + b;
    }
  }

  /** Acquiring and releasing costs one step each. */
  lemma {:induction false} CostOfLocks(k: nat, ops: seq<Op>)
    requires forall op :: op in ops ==> op.Acquire? || op.Release?
    ensures Cost(k, ops) == |ops| && Adds(ops) == 0
  {
    if ops != [] {
      CostOfLocks(k, ops[1..]);
    }
  }

  lemma {:induction false} OnlyLocks(s: nat, n: nat)
    ensures forall op :: op in Visits(s, n) || op in Takes(s, n) || op in Releases(s, n) ==> op.Acquire? || op.Release?
    ensures |Visits(s, n)| == 2 * n && |Takes(s, n)| == n && |Releases(s, n)| == n
  {
    if n > 0 {
      OnlyLocks(s, n - 1);
    }
  }

  lemma LocksThen(k: nat, ops: seq<Op>, tail: seq<Op>)
    requires forall op :: op in ops ==> op.Acquire? || op.Release?
    ensures Cost(k, ops + tail) == |ops| + Cost(k, tail) && Adds(ops + tail) == Adds(tail)
  {
    CostOfLocks(k, ops);
    CostConcat(k, ops, tail);
  }

  lemma OneThen(k: nat, op: Op, tail: seq<Op>)
    ensures Cost(k, [op] + tail) == CostOp(k, op) + Cost(k, tail) && Adds([op] + tail) == AddsOp(op) + Adds(tail)
  {
    assert ([op] + tail)[1..] == tail;
  }

  // ----- one step

  /** No session can come to have more than k channels. */
  ghost predicate AtMost(s: Sys, k: nat) {
    forall sess: nat :: CountChs(s, sess) + TotalAdds(s.threads) <= k
  }

  function Spawned(op: Op): seq<Op> {
    if op.Spawn? then op.body else []
  }

  /** Whatever an operation leaves open, it costs a step and adds no more channels than it may. */
  lemma RestCheaper(s: Sys, k: nat, ops: seq<Op>, yes: bool, i: nat)
    requires ops != [] && forall sess: nat :: CountChs(s, sess) <= k
    ensures var rest := Rest(s, ops[0], ops[1..], yes, i);
      && Cost(k, rest) + Cost(k, Spawned(ops[0])) < Cost(k, ops)
      && Adds(rest) + Adds(Spawned(ops[0])) + (if ops[0].AddChannel? then 1 else 0) <= Adds(ops)
  {
    var tail := ops[1..];
    match ops[0]
    case EachChannel(sess) => VisitsCost(k, sess, CountChs(s, sess), tail);
    case LockAll(sess) => LockAllCheaper(k, sess, CountChs(s, sess), tail);
    case Decide(sess, n) => DecideCosts(k, sess, n, tail);
    case SomeChannel(sess) => LocksThen(k, [Acquire(ChLock(sess, i)), Release(ChLock(sess, i))], tail);
    case Optional(body) => CostConcat(k, body, tail);
    case Acquire(_) =>
    case Release(_) =>
    case AddChannel(_) =>
    case Spawn(_) =>
    case Join(_) =>
  }

  lemma VisitsCost(k: nat, sess: nat, n: nat, tail: seq<Op>)
    ensures Cost(k, Visits(sess, n) + tail) == 2 * n + Cost(k, tail) && Adds(Visits(sess, n) + tail) == Adds(tail)
  {
    OnlyLocks(sess, n);
    LocksThen(k, Visits(sess, n), tail);
  }

  lemma DecideCosts(k: nat, sess: nat, n: nat, tail: seq<Op>)
    ensures Cost(k, Releases(sess, n) + tail) == n + Cost(k, tail) && Adds(Releases(sess, n) + tail) == Adds(tail)
    ensures Cost(k, [Join(sess)] + tail) == 1 + Cost(k, tail) && Adds([Join(sess)] + tail) == Adds(tail)
  {
    OnlyLocks(sess, n);
    LocksThen(k, Releases(sess, n), tail);
    OneThen(k, Join(sess), tail);
  }

  lemma LockAllCheaper(k: nat, sess: nat, n: nat, tail: seq<Op>)
    requires n <= k
    ensures Cost(k, Takes(sess, n) + ([Decide(sess, n)] + tail)) < 3 + 2 * k + Cost(k, tail)
    ensures Adds(Takes(sess, n) + ([Decide(sess, n)] + tail)) == Adds(tail)
  {
    OnlyLocks(sess, n);
    LocksThen(k, Takes(sess, n), [Decide(sess, n)] + tail);
    OneThen(k, Decide(sess, n), tail);
  }

  function TotalCost(k: nat, threads: seq<Thread>): nat {
    if threads == [] then 0
    else TotalCost(k, threads[..|threads| - 1]) + Cost(k, threads[|threads| - 1].ops)
  }

  function TotalAdds(threads: seq<Thread>): nat {
    if threads == [] then 0 else TotalAdds(threads[..|threads| - 1]) + Adds(threads[|threads| - 1].ops)
  }

  lemma {:induction false} TotalsUpdate(k: nat, threads: seq<Thread>, t: nat, th: Thread)
    requires t < |threads|
    ensures TotalCost(k, threads[t := th]) == TotalCost(k, threads) - Cost(k, threads[t].ops) + Cost(k, th.ops)
    ensures TotalAdds(threads[t := th]) == TotalAdds(threads) - Adds(threads[t].ops) + Adds(th.ops)
  {
    var n := |threads| - 1;
    if t == n {
      assert threads[t := th][..n] == threads[..n];
    } else {
      TotalsUpdate(k, threads[..n], t, th);
      assert threads[t := th][..n] == threads[..n][t := th];
    }
  }

  lemma TotalsSnoc(k: nat, threads: seq<Thread>, th: Thread)
    ensures TotalCost(k, threads + [th]) == TotalCost(k, threads) + Cost(k, th.ops)
    ensures TotalAdds(threads + [th]) == TotalAdds(threads) + Adds(th.ops)
  {
    assert (threads + [th])[..|threads|] == threads;
  }

  lemma StepTotals(s: Sys, k: nat, t: nat, yes: bool, i: nat)
    requires Enabled(s, t) && forall sess: nat :: CountChs(s, sess) <= k
    ensures var v := Move(s, t, yes, i);
      && TotalCost(k, v.threads) < TotalCost(k, s.threads)
      && TotalAdds(v.threads) + (if s.threads[t].ops[0].AddChannel? then 1 else 0) <= TotalAdds(s.threads)
  {
    var th := s.threads[t];
    var op := th.ops[0];
    var next := Thread(th.role, HeldAfter(th.held, op, yes), Rest(s, op, th.ops[1..], yes, i));
    RestCheaper(s, k, th.ops, yes, i);
    TotalsUpdate(k, s.threads, t, next);
    if op.Spawn? {
      TotalsSnoc(k, s.threads[t := next], Thread(Goroutine, {}, op.body));
    }
  }

  lemma CountMoved(s: Sys, t: nat, yes: bool, i: nat, sess: nat)
    requires Enabled(s, t)
    ensures CountChs(Move(s, t, yes, i), sess) <= CountChs(s, sess) + if s.threads[t].ops[0].AddChannel? then 1 else 0
  {
  }

  lemma StepCheaper(s: Sys, k: nat, t: nat, yes: bool, i: nat)
    requires Enabled(s, t) && AtMost(s, k)
    ensures AtMost(Move(s, t, yes, i), k) && TotalCost(k, Move(s, t, yes, i).threads) < TotalCost(k, s.threads)
  {
    var v := Move(s, t, yes, i);
    forall sess: nat ensures CountChs(s, sess) <= k {
      assert CountChs(s, sess) + TotalAdds(s.threads) <= k;
    }
    StepTotals(s, k, t, yes, i);
    forall sess: nat ensures CountChs(v, sess) + TotalAdds(v.threads) <= k {
      assert CountChs(s, sess) + TotalAdds(s.threads) <= k;
      CountMoved(s, t, yes, i, sess);
    }
  }

  // ----- runs

  /** Steps of threads that can step, with any outcomes and without new calls. */
  predicate EnabledSteps(s: Sys, acts: seq<Action>) {
    forall k :: 0 <= k < |acts| ==> acts[k].Step? && Enabled(Run(s, acts[..k]), acts[k].t)
  }

  lemma {:induction false} StepsBounded(s: Sys, k: nat, acts: seq<Action>)
    requires AtMost(s, k) && EnabledSteps(s, acts)
    ensures AtMost(Run(s, acts), k)
    ensures |acts| + TotalCost(k, Run(s, acts).threads) <= TotalCost(k, s.threads)
  {
    if acts != [] {
      var front, last := acts[..|acts| - 1], acts[|acts| - 1];
      forall j | 0 <= j < |front| ensures front[j].Step? && Enabled(Run(s, front[..j]), front[j].t) {
        assert front[..j] == acts[..j] && front[j] == acts[j];
      }
      StepsBounded(s, k, front);
      StepCheaper(Run(s, front), k, last.t, last.yes, last.i);
    }
  }

  lemma {:induction false} ChannelsBounded(acts: seq<Action>) returns (k: nat)
    ensures AtMost(Run(NewNode(), acts), k)
  {
    if acts == [] {
      k := 0;
    } else {
      var front, last := acts[..|acts| - 1], acts[|acts| - 1];
      var s := Run(NewNode(), front);
      k := ChannelsBounded(front);
      match last
      case Begin(c, inHandler) =>
        TotalsSnoc(k, s.threads, Thread(RoleOf(c, inHandler), {}, Script(c)));
        k := BoundAfter(s, last, k);
      case Step(t, yes, i) => if Enabled(s, t) { StepCheaper(s, k, t, yes, i); }
    }
  }

  lemma BoundAfter(s: Sys, begin: Action, k: nat) returns (m: nat)
    requires AtMost(s, k) && begin.Begin?
    ensures AtMost(Next(s, begin), m)
  {
    var th := Thread(RoleOf(begin.c, begin.inHandler), {}, Script(begin.c));
    TotalsSnoc(k, s.threads, th);
    m := k + Adds(th.ops);
    forall sess: nat ensures CountChs(Next(s, begin), sess) + TotalAdds(Next(s, begin).threads) <= m {
      assert CountChs(s, sess) + TotalAdds(s.threads) <= k;
    }
  }

  /** After any run only so many steps can follow without a new call, whatever the schedule and the
      outcomes; and if none of them closes a session, then when no step is left all threads have finished. */
  lemma EveryRunFinishes(acts: seq<Action>) returns (bound: nat)
    ensures forall more :: EnabledSteps(Run(NewNode(), acts), more) ==>
      var s := Run(NewNode(), acts + more);
      && |more| <= bound
      && (Closings(NewNode(), acts + more) == [] && !SomeoneCanStep(s) ==> AllFinished(s))
  {
    var k := ChannelsBounded(acts);
    bound := TotalCost(k, Run(NewNode(), acts).threads);
    forall more | EnabledSteps(Run(NewNode(), acts), more)
      ensures var s := Run(NewNode(), acts + more);
        && |more| <= bound
        && (Closings(NewNode(), acts + more) == [] && !SomeoneCanStep(s) ==> AllFinished(s))
    {
      StepsBounded(Run(NewNode(), acts), k, more);
      StuckOnlyIfFinished(acts + more);
    }
  }

  lemma StuckOnlyIfFinished(acts: seq<Action>)
    ensures var s := Run(NewNode(), acts);
      Closings(NewNode(), acts) == [] && !SomeoneCanStep(s) ==> AllFinished(s)
  {
    var s := Run(NewNode(), acts);
    if Closings(NewNode(), acts) == [] && !AllFinished(s) {
      var t: nat :| t < |s.threads| && s.threads[t].ops != [];
      NoDeadlockWhileSessionsStayOpen(acts, t);
    }
  }

  lemma {:induction false} FinishAll(s: Sys, k: nat) returns (acts: seq<Action>)
    requires Inv(s) && NoneClosed(s) && AtMost(s, k)
    ensures EnabledSteps(s, acts) && AllFinished(Run(s, acts))
    decreases TotalCost(k, s.threads)
  {
    if AllFinished(s) {
      acts := [];
    } else {
      var t: nat :| t < |s.threads| && s.threads[t].ops != [];
      assert Unfinished(s, t);
      CanStepIfNoneClosed(s, t);
      var u: nat :| Enabled(s, u);
      var step := Step(u, false, 0);
      StepCheaper(s, k, u, false, 0);
      InvNext(s, step);
      NoneClosedNext(s, step);
      var rest := FinishAll(Next(s, step), k);
      acts := [step] + rest;
      StepFirst(s, step, rest);
    }
  }

  lemma StepFirst(s: Sys, step: Action, rest: seq<Action>)
    requires step.Step? && Enabled(s, step.t) && EnabledSteps(Next(s, step), rest)
    ensures EnabledSteps(s, [step] + rest) && Run(s, [step] + rest) == Run(Next(s, step), rest)
  {
    RunOne(s, step);
    RunConcat(s, [step], rest);
    var acts := [step] + rest;
    forall j | 0 <= j < |acts| ensures acts[j].Step? && Enabled(Run(s, acts[..j]), acts[j].t) {
      if j > 0 {
        assert acts[..j] == [step] + rest[..j - 1] && acts[j] == rest[j - 1];
        RunConcat(s, [step], rest[..j - 1]);
      }
    }
  }

  /** As long as no call has closed a session, some such run takes all threads to their end. */
  lemma EveryThreadCanFinish(acts: seq<Action>)
    requires Closings(NewNode(), acts) == []
    ensures exists more :: EnabledSteps(Run(NewNode(), acts), more) && AllFinished(Run(NewNode(), acts + more))
  {
    InvRun(acts);
    NoneClosedRun(acts);
    var k := ChannelsBounded(acts);
    var more := FinishAll(Run(NewNode(), acts), k);
    RunConcat(NewNode(), acts, more);
  }
}
