/** What closing a session does to the other operations: exactly who then waits forever. */
module LockClosing {
  import opened LockSpec
  import opened LockRuns

  // ----- one thread running on

  /** What n steps of thread t lead to. */
  function Through(s: Sys, t: nat, n: nat): Sys
    decreases n
  {
    if n == 0 then s else Through(Move(s, t, true, 0), t, n - 1)
  }

  /** Steps of thread t lead from s to v. */
  ghost predicate Leads(s: Sys, t: nat, v: Sys) {
    exists k: nat :: LeadsIn(s, t, v, k)
  }

  ghost predicate LeadsIn(s: Sys, t: nat, v: Sys, k: nat) {
    forall n: nat :: Through(s, t, k + n) == Through(v, t, n)
  }

  lemma LeadsSelf(s: Sys, t: nat)
    ensures Leads(s, t, s)
  {
    assert LeadsIn(s, t, s, 0);
  }

  /** Thread t is about to go on as th. */
  predicate GoesOn(s: Sys, t: nat, th: Thread) {
    && Enabled(s, t) && !s.threads[t].ops[0].Spawn? && th.role == s.threads[t].role
    && th.held == HeldAfter(s.threads[t].held, s.threads[t].ops[0], true)
    && th.ops == Rest(s, s.threads[t].ops[0], s.threads[t].ops[1..], true, 0)
  }

  /** A step more. */
  lemma GoOn(s0: Sys, s: Sys, t: nat, th: Thread) returns (v: Sys)
    requires Leads(s0, t, s) && GoesOn(s, t, th)
    ensures var op := s.threads[t].ops[0];
      v == Sys(s.threads[t := th],
               if op.AddChannel? then s.channels[op.s := CountChs(s, op.s) + 1] else s.channels,
               if op.Decide? then s.kept + ChRange(op.s, 0, op.n) else s.kept)
    ensures Leads(s0, t, v)
  {
    v := Move(s, t, true, 0);
    var k: nat :| LeadsIn(s0, t, s, k);
    forall n: nat ensures Through(s0, t, (k + 1) + n) == Through(v, t, n) {
      assert Through(s0, t, k + (n + 1)) == Through(s, t, n + 1);
    }
    assert LeadsIn(s0, t, v, k + 1);
  }

  /** The steps of thread t, as actions of a run. */
  lemma {:induction false} ThroughIsRun(s: Sys, acts: seq<Action>, t: nat, n: nat) returns (more: seq<Action>)
    ensures Run(s, more) == Through(Run(s, acts), t, n)
    decreases n
  {
    if n == 0 {
      more := acts;
    } else {
      assert (acts + [Step(t, true, 0)])[..|acts|] == acts;
      more := ThroughIsRun(s, acts + [Step(t, true, 0)], t, n - 1);
    }
  }

  lemma LeadsIsRun(s: Sys, acts: seq<Action>, t: nat, v: Sys) returns (more: seq<Action>)
    requires Leads(Run(s, acts), t, v)
    ensures Run(s, more) == v
  {
    var k: nat :| LeadsIn(Run(s, acts), t, v, k);
    more := ThroughIsRun(s, acts, t, k);
    assert Through(Run(s, acts), t, k + 0) == Through(v, t, 0);
  }

  // ----- the locks that a closed session keeps

  /** A thread that waits for a kept lock waits forever, and what it holds is never free again. */
  lemma {:induction false} WaitsForever(s: Sys, t: nat, l: Lock, acts: seq<Action>)
    requires WaitsFor(s, t, l) && l in s.kept
    ensures var v := Run(s, acts);
      && t < |v.threads| && v.threads[t] == s.threads[t] && l in v.kept
      && WaitsFor(v, t, l) && !Enabled(v, t)
      && forall h :: h in s.threads[t].held ==> !Free(v, h)
  {
    if acts != [] {
      WaitsForever(s, t, l, acts[..|acts| - 1]);
    }
  }

  /** Asking for the channel infos of a session that was closed with a channel: whenever the session's
      lock is free, three steps lead to a state from which, in every continuation, the call never
      returns and the session's lock is never free again. */
  lemma ChsInfoOfClosedSessionNeverReturns(s: Sys, sess: nat, later: seq<Action>)
    requires ChLock(sess, 0) in s.kept && CountChs(s, sess) > 0 && Free(s, SessLock(sess))
    ensures var t := |s.threads|;
      var v := Next(Next(Next(s, Begin(GetChsInfo(sess), false)), Step(t, true, 0)), Step(t, true, 0));
      && WaitsFor(Run(v, later), t, ChLock(sess, 0))
      && !Free(Run(v, later), SessLock(sess))
  {
    var t, n := |s.threads|, CountChs(s, sess);
    var v := AtTheChannels(s, sess);
    FirstVisit(sess, n);
    assert WaitsFor(v, t, ChLock(sess, 0));
    WaitsForever(v, t, ChLock(sess, 0), later);
  }

  /** The call has taken the session's lock and goes through the channels next. */
  lemma AtTheChannels(s: Sys, sess: nat) returns (v: Sys)
    requires Free(s, SessLock(sess))
    ensures var t := |s.threads|;
      v == Next(Next(Next(s, Begin(GetChsInfo(sess), false)), Step(t, true, 0)), Step(t, true, 0))
    ensures v == s.(threads := s.threads + [Thread(Called(GetChsInfo(sess)), {SessLock(sess)},
                                                   Visits(sess, CountChs(s, sess)) + [Release(SessLock(sess))])])
  {
    var t, ops := |s.threads|, Script(GetChsInfo(sess));
    var s0 := Next(s, Begin(GetChsInfo(sess), false));
    assert s0.threads[t] == Thread(Called(GetChsInfo(sess)), {}, ops);
    assert ops[0] == Acquire(SessLock(sess)) && ops[1..] == [EachChannel(sess), Release(SessLock(sess))];
    var s1 := Next(s0, Step(t, true, 0));
    assert s1.threads[t] == Thread(Called(GetChsInfo(sess)), {SessLock(sess)}, ops[1..]);
    v := Next(s1, Step(t, true, 0));
    assert ops[1..][1..] == [Release(SessLock(sess))];
    assert v.threads[t].ops == Visits(sess, CountChs(s, sess)) + [Release(SessLock(sess))];
    assert v.threads == s.threads + [v.threads[t]];
  }

  lemma {:induction false} FirstVisit(s: nat, n: nat)
    requires n > 0
    ensures |Visits(s, n)| > 0 && Visits(s, n)[0] == Acquire(ChLock(s, 0))
  {
    if n > 1 {
      FirstVisit(s, n - 1);
    }
  }

  // ----- such states are reached

  function AboutToAdd(): Sys {
    var adding := [Optional(Locked(SessLock(0), [AddChannel(0)]))];
    Sys([Thread(Called(RespondChProposal(0, 0)), {}, adding)], map[], {})
  }

  /** A response to a proposal, which opens a channel of session 0 and returns. */
  lemma ResponseTakes(s: Sys) returns (v: Sys)
    requires s == Next(NewNode(), Begin(RespondChProposal(0, 0), false))
    ensures v == AboutToAdd()
    ensures Leads(s, 0, v)
  {
    var role, l := Called(RespondChProposal(0, 0)), SessLock(0);
    var add := Optional(Locked(l, [AddChannel(0)]));
    var accept := Optional(Repeat(Use(ContractsLock), 0) + [add]);
    LeadsSelf(s, 0);
    v := GoOn(s, s, 0, Thread(role, {}, [Acquire(l), Release(l), accept]));
    v := GoOn(s, v, 0, Thread(role, {l}, [Release(l), accept]));
    v := GoOn(s, v, 0, Thread(role, {}, [accept]));
    v := GoOn(s, v, 0, Thread(role, {}, [add]));
  }

  lemma ResponseAdds(s0: Sys, s: Sys) returns (v: Sys)
    requires s == AboutToAdd()
    requires Leads(s0, 0, s)
    ensures v == Sys([Thread(Called(RespondChProposal(0, 0)), {}, [])], map[0 := 1], {})
    ensures Leads(s0, 0, v)
  {
    var role, l := Called(RespondChProposal(0, 0)), SessLock(0);
    v := GoOn(s0, s, 0, Thread(role, {}, [Acquire(l), AddChannel(0), Release(l)]));
    v := GoOn(s0, v, 0, Thread(role, {l}, [AddChannel(0), Release(l)]));
    v := GoOn(s0, v, 0, Thread(role, {l}, [Release(l)]));
    v := GoOn(s0, v, 0, Thread(role, {}, []));
  }

  lemma SessionWithAChannel() returns (acts: seq<Action>)
    ensures Run(NewNode(), acts) == Sys([Thread(Called(RespondChProposal(0, 0)), {}, [])], map[0 := 1], {})
  {
    var begin := Begin(RespondChProposal(0, 0), false);
    RunOne(NewNode(), begin);
    var s := Next(NewNode(), begin);
    var v := ResponseTakes(s);
    v := ResponseAdds(s, v);
    acts := LeadsIsRun(NewNode(), [begin], 0, v);
  }

  predicate AllFree(s: Sys, sess: nat) {
    Free(s, SessLock(sess)) && forall i :: 0 <= i < CountChs(s, sess) ==> Free(s, ChLock(sess, i))
  }

  /** A new call takes no locks. */
  lemma FreeNext(s: Sys, sess: nat, begin: Action)
    requires AllFree(s, sess) && begin.Begin?
    ensures AllFree(Next(s, begin), sess) && CountChs(Next(s, begin), sess) == CountChs(s, sess)
  {
    forall i | 0 <= i < CountChs(s, sess) ensures Free(Next(s, begin), ChLock(sess, i)) {
      assert Free(s, ChLock(sess, i));
    }
  }

  /** A closing takes the channels' locks if they are free. */
  lemma {:induction false} TakesPass(s0: Sys, s: Sys, t: nat, sess: nat, n: nat, rest: seq<Op>) returns (v: Sys)
    requires t < |s.threads| && s.threads[t].ops == Takes(sess, n) + rest && Leads(s0, t, s)
    requires forall i :: 0 <= i < n ==> Free(s, ChLock(sess, i))
    ensures v == s.(threads := s.threads[t := Thread(s.threads[t].role, s.threads[t].held + ChRange(sess, 0, n), rest)])
    ensures Leads(s0, t, v)
  {
    var th := s.threads[t];
    if n == 0 {
      assert Takes(sess, n) + rest == rest;
      assert th.held + ChRange(sess, 0, n) == th.held;
      assert s.threads[t := Thread(th.role, th.held + ChRange(sess, 0, n), rest)] == s.threads;
      v := s;
    } else {
      var l := ChLock(sess, n - 1);
      assert Takes(sess, n) + rest == Takes(sess, n - 1) + ([Acquire(l)] + rest);
      v := TakesPass(s0, s, t, sess, n - 1, [Acquire(l)] + rest);
      assert Free(s, l) && Free(v, l);
      assert th.held + ChRange(sess, 0, n) == v.threads[t].held + {l};
      v := GoOn(s0, v, t, Thread(th.role, th.held + ChRange(sess, 0, n), rest));
    }
  }

  /** A closing that is about to keep the locks of the session's channels. */
  function Deciding(s: Sys, sess: nat): Thread {
    var n := CountChs(s, sess);
    Thread(Called(CloseSession(sess)), {SessLock(sess)} + ChRange(sess, 0, n),
           [Decide(sess, n), Release(SessLock(sess))])
  }

  lemma ClosingDecides(s: Sys, t: nat, sess: nat) returns (v: Sys)
    requires t < |s.threads| && s.threads[t] == Thread(Called(CloseSession(sess)), {}, Script(CloseSession(sess)))
    requires AllFree(s, sess)
    ensures v == s.(threads := s.threads[t := Deciding(s, sess)])
    ensures Leads(s, t, v)
  {
    var n, role, l := CountChs(s, sess), Called(CloseSession(sess)), SessLock(sess);
    var rest := [Decide(sess, n)] + [Release(l)];
    LeadsSelf(s, t);
    v := GoOn(s, s, t, Thread(role, {l}, [Optional([LockAll(sess)]), Release(l)]));
    v := GoOn(s, v, t, Thread(role, {l}, [LockAll(sess), Release(l)]));
    v := GoOn(s, v, t, Thread(role, {l}, Takes(sess, n) + rest));
    forall i | 0 <= i < n ensures Free(v, ChLock(sess, i)) {
      assert Free(s, ChLock(sess, i));
    }
    v := TakesPass(s, v, t, sess, n, rest);
    assert rest == [Decide(sess, n), Release(l)];
  }

  lemma ClosingEnds(s0: Sys, s: Sys, t: nat, sess: nat) returns (v: Sys)
    requires t < |s.threads| && s.threads[t] == Deciding(s, sess) && HandlerIdle(s, sess) && Leads(s0, t, s)
    ensures v == Sys(s.threads[t := Thread(Called(CloseSession(sess)), {}, [])], s.channels,
                     s.kept + ChRange(sess, 0, CountChs(s, sess)))
    ensures Leads(s0, t, v)
  {
    var n, role, l := CountChs(s, sess), Called(CloseSession(sess)), SessLock(sess);
    assert s.threads[t].held - ChRange(sess, 0, n) == {l};
    v := GoOn(s0, s, t, Thread(role, {l}, [Join(sess), Release(l)]));
    v := GoOn(s0, v, t, Thread(role, {l}, [Release(l)]));
    v := GoOn(s0, v, t, Thread(role, {}, []));
  }

  /** Whenever the session's lock and those of its channels are free, and no callback is under way in its
      handler, a call that closes the session can go through and return: it keeps the channels' locks. */
  lemma ClosingGoesThrough(s: Sys, sess: nat) returns (acts: seq<Action>)
    requires AllFree(s, sess) && HandlerIdle(s, sess)
    ensures Run(s, acts) == Sys(s.threads + [Thread(Called(CloseSession(sess)), {}, [])], s.channels,
                                s.kept + ChRange(sess, 0, CountChs(s, sess)))
  {
    var t, begin := |s.threads|, Begin(CloseSession(sess), false);
    var s0 := Next(s, begin);
    RunOne(s, begin);
    FreeNext(s, sess, begin);
    var v := ClosingDecides(s0, t, sess);
    v := ClosingEnds(s0, v, t, sess);
    assert v.threads == s.threads + [Thread(Called(CloseSession(sess)), {}, [])];
    acts := LeadsIsRun(s, [begin], t, v);
  }

  /** A response opens a channel of session 0, a call closes that session, and both return: the channel's
      lock is kept. */
  lemma ClosedSessionIsReached() returns (acts: seq<Action>)
    ensures var s := Run(NewNode(), acts);
      && (exists n :: n > 0 && Closing(0, n) in Closings(NewNode(), acts)) && AllFinished(s)
      && ChLock(0, 0) in s.kept && CountChs(s, 0) == 1 && Free(s, SessLock(0))
  {
    var opening := SessionWithAChannel();
    var closing := ClosingGoesThrough(Run(NewNode(), opening), 0);
    acts := opening + closing;
    RunConcat(NewNode(), opening, closing);
    KeptExactlyByClosings(acts, ChLock(0, 0));
  }

  // ----- when asking for the channel infos returns

  predicate Returned(s: Sys, t: nat) {
    t < |s.threads| && s.threads[t].ops == []
  }

  /** A call made now returns if it and the other threads are scheduled suitably. */
  ghost predicate CanReturn(s: Sys, c: Call) {
    exists later :: Returned(Run(Next(s, Begin(c, false)), later), |s.threads|)
  }

  /** A thread about to visit channels whose locks are free can get past them. */
  lemma {:induction false} VisitsPass(s0: Sys, s: Sys, t: nat, sess: nat, n: nat, rest: seq<Op>) returns (v: Sys)
    requires t < |s.threads| && s.threads[t].ops == Visits(sess, n) + rest && Leads(s0, t, s)
    requires forall i :: 0 <= i < n ==> Free(s, ChLock(sess, i))
    ensures v == s.(threads := s.threads[t := s.threads[t].(ops := rest)]) && Leads(s0, t, v)
  {
    var th := s.threads[t];
    if n == 0 {
      assert Visits(sess, n) + rest == rest;
      assert s.threads[t := th.(ops := rest)] == s.threads;
      v := s;
    } else {
      var l := ChLock(sess, n - 1);
      var two := [Acquire(l), Release(l)];
      assert Visits(sess, n) + rest == Visits(sess, n - 1) + (two + rest);
      v := VisitsPass(s0, s, t, sess, n - 1, two + rest);
      assert Free(s, l) && Free(v, l);
      v := GoOn(s0, v, t, Thread(th.role, th.held + {l}, [Release(l)] + rest));
      assert th.held + {l} - {l} == th.held;
      v := GoOn(s0, v, t, th.(ops := rest));
    }
  }

  lemma RunTwo(s: Sys, a: Action, b: Action)
    ensures Run(s, [a, b]) == Next(Next(s, a), b)
  {
    assert [a, b][..1] == [a];
    RunOne(s, a);
  }

  lemma ChsInfoReturns(s: Sys, sess: nat)
    requires AllFree(s, sess)
    ensures CanReturn(s, GetChsInfo(sess))
  {
    var t, n, role, l := |s.threads|, CountChs(s, sess), Called(GetChsInfo(sess)), SessLock(sess);
    var begin := Begin(GetChsInfo(sess), false);
    var s0 := Next(s, begin);
    FreeNext(s, sess, begin);
    LeadsSelf(s0, t);
    var v := GoOn(s0, s0, t, Thread(role, {l}, [EachChannel(sess), Release(l)]));
    v := GoOn(s0, v, t, Thread(role, {l}, Visits(sess, n) + [Release(l)]));
    forall i | 0 <= i < n ensures Free(v, ChLock(sess, i)) {
      assert Free(s0, ChLock(sess, i));
    }
    v := VisitsPass(s0, v, t, sess, n, [Release(l)]);
    v := GoOn(s0, v, t, Thread(role, {}, []));
    var later := LeadsIsRun(s0, [], t, v);
    assert Returned(Run(s0, later), t);
  }

  /** Thread t cannot get to its end without the lock of channel i of the session, which is kept. */
  predicate MustTake(s: Sys, t: nat, sess: nat, i: nat) {
    && t < |s.threads| && ChLock(sess, i) in s.kept && i < CountChs(s, sess)
    && (Acquire(ChLock(sess, i)) in s.threads[t].ops || EachChannel(sess) in s.threads[t].ops)
  }

  lemma {:induction false} VisitsEach(s: nat, n: nat, i: nat)
    requires i < n
    ensures Acquire(ChLock(s, i)) in Visits(s, n)
  {
    if i < n - 1 {
      VisitsEach(s, n - 1, i);
    }
  }

  lemma MustTakeNext(s: Sys, t: nat, sess: nat, i: nat, a: Action)
    requires MustTake(s, t, sess, i)
    ensures MustTake(Next(s, a), t, sess, i)
  {
    if a.Step? && a.t == t && Enabled(s, t) {
      VisitsEach(sess, CountChs(s, sess), i);
      var ops := s.threads[t].ops;
      assert forall op :: op in ops && op != ops[0] ==> op in ops[1..];
      assert forall op :: op in ops[1..] ==> op in Next(s, a).threads[t].ops;
    }
  }

  lemma {:induction false} MustTakeRun(s: Sys, t: nat, sess: nat, i: nat, acts: seq<Action>)
    requires MustTake(s, t, sess, i)
    ensures MustTake(Run(s, acts), t, sess, i)
  {
    if acts != [] {
      MustTakeRun(s, t, sess, i, acts[..|acts| - 1]);
      MustTakeNext(Run(s, acts[..|acts| - 1]), t, sess, i, acts[|acts| - 1]);
    }
  }

  /** Where the session's lock and those of its channels are free or kept, asking for the channel infos
      can return exactly if none of the channels' locks is kept. */
  lemma ChsInfoReturnsIff(s: Sys, sess: nat)
    requires Free(s, SessLock(sess))
    requires forall i :: 0 <= i < CountChs(s, sess) ==> Free(s, ChLock(sess, i)) || ChLock(sess, i) in s.kept
    ensures CanReturn(s, GetChsInfo(sess)) <==>
      forall i :: 0 <= i < CountChs(s, sess) ==> ChLock(sess, i) !in s.kept
  {
    if i: nat :| i < CountChs(s, sess) && ChLock(sess, i) in s.kept {
      var s0 := Next(s, Begin(GetChsInfo(sess), false));
      assert EachChannel(sess) in s0.threads[|s.threads|].ops by {
        assert Script(GetChsInfo(sess))[1] == EachChannel(sess);
      }
      forall later ensures !Returned(Run(s0, later), |s.threads|) {
        MustTakeRun(s0, |s.threads|, sess, i, later);
      }
    } else {
      ChsInfoReturns(s, sess);
    }
  }

  /** After any run whose threads have all finished: asking a session for its channel infos can return
      exactly if no call of the run closed that session while it had a channel. */
  lemma ChsInfoReturnsUnlessClosed(acts: seq<Action>, sess: nat)
    requires AllFinished(Run(NewNode(), acts))
    ensures CanReturn(Run(NewNode(), acts), GetChsInfo(sess)) <==>
      forall n :: Closing(sess, n) in Closings(NewNode(), acts) ==> n == 0
  {
    var s := Run(NewNode(), acts);
    InvRun(acts);
    forall t | 0 <= t < |s.threads| ensures s.threads[t].held == {} {
      assert InOrder(s.threads[t]);
    }
    KeptExactlyByClosings(acts, SessLock(sess));
    forall i: nat ensures ChLock(sess, i) in s.kept <==> KeptBy(Closings(NewNode(), acts), ChLock(sess, i)) {
      KeptExactlyByClosings(acts, ChLock(sess, i));
    }
    ChsInfoReturnsIff(s, sess);
    if n :| Closing(sess, n) in Closings(NewNode(), acts) && n != 0 {
      assert KeptBy(Closings(NewNode(), acts), ChLock(sess, 0));
      assert ChLock(sess, 0) in s.kept;
    }
  }

  // ----- the wait for the handler

  /** A closing and a callback that wait for each other wait forever. */
  lemma {:induction false} ClosingAndHandlerWaitForever(s: Sys, t: nat, u: nat, sess: nat, acts: seq<Action>)
    requires ClosingAndHandlerWait(s, t, u, sess)
    ensures var v := Run(s, acts);
      && ClosingAndHandlerWait(v, t, u, sess) && v.threads[t] == s.threads[t] && v.threads[u] == s.threads[u]
      && !Enabled(v, t) && !Enabled(v, u) && !Free(v, SessLock(sess))
  {
    if acts != [] {
      ClosingAndHandlerWaitForever(s, t, u, sess, acts[..|acts| - 1]);
    }
  }

  /** It can happen whenever the locks that a closing takes are free, as in a new node: a callback that
      runs in the handler's goroutine comes to wait for the session's lock, and the closing for the
      callback. No channel is needed. */
  lemma ClosingAndHandlerWaitIsReached(s: Sys, sess: nat) returns (acts: seq<Action>)
    requires AllFree(s, sess)
    ensures ClosingAndHandlerWait(Run(s, acts), |s.threads| + 1, |s.threads|, sess)
  {
    var t, l := |s.threads| + 1, SessLock(sess);
    var callback, begin := Begin(SessionHandleUpdate(sess, 0), true), Begin(CloseSession(sess), false);
    var s1 := Next(s, callback);
    var s2 := Next(s1, begin);
    RunTwo(s, callback, begin);
    FreeNext(s, sess, callback);
    FreeNext(s1, sess, begin);
    assert Script(SessionHandleUpdate(sess, 0))[0] == Acquire(l);
    assert s1.threads[t - 1].ops[0] == Acquire(l) && s1.threads[t - 1].role == InHandler(sess);
    var v := ClosingDecides(s2, t, sess);
    assert v.threads[t].held - ChRange(sess, 0, CountChs(s, sess)) == {l};
    v := GoOn(s2, v, t, Thread(Called(CloseSession(sess)), {l}, [Join(sess), Release(l)]));
    acts := LeadsIsRun(s, [callback, begin], t, v);
  }

  /** The library runs every callback in a goroutine of its own. */
  predicate OwnGoroutines(acts: seq<Action>) {
    forall k :: 0 <= k < |acts| && acts[k].Begin? ==> !acts[k].inHandler
  }

  lemma {:induction false} NobodyInHandlers(acts: seq<Action>)
    requires OwnGoroutines(acts)
    ensures forall t :: 0 <= t < |Run(NewNode(), acts).threads| ==> !Run(NewNode(), acts).threads[t].role.InHandler?
  {
    if acts != [] {
      NobodyInHandlers(acts[..|acts| - 1]);
    }
  }

  /** If every callback runs in a goroutine of its own, the only thing to wait for forever is the lock of
      a channel of a closed session. */
  lemma StuckOnlyOnKeptLocks(acts: seq<Action>, t: nat)
    requires OwnGoroutines(acts) && Unfinished(Run(NewNode(), acts), t)
    ensures SomeoneCanStep(Run(NewNode(), acts)) || SomeoneWaitsForKept(Run(NewNode(), acts))
  {
    StuckOnlyAfterClosing(acts, t);
    NobodyInHandlers(acts);
  }
}
