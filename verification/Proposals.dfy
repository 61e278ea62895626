/** Channel proposals in a session, under every interleaving of any number of handlers and responses
    (session/session.go). Only some sections of the code hold the session lock; each of them, and each
    stretch of code between two of them, is one step of a thread. */
module ProposalSpec {
  import opened Wrappers
  import opened Notifications

  /** An incoming proposal; the flags say whether all its peers and all its assets are registered. */
  datatype Proposal = Proposal(id: string, peersKnown: bool, assetsKnown: bool)

  datatype ProposalNotif = ProposalNotif(proposalID: string, expiry: int)

  /** A stored proposal with the library's handle for answering it. */
  datatype Entry = Entry(notif: ProposalNotif, responder: nat)

  datatype Answer = Answer(responder: nat, accepted: bool, byUser: bool, at: int)

  /** The part of the session that the lock protects. */
  datatype Shared = Shared(
    isOpen: bool,
    notifier: Option<nat>,
    cache: seq<ProposalNotif>,
    responders: map<string, Entry>,
    handled: seq<ProposalNotif>,    // notifications made, in the order of the lock
    launched: seq<Launch<ProposalNotif>>)          // notifications started in a goroutine of their own

  datatype Thread =
    | HandlerStart(p: Proposal, r: nat)
    | HandlerPeers(p: Proposal, r: nat, expiry: int)
    | HandlerAssets(p: Proposal, r: nat, expiry: int)
    | HandlerStore(p: Proposal, r: nat, expiry: int)
    | RespondStart(id: string, accept: bool)
    | RespondTake(id: string, accept: bool)
    | RespondAnswer(entry: Entry, accept: bool)
    | Stopped(r: nat)    // the handler of a proposal with an unregistered asset goes no further
    | Done

  /** The proposals that arrived are numbered as their responders. */
  datatype Sys = Sys(sh: Shared, arrived: seq<Proposal>, threads: seq<Thread>, answers: seq<Answer>)

  datatype Step =
    | Arrive(p: Proposal)
    | Respond(id: string, accept: bool)
    | Go(t: nat, now: int, response: nat)
    | Subscribe(notifier: nat)
    | Unsubscribe
    | CloseSession

  // ----- the sections under the lock

  function Store(sh: Shared, id: string, r: nat, expiry: int): Shared {
    var notif := ProposalNotif(id, expiry);
    var responders := if expiry != 0 then sh.responders[id := Entry(notif, r)] else sh.responders;
    var base := sh.(responders := responders, handled := sh.handled + [notif]);
    match sh.notifier
    case None => base.(cache := sh.cache + [notif])
    case Some(n) => base.(launched := sh.launched + [Launch(n, notif)])
  }

  function Sub(sh: Shared, notifier: nat): Shared {
    if !sh.isOpen || sh.notifier.Some? then sh
    else sh.(notifier := Some(notifier), cache := [], launched := sh.launched + LaunchAll(notifier, sh.cache))
  }

  function Unsub(sh: Shared): Shared {
    if sh.isOpen then sh.(notifier := None) else sh
  }

  /** Looking up a stored proposal and taking it out. */
  function Take(sh: Shared, id: string): (Shared, Option<Entry>) {
    if id in sh.responders then (sh.(responders := sh.responders - {id}), Some(sh.responders[id])) else (sh, None)
  }

  // ----- the threads

  /** What a thread does next: the new session state, the thread afterwards, and the answer it gives. */
  datatype Effect = Effect(sh: Shared, thread: Thread, answer: Option<Answer>)

  function Advance(sh: Shared, th: Thread, now: int, response: nat): Effect {
    match th
    case HandlerStart(p, r) =>
      Effect(sh, if sh.isOpen then HandlerPeers(p, r, now + response) else Done, None)
    case HandlerPeers(p, r, expiry) =>
      if p.peersKnown then Effect(sh, HandlerAssets(p, r, expiry), None)
      else Effect(sh, HandlerAssets(p, r, 0), Some(Answer(r, false, false, now)))
    case HandlerAssets(p, r, expiry) =>
      if p.assetsKnown then Effect(sh, HandlerStore(p, r, expiry), None)
      else Effect(sh, Stopped(r), Some(Answer(r, false, false, now)))
    case HandlerStore(p, r, expiry) => Effect(Store(sh, p.id, r, expiry), Done, None)
    case RespondStart(id, accept) => Effect(sh, if sh.isOpen then RespondTake(id, accept) else Done, None)
    case RespondTake(id, accept) =>
      var (sh', entry) := Take(sh, id);
      Effect(sh', if entry.Some? then RespondAnswer(entry.value, accept) else Done, None)
    case RespondAnswer(e, accept) =>
      if e.notif.expiry < now then Effect(sh, Done, None)
      else Effect(sh, Done, Some(Answer(e.responder, accept, true, now)))
    case Stopped(_) => Effect(sh, th, None)
    case Done => Effect(sh, th, None)
  }

  function Next(s: Sys, step: Step): Sys {
    match step
    case Arrive(p) => s.(arrived := s.arrived + [p], threads := s.threads + [HandlerStart(p, |s.arrived|)])
    case Respond(id, accept) => s.(threads := s.threads + [RespondStart(id, accept)])
    case Go(t, now, response) =>
      if t >= |s.threads| then s
      else
        var e := Advance(s.sh, s.threads[t], now, response);
        Sys(e.sh, s.arrived, s.threads[t := e.thread],
            if e.answer.Some? then s.answers + [e.answer.value] else s.answers)
    case Subscribe(n) => s.(sh := Sub(s.sh, n))
    case Unsubscribe => s.(sh := Unsub(s.sh))
    case CloseSession => s.(sh := s.sh.(isOpen := false))
  }

  function Run(s: Sys, steps: seq<Step>): Sys {
    if steps == [] then s else Next(Run(s, steps[..|steps| - 1]), steps[|steps| - 1])
  }

  /** What a thread has done after n steps during which no other thread made one. */
  datatype Solo = Solo(sh: Shared, thread: Thread, answers: seq<Answer>)

  function Alone(sh: Shared, th: Thread, now: int, response: nat, n: nat): Solo {
    if n == 0 then Solo(sh, th, [])
    else
      var s := Alone(sh, th, now, response, n - 1);
      var e := Advance(s.sh, s.thread, now, response);
      Solo(e.sh, e.thread, if e.answer.Some? then s.answers + [e.answer.value] else s.answers)
  }

  function NewSession(): Sys {
    Sys(Shared(true, None, [], map[], [], []), [], [], [])
  }
}

/** What holds in every state that any interleaving can reach. */
module ProposalRuns {
  import opened Wrappers
  import opened Notifications
  import opened ProposalSpec

  /** How often a responder was called. */
  function Count(answers: seq<Answer>, r: nat): nat {
    if answers == [] then 0
    else Count(answers[..|answers| - 1], r) + if answers[|answers| - 1].responder == r then 1 else 0
  }

  lemma CountSnoc(answers: seq<Answer>, a: Answer, r: nat)
    ensures Count(answers + [a], r) == Count(answers, r) + if a.responder == r then 1 else 0
  {
    assert (answers + [a])[..|answers|] == answers;
  }

  lemma {:induction false} CountUnused(answers: seq<Answer>, r: nat)
    requires forall i :: 0 <= i < |answers| ==> answers[i].responder != r
    ensures Count(answers, r) == 0
  {
    if answers != [] {
      CountUnused(answers[..|answers| - 1], r);
    }
  }

  // ----- who may still call a responder

  /** The responder that a thread has in hand. */
  function Holds(th: Thread): Option<nat> {
    match th
    case HandlerStart(_, r) => Some(r)
    case HandlerPeers(_, r, _) => Some(r)
    case HandlerAssets(_, r, _) => Some(r)
    case HandlerStore(_, r, _) => Some(r)
    case RespondAnswer(e, _) => Some(e.responder)
    case Stopped(r) => Some(r)
    case RespondStart(_, _) => None
    case RespondTake(_, _) => None
    case Done => None
  }

  /** How often the responder in a thread's hand has been called by then: by the node, for an unknown
      peer, and again for an unregistered asset. */
  function CallsBefore(th: Thread, p: Proposal): nat {
    match th
    case HandlerAssets(_, _, _) => if p.peersKnown then 0 else 1
    case HandlerStore(_, _, _) => if p.peersKnown then 0 else 1
    case Stopped(_) => if p.peersKnown then 1 else 2
    case _ => 0
  }

  /** A proposal whose peers and assets are all registered. */
  predicate Registered(s: Sys, r: nat) {
    r < |s.arrived| && s.arrived[r].peersKnown && s.arrived[r].assetsKnown
  }

  /** The proposal a thread works on is the one that arrived, and the thread is where such a proposal
      can be; its expiry is zero once the node has rejected it. */
  predicate OnTrack(s: Sys, th: Thread) {
    match th
    case HandlerStart(p, r) => r < |s.arrived| && s.arrived[r] == p
    case HandlerPeers(p, r, _) => r < |s.arrived| && s.arrived[r] == p
    case HandlerAssets(p, r, expiry) => r < |s.arrived| && s.arrived[r] == p && (p.peersKnown || expiry == 0)
    case HandlerStore(p, r, expiry) =>
      r < |s.arrived| && s.arrived[r] == p && (p.peersKnown || expiry == 0) && p.assetsKnown
    case RespondAnswer(e, _) => Registered(s, e.responder)
    case Stopped(r) => r < |s.arrived| && !s.arrived[r].assetsKnown
    case RespondStart(_, _) => true
    case RespondTake(_, _) => true
    case Done => true
  }

  predicate ThreadInv(s: Sys, th: Thread) {
    && OnTrack(s, th)
    && (Holds(th).Some? ==> Count(s.answers, Holds(th).value) == CallsBefore(th, s.arrived[Holds(th).value]))
  }

  predicate EntryInv(s: Sys, e: Entry) {
    Registered(s, e.responder) && Count(s.answers, e.responder) == 0
  }

  predicate Disjoint(a: Thread, b: Thread) {
    Holds(a).None? || Holds(a) != Holds(b)
  }

  /** A responder is in at most one hand: of one thread, or of one stored proposal. */
  predicate OneHand(s: Sys) {
    && (forall i, j :: 0 <= i < j < |s.threads| ==> Disjoint(s.threads[i], s.threads[j]))
    && (forall id, i :: id in s.sh.responders && 0 <= i < |s.threads| ==>
          Holds(s.threads[i]) != Some(s.sh.responders[id].responder))
    && (forall id, id' :: id in s.sh.responders && id' in s.sh.responders && id != id' ==>
          s.sh.responders[id].responder != s.sh.responders[id'].responder)
  }

  /** How often a responder may be called: once, unless the proposal names both an unknown peer and an
      unregistered asset. */
  function MaxCalls(p: Proposal): nat {
    if p.peersKnown || p.assetsKnown then 1 else 2
  }

  /** Every answer is to a proposal that arrived; a user's answer, to one that is registered. */
  predicate AnswerInv(s: Sys, a: Answer) {
    a.responder < |s.arrived| && (a.byUser <==> Registered(s, a.responder))
  }

  predicate Inv(s: Sys) {
    && OneHand(s)
    && (forall i :: 0 <= i < |s.threads| ==> ThreadInv(s, s.threads[i]))
    && (forall id :: id in s.sh.responders ==> EntryInv(s, s.sh.responders[id]))
    && (forall i :: 0 <= i < |s.answers| ==> AnswerInv(s, s.answers[i]))
    && (forall r: nat :: r < |s.arrived| ==> Count(s.answers, r) <= MaxCalls(s.arrived[r]))
  }

  // ----- one step

  /** What holds of a thread, a stored proposal or an answer still does when proposals have arrived. */
  predicate Later(s: Sys, v: Sys) {
    s.arrived <= v.arrived && v.answers == s.answers
  }

  lemma ThreadLater(s: Sys, v: Sys, th: Thread)
    requires ThreadInv(s, th) && Later(s, v)
    ensures ThreadInv(v, th)
  {
  }

  lemma EntryLater(s: Sys, v: Sys, e: Entry)
    requires EntryInv(s, e) && Later(s, v)
    ensures EntryInv(v, e)
  {
  }

  lemma AnswersLater(s: Sys, v: Sys)
    requires Later(s, v) && forall i :: 0 <= i < |s.answers| ==> AnswerInv(s, s.answers[i])
    ensures forall i :: 0 <= i < |v.answers| ==> AnswerInv(v, v.answers[i])
  {
    forall i | 0 <= i < |v.answers| ensures AnswerInv(v, v.answers[i]) {
      assert AnswerInv(s, s.answers[i]);
    }
  }

  /** A new thread that has in hand nothing, or what nobody else has. */
  lemma OneHandSnoc(s: Sys, arrived: seq<Proposal>, th: Thread)
    requires OneHand(s)
    requires Holds(th).Some? ==>
      && (forall i :: 0 <= i < |s.threads| ==> Holds(s.threads[i]) != Holds(th))
      && (forall id :: id in s.sh.responders ==> Holds(th) != Some(s.sh.responders[id].responder))
    ensures OneHand(s.(arrived := arrived, threads := s.threads + [th]))
  {
    var after := s.threads + [th];
    forall i, j | 0 <= i < j < |after| ensures Disjoint(after[i], after[j]) {
      if j < |s.threads| { assert Disjoint(s.threads[i], s.threads[j]); }
    }
  }

  lemma ArriveInv(s: Sys, p: Proposal)
    requires Inv(s)
    ensures Inv(Next(s, Arrive(p)))
  {
    var v := Next(s, Arrive(p));
    var n := |s.arrived|;
    NewResponderUnused(s);
    OneHandSnoc(s, v.arrived, HandlerStart(p, n));
    AnswersLater(s, v);
    forall i | 0 <= i < |v.threads| ensures ThreadInv(v, v.threads[i]) {
      if i < |s.threads| { ThreadLater(s, v, s.threads[i]); }
    }
    forall id | id in v.sh.responders ensures EntryInv(v, v.sh.responders[id]) {
      EntryLater(s, v, s.sh.responders[id]);
    }
  }

  lemma NewResponderUnused(s: Sys)
    requires Inv(s)
    ensures Count(s.answers, |s.arrived|) == 0
    ensures forall i :: 0 <= i < |s.threads| ==> Holds(s.threads[i]) != Some(|s.arrived|)
    ensures forall id :: id in s.sh.responders ==> s.sh.responders[id].responder != |s.arrived|
  {
    forall i | 0 <= i < |s.answers| ensures s.answers[i].responder != |s.arrived| {
      assert AnswerInv(s, s.answers[i]);
    }
    CountUnused(s.answers, |s.arrived|);
    forall i | 0 <= i < |s.threads| ensures Holds(s.threads[i]) != Some(|s.arrived|) {
      assert ThreadInv(s, s.threads[i]);
    }
    forall id | id in s.sh.responders ensures s.sh.responders[id].responder != |s.arrived| {
      assert EntryInv(s, s.sh.responders[id]);
    }
  }

  lemma RespondInv(s: Sys, id: string, accept: bool)
    requires Inv(s)
    ensures Inv(Next(s, Respond(id, accept)))
  {
    var v := Next(s, Respond(id, accept));
    OneHandSnoc(s, s.arrived, RespondStart(id, accept));
    AnswersLater(s, v);
    forall i | 0 <= i < |v.threads| ensures ThreadInv(v, v.threads[i]) {
      if i < |s.threads| { ThreadLater(s, v, s.threads[i]); }
    }
    forall id' | id' in v.sh.responders ensures EntryInv(v, v.sh.responders[id']) {
      EntryLater(s, v, s.sh.responders[id']);
    }
  }

  /** Thread t moves on as th, keeping or letting go of what it has in hand, and calls at most the
      responder it has in hand. */
  predicate KeepsHand(s: Sys, t: nat, th: Thread, answer: Option<Answer>) {
    && t < |s.threads|
    && (Holds(th).None? || Holds(th) == Holds(s.threads[t]))
    && OnTrack(s, th)
    && (answer.Some? ==> AnswerInv(s, answer.value) && Holds(s.threads[t]) == Some(answer.value.responder))
    && (Holds(s.threads[t]).Some? && Holds(s.threads[t]).value < |s.arrived| ==>
          var r := Holds(s.threads[t]).value;
          var calls := CallsBefore(s.threads[t], s.arrived[r]) + if answer.Some? then 1 else 0;
          calls <= MaxCalls(s.arrived[r]) && (Holds(th).Some? ==> calls == CallsBefore(th, s.arrived[r])))
  }

  /** The state after such a move, which leaves the stored proposals alone. */
  function Moved(s: Sys, t: nat, th: Thread, sh: Shared, answer: Option<Answer>): Sys
    requires t < |s.threads|
  {
    Sys(sh, s.arrived, s.threads[t := th], if answer.Some? then s.answers + [answer.value] else s.answers)
  }

  lemma CountMoved(answers: seq<Answer>, answer: Option<Answer>, r: nat)
    ensures Count(if answer.Some? then answers + [answer.value] else answers, r) ==
      Count(answers, r) + if answer.Some? && answer.value.responder == r then 1 else 0
  {
    if answer.Some? { CountSnoc(answers, answer.value, r); }
  }

  lemma KeepHandOneHand(s: Sys, t: nat, th: Thread, sh: Shared, answer: Option<Answer>)
    requires OneHand(s) && KeepsHand(s, t, th, answer) && sh.responders == s.sh.responders
    ensures OneHand(Moved(s, t, th, sh, answer))
  {
    var after := s.threads[t := th];
    forall i, j | 0 <= i < j < |after| ensures Disjoint(after[i], after[j]) {
      assert Disjoint(s.threads[i], s.threads[j]);
    }
  }

  lemma KeepHandThread(s: Sys, t: nat, th: Thread, sh: Shared, answer: Option<Answer>, i: nat)
    requires OneHand(s) && KeepsHand(s, t, th, answer) && i < |s.threads|
    requires ThreadInv(s, s.threads[i]) && ThreadInv(s, s.threads[t])
    ensures ThreadInv(Moved(s, t, th, sh, answer), s.threads[t := th][i])
  {
    if i < t { assert Disjoint(s.threads[i], s.threads[t]); }
    if t < i { assert Disjoint(s.threads[t], s.threads[i]); }
    var held := Holds(s.threads[t := th][i]);
    if held.Some? { CountMoved(s.answers, answer, held.value); }
  }

  lemma KeepHandEntry(s: Sys, t: nat, th: Thread, sh: Shared, answer: Option<Answer>, id: string)
    requires OneHand(s) && KeepsHand(s, t, th, answer) && sh.responders == s.sh.responders
    requires id in s.sh.responders && EntryInv(s, s.sh.responders[id])
    ensures EntryInv(Moved(s, t, th, sh, answer), s.sh.responders[id])
  {
    CountMoved(s.answers, answer, s.sh.responders[id].responder);
  }

  lemma KeepHandCalls(s: Sys, t: nat, th: Thread, answer: Option<Answer>, r: nat)
    requires KeepsHand(s, t, th, answer) && ThreadInv(s, s.threads[t])
    requires r < |s.arrived| && Count(s.answers, r) <= MaxCalls(s.arrived[r])
    ensures Count(if answer.Some? then s.answers + [answer.value] else s.answers, r) <= MaxCalls(s.arrived[r])
  {
    CountMoved(s.answers, answer, r);
  }

  lemma KeepHandAnswer(s: Sys, t: nat, th: Thread, sh: Shared, answer: Option<Answer>, i: nat)
    requires KeepsHand(s, t, th, answer) && i < |Moved(s, t, th, sh, answer).answers|
    requires i < |s.answers| ==> AnswerInv(s, s.answers[i])
    ensures AnswerInv(Moved(s, t, th, sh, answer), Moved(s, t, th, sh, answer).answers[i])
  {
  }

  lemma KeepHandInv(s: Sys, t: nat, th: Thread, sh: Shared, answer: Option<Answer>)
    requires Inv(s) && KeepsHand(s, t, th, answer) && sh.responders == s.sh.responders
    ensures Inv(Moved(s, t, th, sh, answer))
  {
    var v := Moved(s, t, th, sh, answer);
    KeepHandOneHand(s, t, th, sh, answer);
    forall i | 0 <= i < |v.threads| ensures ThreadInv(v, v.threads[i]) {
      KeepHandThread(s, t, th, sh, answer, i);
    }
    forall id | id in v.sh.responders ensures EntryInv(v, v.sh.responders[id]) {
      KeepHandEntry(s, t, th, sh, answer, id);
    }
    forall i | 0 <= i < |v.answers| ensures AnswerInv(v, v.answers[i]) {
      KeepHandAnswer(s, t, th, sh, answer, i);
    }
    forall r: nat | r < |v.arrived| ensures Count(v.answers, r) <= MaxCalls(v.arrived[r]) {
      KeepHandCalls(s, t, th, answer, r);
    }
  }

  lemma StoreOneHand(s: Sys, t: nat)
    requires OneHand(s) && t < |s.threads| && s.threads[t].HandlerStore?
    ensures var th := s.threads[t];
      OneHand(s.(sh := Store(s.sh, th.p.id, th.r, th.expiry), threads := s.threads[t := Done]))
  {
    var th := s.threads[t];
    forall i | 0 <= i < |s.threads| && i != t ensures Holds(s.threads[i]) != Some(th.r) {
      if i < t { assert Disjoint(s.threads[i], th); } else { assert Disjoint(th, s.threads[i]); }
    }
    var after := s.threads[t := Done];
    forall i, j | 0 <= i < j < |s.threads| ensures Disjoint(after[i], after[j]) {
      assert Disjoint(s.threads[i], s.threads[j]);
    }
    assert forall id :: id in s.sh.responders ==> Holds(th) != Some(s.sh.responders[id].responder);
  }

  /** A handler's last step puts the responder from its hand into the stored proposals, or drops it. */
  lemma StoreInv(s: Sys, t: nat)
    requires Inv(s) && t < |s.threads| && s.threads[t].HandlerStore?
    ensures var th := s.threads[t];
      Inv(s.(sh := Store(s.sh, th.p.id, th.r, th.expiry), threads := s.threads[t := Done]))
  {
    var th := s.threads[t];
    var v := s.(sh := Store(s.sh, th.p.id, th.r, th.expiry), threads := s.threads[t := Done]);
    StoreOneHand(s, t);
    assert ThreadInv(s, th);
    AnswersLater(s, v);
    forall i | 0 <= i < |v.threads| ensures ThreadInv(v, v.threads[i]) {
      if i != t { ThreadLater(s, v, s.threads[i]); }
    }
    forall id | id in v.sh.responders ensures EntryInv(v, v.sh.responders[id]) {
      if id != th.p.id || th.expiry == 0 { EntryLater(s, v, s.sh.responders[id]); }
    }
  }

  lemma TakeOneHand(s: Sys, t: nat)
    requires OneHand(s) && t < |s.threads| && s.threads[t].RespondTake? && s.threads[t].id in s.sh.responders
    ensures var th := s.threads[t];
      OneHand(s.(sh := Take(s.sh, th.id).0,
                 threads := s.threads[t := RespondAnswer(s.sh.responders[th.id], th.accept)]))
  {
    var e := s.sh.responders[s.threads[t].id];
    var after := s.threads[t := RespondAnswer(e, s.threads[t].accept)];
    forall i, j | 0 <= i < j < |after| ensures Disjoint(after[i], after[j]) {
      assert Disjoint(s.threads[i], s.threads[j]);
      assert Holds(s.threads[i]) != Some(e.responder) && Holds(s.threads[j]) != Some(e.responder);
    }
  }

  /** A response that finds a stored proposal takes it into its own hand. */
  lemma TakeInv(s: Sys, t: nat)
    requires Inv(s) && t < |s.threads| && s.threads[t].RespondTake? && s.threads[t].id in s.sh.responders
    ensures var th := s.threads[t];
      Inv(s.(sh := Take(s.sh, th.id).0,
             threads := s.threads[t := RespondAnswer(s.sh.responders[th.id], th.accept)]))
  {
    var th := s.threads[t];
    var e := s.sh.responders[th.id];
    var v := s.(sh := Take(s.sh, th.id).0, threads := s.threads[t := RespondAnswer(e, th.accept)]);
    TakeOneHand(s, t);
    assert EntryInv(s, e);
    AnswersLater(s, v);
    forall i | 0 <= i < |v.threads| ensures ThreadInv(v, v.threads[i]) {
      if i != t { ThreadLater(s, v, s.threads[i]); }
    }
    forall id | id in v.sh.responders ensures EntryInv(v, v.sh.responders[id]) {
      EntryLater(s, v, s.sh.responders[id]);
    }
  }

  /** Every other step of a thread keeps or empties its hand. */
  lemma AdvanceKeepsHand(s: Sys, t: nat, now: int, response: nat)
    requires t < |s.threads| && ThreadInv(s, s.threads[t]) && !s.threads[t].HandlerStore?
    requires s.threads[t].RespondTake? ==> s.threads[t].id !in s.sh.responders
    ensures var e := Advance(s.sh, s.threads[t], now, response);
      KeepsHand(s, t, e.thread, e.answer) && e.sh.responders == s.sh.responders
  {
  }

  lemma GoInv(s: Sys, t: nat, now: int, response: nat)
    requires Inv(s)
    ensures Inv(Next(s, Go(t, now, response)))
  {
    if t < |s.threads| {
      var th := s.threads[t];
      if th.HandlerStore? {
        StoreInv(s, t);
      } else if th.RespondTake? && th.id in s.sh.responders {
        TakeInv(s, t);
      } else {
        var e := Advance(s.sh, th, now, response);
        AdvanceKeepsHand(s, t, now, response);
        KeepHandInv(s, t, e.thread, e.sh, e.answer);
      }
    }
  }

  lemma SharedInv(s: Sys, sh: Shared)
    requires Inv(s) && sh.responders == s.sh.responders
    ensures Inv(s.(sh := sh))
  {
  }

  lemma InvNext(s: Sys, step: Step)
    requires Inv(s)
    ensures Inv(Next(s, step))
  {
    match step
    case Arrive(p) => ArriveInv(s, p);
    case Respond(id, accept) => RespondInv(s, id, accept);
    case Go(t, now, response) => GoInv(s, t, now, response);
    case Subscribe(n) => SharedInv(s, Sub(s.sh, n));
    case Unsubscribe => SharedInv(s, Unsub(s.sh));
    case CloseSession => SharedInv(s, s.sh.(isOpen := false));
  }

  lemma {:induction false} InvRun(steps: seq<Step>)
    ensures Inv(Run(NewSession(), steps))
  {
    if steps != [] {
      InvRun(steps[..|steps| - 1]);
      InvNext(Run(NewSession(), steps[..|steps| - 1]), steps[|steps| - 1]);
    }
  }

  // ----- the theorems

  /** Under every interleaving, the responder of a proposal is called at most once, unless the proposal
      names both an unknown peer and an unregistered asset: that one the node rejects twice, exactly
      when its handler gets to the end of both checks. */
  lemma AnsweredAtMostOnce(steps: seq<Step>, r: nat)
    requires r < |Run(NewSession(), steps).arrived|
    ensures var s := Run(NewSession(), steps);
      && Count(s.answers, r) <= MaxCalls(s.arrived[r])
      && (Stopped(r) in s.threads ==> Count(s.answers, r) == if s.arrived[r].peersKnown then 1 else 2)
  {
    InvRun(steps);
    var s := Run(NewSession(), steps);
    if Stopped(r) in s.threads {
      var i :| 0 <= i < |s.threads| && s.threads[i] == Stopped(r);
      assert ThreadInv(s, s.threads[i]);
    }
  }

  /** Under every interleaving, only proposals with registered peers and assets are ever stored for the
      user; a stored one has not been answered; and the answers to the others are the node's. */
  lemma NodeRejectionsNeverReachTheUser(steps: seq<Step>, id: string, i: nat)
    ensures var s := Run(NewSession(), steps);
      && (id in s.sh.responders ==>
            Registered(s, s.sh.responders[id].responder) && Count(s.answers, s.sh.responders[id].responder) == 0)
      && (i < |s.answers| ==> (s.answers[i].byUser <==> Registered(s, s.answers[i].responder)))
  {
    InvRun(steps);
    var s := Run(NewSession(), steps);
    if id in s.sh.responders { assert EntryInv(s, s.sh.responders[id]); }
    if i < |s.answers| { assert AnswerInv(s, s.answers[i]); }
  }

  /** Under every interleaving, at most one response has a proposal in hand; as long as it has, no other
      can find the proposal stored, under whatever identifier, and nobody has answered it. */
  lemma OnlyOneResponseGetsTheProposal(steps: seq<Step>, t: nat, u: nat, id: string)
    requires t < |Run(NewSession(), steps).threads| && Run(NewSession(), steps).threads[t].RespondAnswer?
    ensures var s := Run(NewSession(), steps);
      var r := s.threads[t].entry.responder;
      && (u < |s.threads| && u != t && s.threads[u].RespondAnswer? ==> s.threads[u].entry.responder != r)
      && (id in s.sh.responders ==> s.sh.responders[id].responder != r)
      && Registered(s, r) && Count(s.answers, r) == 0
  {
    InvRun(steps);
    var s := Run(NewSession(), steps);
    assert ThreadInv(s, s.threads[t]);
    if u < |s.threads| && u != t {
      assert if u < t then Disjoint(s.threads[u], s.threads[t]) else Disjoint(s.threads[t], s.threads[u]);
    }
    assert Holds(s.threads[t]) == Some(s.threads[t].entry.responder);
  }

  /** The step is a response that takes the proposal with this identifier, or a handler that stores one. */
  predicate Concerns(s: Sys, step: Step, id: string) {
    && step.Go? && step.t < |s.threads|
    && ((s.threads[step.t].RespondTake? && s.threads[step.t].id == id)
        || (s.threads[step.t].HandlerStore? && s.threads[step.t].p.id == id))
  }

  /** Under every interleaving a stored proposal stays stored, with the same entry, until a response for
      its identifier takes it or another proposal with its identifier is stored. */
  lemma {:induction false} StoredUntilTaken(s: Sys, steps: seq<Step>, id: string)
    requires id in s.sh.responders
    requires forall k :: 0 <= k < |steps| ==> !Concerns(Run(s, steps[..k]), steps[k], id)
    ensures var v := Run(s, steps);
      id in v.sh.responders && v.sh.responders[id] == s.sh.responders[id]
  {
    if steps != [] {
      var front := steps[..|steps| - 1];
      forall k | 0 <= k < |front| ensures !Concerns(Run(s, front[..k]), front[k], id) {
        assert front[..k] == steps[..k] && front[k] == steps[k];
      }
      StoredUntilTaken(s, front, id);
      EntryStays(Run(s, front), steps[|steps| - 1], id);
    }
  }

  lemma EntryStays(s: Sys, step: Step, id: string)
    requires id in s.sh.responders && !Concerns(s, step, id)
    ensures id in Next(s, step).sh.responders && Next(s, step).sh.responders[id] == s.sh.responders[id]
  {
  }

  /** Running alone is one of the interleavings: that in which only this thread is chosen. */
  lemma {:induction false} AloneIsARun(s: Sys, t: nat, now: int, response: nat, steps: seq<Step>)
    requires t < |s.threads| && forall k :: 0 <= k < |steps| ==> steps[k] == Go(t, now, response)
    ensures var v := Alone(s.sh, s.threads[t], now, response, |steps|);
      Run(s, steps) == Sys(v.sh, s.arrived, s.threads[t := v.thread], s.answers + v.answers)
  {
    if steps == [] {
      assert s.threads[t := s.threads[t]] == s.threads;
    } else {
      var front := steps[..|steps| - 1];
      AloneIsARun(s, t, now, response, front);
      var v := Alone(s.sh, s.threads[t], now, response, |front|);
      OneMoreAlone(Run(s, front), s, t, now, response, v);
    }
  }

  lemma OneMoreAlone(u: Sys, s: Sys, t: nat, now: int, response: nat, v: Solo)
    requires t < |s.threads|
    requires u == Sys(v.sh, s.arrived, s.threads[t := v.thread], s.answers + v.answers)
    ensures var e := Advance(v.sh, v.thread, now, response);
      Next(u, Go(t, now, response)) ==
        Sys(e.sh, s.arrived, s.threads[t := e.thread],
            s.answers + if e.answer.Some? then v.answers + [e.answer.value] else v.answers)
  {
    var e := Advance(v.sh, v.thread, now, response);
    assert u.threads[t := e.thread] == s.threads[t := e.thread];
    if e.answer.Some? {
      assert s.answers + v.answers + [e.answer.value] == s.answers + (v.answers + [e.answer.value]);
    }
  }

  lemma ResponseAlone(sh: Shared, id: string, accept: bool, now: int, response: nat)
    ensures Alone(sh, RespondStart(id, accept), now, response, 3) ==
      if !sh.isOpen then Solo(sh, Done, [])
      else Solo(Take(sh, id).0, Done,
                if id in sh.responders && now <= sh.responders[id].notif.expiry
                then [Answer(sh.responders[id].responder, accept, true, now)] else [])
  {
    var start := RespondStart(id, accept);
    assert Alone(sh, start, now, response, 1) == Solo(sh, if sh.isOpen then RespondTake(id, accept) else Done, []);
    assert Alone(sh, start, now, response, 2).sh == if sh.isOpen then Take(sh, id).0 else sh;
  }

  lemma ClosedHandlerAlone(sh: Shared, p: Proposal, r: nat, now: int, response: nat)
    requires !sh.isOpen
    ensures Alone(sh, HandlerStart(p, r), now, response, 4) == Solo(sh, Done, [])
  {
    var start := HandlerStart(p, r);
    assert Alone(sh, start, now, response, 1) == Solo(sh, Done, []);
    assert Alone(sh, start, now, response, 2) == Solo(sh, Done, []);
    assert Alone(sh, start, now, response, 3) == Solo(sh, Done, []);
  }

  /** A handler on an open session, up to where it has checked the peers. */
  lemma HandlerChecksPeers(sh: Shared, p: Proposal, r: nat, now: int, response: nat)
    requires sh.isOpen
    ensures Alone(sh, HandlerStart(p, r), now, response, 2) ==
      if p.peersKnown then Solo(sh, HandlerAssets(p, r, now + response), [])
      else Solo(sh, HandlerAssets(p, r, 0), [Answer(r, false, false, now)])
  {
    assert Alone(sh, HandlerStart(p, r), now, response, 1) == Solo(sh, HandlerPeers(p, r, now + response), []);
  }

  lemma HandlerAlone(sh: Shared, p: Proposal, r: nat, now: int, response: nat)
    ensures var rejection := Answer(r, false, false, now);
      var expiry, rejected := if p.peersKnown then now + response else 0, if p.peersKnown then [] else [rejection];
      Alone(sh, HandlerStart(p, r), now, response, 4) ==
        if !sh.isOpen then Solo(sh, Done, [])
        else if p.assetsKnown then Solo(Store(sh, p.id, r, expiry), Done, rejected)
        else Solo(sh, Stopped(r), rejected + [rejection])
  {
    if !sh.isOpen {
      ClosedHandlerAlone(sh, p, r, now, response);
    } else {
      var rejection := Answer(r, false, false, now);
      var expiry, rejected := if p.peersKnown then now + response else 0, if p.peersKnown then [] else [rejection];
      HandlerChecksPeers(sh, p, r, now, response);
      assert Alone(sh, HandlerStart(p, r), now, response, 3) ==
        if p.assetsKnown then Solo(sh, HandlerStore(p, r, expiry), rejected)
        else Solo(sh, Stopped(r), rejected + [rejection]);
    }
  }

  /** A response on an open session answers the stored proposal with that identifier if it is in time;
      a late one uses the proposal up without an answer, and one for an unknown identifier does
      nothing. */
  lemma ResponseAnswersTheStoredProposal(sh: Shared, id: string, accept: bool, now: int, response: nat)
    requires sh.isOpen
    ensures var v := Alone(sh, RespondStart(id, accept), now, response, 3);
      && v.thread == Done
      && v.sh == sh.(responders := sh.responders - {id})
      && v.answers ==
           if id in sh.responders && now <= sh.responders[id].notif.expiry
           then [Answer(sh.responders[id].responder, accept, true, now)] else []
  {
    ResponseAlone(sh, id, accept, now, response);
  }

  /** A handler on an open session stores the proposal for the user exactly if all its peers and assets
      are registered (and its time does not run out in second zero), and otherwise rejects it, once for
      each of the two faults; the notification is made unless an asset is not registered. So the
      exception to a single answer is real. */
  lemma HandlerStoresOrRejects(sh: Shared, p: Proposal, r: nat, now: int, response: nat)
    requires sh.isOpen
    ensures var v := Alone(sh, HandlerStart(p, r), now, response, 4);
      && |v.answers| == (if p.peersKnown then 0 else 1) + (if p.assetsKnown then 0 else 1)
      && (forall i :: 0 <= i < |v.answers| ==> v.answers[i] == Answer(r, false, false, now))
      && v.sh.responders == (if p.peersKnown && p.assetsKnown && now + response != 0
                             then sh.responders[p.id := Entry(ProposalNotif(p.id, now + response), r)]
                             else sh.responders)
      && (var notif := ProposalNotif(p.id, if p.peersKnown then now + response else 0);
          v.sh == if !p.assetsKnown then sh
                  else if sh.notifier.None? then
                    sh.(responders := v.sh.responders, handled := sh.handled + [notif], cache := sh.cache + [notif])
                  else
                    sh.(responders := v.sh.responders, handled := sh.handled + [notif],
                        launched := sh.launched + [Launch(sh.notifier.value, notif)]))
      && v.thread == if p.assetsKnown then Done else Stopped(r)
  {
    HandlerAlone(sh, p, r, now, response);
  }

  // ----- notifications

  ghost predicate QueueInv(sh: Shared) {
    InOrder(sh.notifier, sh.cache, sh.launched, sh.handled)
  }

  lemma StoreQueue(sh: Shared, id: string, r: nat, expiry: int)
    requires QueueInv(sh)
    ensures QueueInv(Store(sh, id, r, expiry))
  {
  }

  /** Subscribing to an open session that has no subscriber remembers the subscriber and launches every
      cached notification for it, in order; unsubscribing leaves nobody subscribed. */
  lemma SubscriptionEffects(s: Sys, notifier: nat)
    ensures var v := Next(s, Subscribe(notifier));
      if s.sh.isOpen && s.sh.notifier.None?
      then && v == s.(sh := s.sh.(notifier := Some(notifier), cache := [], launched := v.sh.launched))
           && |v.sh.launched| == |s.sh.launched| + |s.sh.cache| && s.sh.launched <= v.sh.launched
           && forall i :: 0 <= i < |s.sh.cache| ==>
                v.sh.launched[|s.sh.launched| + i] == Launch(notifier, s.sh.cache[i])
      else v == s
    ensures Next(s, Unsubscribe) == if s.sh.isOpen then s.(sh := s.sh.(notifier := None)) else s
  {
  }

  /** Launch i of a run was made by step k, for the subscriber in force after that step. */
  ghost predicate LaunchedInStep(steps: seq<Step>, i: nat, k: nat)
    requires k < |steps| && i < |Run(NewSession(), steps).sh.launched|
  {
    && |Run(NewSession(), steps[..k]).sh.launched| <= i < |Run(NewSession(), steps[..k + 1]).sh.launched|
    && Run(NewSession(), steps[..k + 1]).sh.notifier == Some(Run(NewSession(), steps).sh.launched[i].notifier)
  }

  lemma StepLaunches(s: Sys, step: Step)
    ensures var v := Next(s, step).sh;
      && s.sh.launched <= v.launched
      && forall i :: |s.sh.launched| <= i < |v.launched| ==> v.notifier == Some(v.launched[i].notifier)
  {
  }

  /** Under every interleaving, each notification was launched for the subscriber in force at that moment. */
  lemma {:induction false} LaunchesGoToTheSubscriber(steps: seq<Step>, i: nat)
    requires i < |Run(NewSession(), steps).sh.launched|
    ensures exists k: nat :: k < |steps| && LaunchedInStep(steps, i, k)
  {
    var n := |steps| - 1;
    var front := steps[..n];
    StepLaunches(Run(NewSession(), front), steps[n]);
    assert steps[..n + 1] == steps;
    if i < |Run(NewSession(), front).sh.launched| {
      LaunchesGoToTheSubscriber(front, i);
      var k: nat :| k < |front| && LaunchedInStep(front, i, k);
      assert front[..k] == steps[..k] && front[..k + 1] == steps[..k + 1];
      assert LaunchedInStep(steps, i, k);
    } else {
      assert LaunchedInStep(steps, i, n);
    }
  }

  /** Under every interleaving, the notifications launched so far followed by those in the cache are
      exactly those made so far, in order, and a subscriber finds the cache empty. */
  lemma {:induction false} ProposalsNotifiedInOrder(steps: seq<Step>)
    ensures QueueInv(Run(NewSession(), steps).sh)
  {
    if steps != [] {
      var s, step := Run(NewSession(), steps[..|steps| - 1]), steps[|steps| - 1];
      ProposalsNotifiedInOrder(steps[..|steps| - 1]);
      match step {
        case Subscribe(n) =>
          if s.sh.notifier.None? { InOrderFlushed(n, s.sh.cache, s.sh.launched, s.sh.handled); }
        case Go(t, _, _) =>
          if t < |s.threads| && s.threads[t].HandlerStore? {
            StoreQueue(s.sh, s.threads[t].p.id, s.threads[t].r, s.threads[t].expiry);
          }
        case _ =>
      }
    }
  }
}
