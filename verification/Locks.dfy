/** The locks of a node and the order in which its operations take them. Any number of threads run
    any number of operations, on any number of sessions and channels. The state channel library and
    the chain are assumed to return, except that closing a session waits, under the session's lock,
    until its handler goroutine has returned (session/client.go:240-252). */
module LockSpec {
  datatype Lock =
    | NodeLock
    | SessLock(s: nat)
    | ChLock(s: nat, i: nat)    // the i-th channel put into session s
    | PeersLock(s: nat)         // the cache of peers
    | ContractsLock
    | CurrenciesLock
    | ServerLock                // the API server's table of subscriptions

  function Level(l: Lock): nat {
    match l
    case NodeLock => 0
    case SessLock(_) => 1
    case ChLock(_, _) => 2
    case PeersLock(_) => 3
    case ContractsLock => 4
    case CurrenciesLock => 5
    case ServerLock => 6
  }

  /** The order in which locks are taken: by level, and channels in the order of the registry. */
  predicate Below(a: Lock, b: Lock) {
    Level(a) < Level(b) || (a.ChLock? && b.ChLock? && a.i < b.i)
  }

  /** What a thread does as far as locks are concerned. */
  datatype Op =
    | Acquire(l: Lock)
    | Release(l: Lock)
    | Optional(body: seq<Op>)     // what an early return or a failed check leaves out
    | EachChannel(s: nat)         // locking and unlocking every channel, one after the other
    | LockAll(s: nat)             // Session.Close: locking every channel
    | Decide(s: nat, n: nat)      // Session.Close: refusing, or keeping the n channel locks
    | Join(s: nat)                // Session.Close: waiting for the session's handler goroutine
    | AddChannel(s: nat)
    | SomeChannel(s: nat)         // locking and unlocking one channel
    | Spawn(body: seq<Op>)        // starting a goroutine

  /** Who runs a thread: a caller or a goroutine of the library; the goroutine of a session's handler,
      for which closing that session waits; or a goroutine started by the node. */
  datatype Role = Called(c: Call) | InHandler(s: nat) | Goroutine

  datatype Thread = Thread(role: Role, held: set<Lock>, ops: seq<Op>)

  /** The threads, the number of channels of each session, and the locks that were never released:
      those of the channels of sessions that were closed. */
  datatype Sys = Sys(threads: seq<Thread>, channels: map<nat, nat>, kept: set<Lock>)

  function CountChs(s: Sys, sess: nat): nat {
    if sess in s.channels then s.channels[sess] else 0
  }

  predicate Free(s: Sys, l: Lock) {
    l !in s.kept && forall t :: 0 <= t < |s.threads| ==> l !in s.threads[t].held
  }

  function ChRange(s: nat, from: nat, to: nat): set<Lock> {
    set i | from <= i < to :: ChLock(s, i)
  }

  // ----- steps

  function Visits(s: nat, n: nat): seq<Op> {
    if n == 0 then [] else Visits(s, n - 1) + [Acquire(ChLock(s, n - 1)), Release(ChLock(s, n - 1))]
  }

  function Takes(s: nat, n: nat): seq<Op> {
    if n == 0 then [] else Takes(s, n - 1) + [Acquire(ChLock(s, n - 1))]
  }

  function Releases(s: nat, n: nat): seq<Op> {
    if n == 0 then [] else Releases(s, n - 1) + [Release(ChLock(s, n - 1))]
  }

  predicate Unfinished(s: Sys, t: nat) {
    t < |s.threads| && s.threads[t].ops != []
  }

  /** No callback of the session is under way in the goroutine of its handler. */
  predicate HandlerIdle(s: Sys, sess: nat) {
    forall t :: 0 <= t < |s.threads| && s.threads[t].role == InHandler(sess) ==> s.threads[t].ops == []
  }

  /** A thread can step unless it is finished, or waits for a lock that is not free, or for a handler
      that is not idle. */
  predicate Enabled(s: Sys, t: nat) {
    && Unfinished(s, t)
    && (s.threads[t].ops[0].Acquire? ==> Free(s, s.threads[t].ops[0].l))
    && (s.threads[t].ops[0].Join? ==> HandlerIdle(s, s.threads[t].ops[0].s))
  }

  /** What is left to do after the first operation; `yes` and `i` settle what it leaves open. */
  function Rest(s: Sys, op: Op, rest: seq<Op>, yes: bool, i: nat): seq<Op> {
    match op
    case Optional(body) => if yes then body + rest else rest
    case EachChannel(sess) => Visits(sess, CountChs(s, sess)) + rest
    case LockAll(sess) => Takes(sess, CountChs(s, sess)) + ([Decide(sess, CountChs(s, sess))] + rest)
    case Decide(sess, n) =>
      if !yes then Releases(sess, n) + rest
      else if i == 0 then [Join(sess)] + rest
      else rest    // closing the client failed before the wait
    case Join(_) => rest
    case SomeChannel(sess) => [Acquire(ChLock(sess, i)), Release(ChLock(sess, i))] + rest
    case Acquire(_) => rest
    case Release(_) => rest
    case AddChannel(_) => rest
    case Spawn(_) => rest
  }

  function HeldAfter(held: set<Lock>, op: Op, yes: bool): set<Lock> {
    match op
    case Acquire(l) => held + {l}
    case Release(l) => held - {l}
    case Decide(sess, n) => if yes then held - ChRange(sess, 0, n) else held
    case _ => held
  }

  function Move(s: Sys, t: nat, yes: bool, i: nat): Sys {
    if !Enabled(s, t) then s
    else
      var th := s.threads[t];
      var op := th.ops[0];
      var next := Thread(th.role, HeldAfter(th.held, op, yes), Rest(s, op, th.ops[1..], yes, i));
      var threads := s.threads[t := next];
      Sys(if op.Spawn? then threads + [Thread(Goroutine, {}, op.body)] else threads,
          if op.AddChannel? then s.channels[op.s := CountChs(s, op.s) + 1] else s.channels,
          if op.Decide? && yes then s.kept + ChRange(op.s, 0, op.n) else s.kept)
  }

  // ----- the operations of the node

  datatype Call =
    | OpenSession(s: nat, restored: nat, parts: nat, assets: nat)
    | RegisterCurrency
    | GetSession
    | AddPeerID(s: nat)
    | GetPeerID(s: nat)
    | OpenCh(s: nat, parts: nat, currencies: nat)
    | HandleProposal(s: nat, peers: nat, assets: nat)
    | SubChProposals(s: nat, cached: nat)
    | UnsubChProposals(s: nat)
    | RespondChProposal(s: nat, currencies: nat)
    | GetChsInfo(s: nat)
    | GetCh(s: nat)
    | SessionHandleUpdate(s: nat, i: nat)
    | CloseSession(s: nat)
    | DeployAsset(s: nat)
    | ChannelCall(s: nat, i: nat)      // every operation of a channel but the next two
    | SubChUpdates(s: nat, i: nat, cached: nat)
    | AdjudicatorEvent(s: nat, i: nat)
    | ServerCall

  function Use(l: Lock): seq<Op> {
    [Acquire(l), Release(l)]
  }

  function Locked(l: Lock, body: seq<Op>): seq<Op> {
    [Acquire(l)] + (body + [Release(l)])
  }

  function Repeat(body: seq<Op>, n: nat): seq<Op> {
    if n == 0 then [] else Repeat(body, n - 1) + body
  }

  /** Looking a currency up in both registries. */
  function UseRegistries(): seq<Op> {
    Use(ContractsLock) + Use(CurrenciesLock)
  }

  /** A notifier running in a goroutine of its own; the one for a closed channel takes the server's lock. */
  function Notify(): seq<Op> {
    [Spawn([Optional(Use(ServerLock))])]
  }

  function Script(c: Call): seq<Op> {
    match c
    case OpenSession(s, restored, parts, assets) =>
      Locked(NodeLock, [Optional(
        Use(ContractsLock) + (Use(ContractsLock) + (Use(PeersLock(s)) + (Use(ContractsLock) +
        (Repeat([Optional(Repeat(Use(PeersLock(s)), parts) + (Repeat(UseRegistries(), assets) +
                 Locked(SessLock(s), [AddChannel(s)])))], restored) +
        [Optional(Locked(SessLock(s), [EachChannel(s)]))])))))])
    case RegisterCurrency => Locked(NodeLock, [Optional(Use(ContractsLock) + [Optional(Use(CurrenciesLock))])])
    case GetSession => Use(NodeLock)
    case AddPeerID(s) => Locked(SessLock(s), [Optional(Use(PeersLock(s)))])
    case GetPeerID(s) => Locked(SessLock(s), [Optional(Use(PeersLock(s)))])
    case OpenCh(s, parts, currencies) =>
      [Optional(Repeat(Use(PeersLock(s)), parts) + [Optional(
        Repeat(UseRegistries(), currencies) + [Optional(Repeat(Use(ContractsLock), currencies) + [Optional(
          Locked(SessLock(s), [AddChannel(s)]) + [SomeChannel(s)])])])])]
    case HandleProposal(s, peers, assets) =>
      [Optional(Repeat(Use(PeersLock(s)), peers) + (Repeat(UseRegistries(), assets) +
        [Optional(Locked(SessLock(s), [Optional(Notify())]))]))]
    case SubChProposals(s, cached) => Locked(SessLock(s), [Optional(Repeat(Notify(), cached))])
    case UnsubChProposals(s) => Use(SessLock(s))
    case RespondChProposal(s, currencies) =>
      [Optional(Use(SessLock(s)) + [Optional(Repeat(Use(ContractsLock), currencies) +
        [Optional(Locked(SessLock(s), [AddChannel(s)]))])])]
    case GetChsInfo(s) => Locked(SessLock(s), [EachChannel(s)])
    case GetCh(s) => Use(SessLock(s))
    case SessionHandleUpdate(s, i) =>
      Locked(SessLock(s), [Optional([Spawn(Locked(ChLock(s, i), [Optional(Notify())]))])])
    case CloseSession(s) => Locked(SessLock(s), [Optional([LockAll(s)])])
    case DeployAsset(s) => Locked(SessLock(s), [Optional(Use(ContractsLock))])
    case ChannelCall(s, i) => Use(ChLock(s, i))
    case SubChUpdates(s, i, cached) => Locked(ChLock(s, i), [Optional(Repeat(Notify(), cached))])
    case AdjudicatorEvent(s, i) => Locked(ChLock(s, i), [Optional(Use(ServerLock))])
    case ServerCall => Use(ServerLock)
  }

  /** A callback may run in the goroutine of the session's handler, or in one of its own: which, is up
      to the state channel library. */
  datatype Action = Begin(c: Call, inHandler: bool) | Step(t: nat, yes: bool, i: nat)

  function RoleOf(c: Call, inHandler: bool): Role {
    if inHandler && (c.HandleProposal? || c.SessionHandleUpdate?) then InHandler(c.s) else Called(c)
  }

  function Next(s: Sys, a: Action): Sys {
    match a
    case Begin(c, inHandler) => s.(threads := s.threads + [Thread(RoleOf(c, inHandler), {}, Script(c))])
    case Step(t, yes, i) => Move(s, t, yes, i)
  }

  function Run(s: Sys, acts: seq<Action>): Sys {
    if acts == [] then s else Next(Run(s, acts[..|acts| - 1]), acts[|acts| - 1])
  }

  function NewNode(): Sys {
    Sys([], map[], {})
  }
}
