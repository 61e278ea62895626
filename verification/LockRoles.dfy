/** Which programs run in which role. */
module LockRoles {
  import opened LockSpec

  /** The locks that a callback of session s takes itself. */
  predicate HandlerLock(s: nat, l: Lock) {
    l == SessLock(s) || l == PeersLock(s) || l == ContractsLock || l == CurrenciesLock
  }

  /** What a program may consist of, by who runs it: a callback takes no locks but the handler's, and
      only closing a session deals with all its channels at once. */
  predicate Fits(role: Role, op: Op)
    decreases op
  {
    match op
    case Acquire(l) => role.InHandler? ==> HandlerLock(role.s, l)
    case Release(_) => true
    case AddChannel(_) => true
    case Optional(body) => forall b :: b in body ==> Fits(role, b)
    case Spawn(body) => forall b :: b in body ==> Fits(Goroutine, b)
    case EachChannel(_) => !role.InHandler?
    case SomeChannel(_) => !role.InHandler?
    case LockAll(s) => role == Called(CloseSession(s))
    case Decide(_, _) => false
    case Join(_) => false
  }

  predicate AllFit(role: Role, ops: seq<Op>) {
    forall op :: op in ops ==> Fits(role, op)
  }

  lemma {:induction false} RepeatFits(role: Role, body: seq<Op>, n: nat)
    requires AllFit(role, body)
    ensures AllFit(role, Repeat(body, n))
  {
    if n > 0 {
      RepeatFits(role, body, n - 1);
    }
  }

  lemma UseFits(role: Role, l: Lock)
    requires role.InHandler? ==> HandlerLock(role.s, l)
    ensures AllFit(role, Use(l))
  {
  }

  lemma LockedFits(role: Role, l: Lock, body: seq<Op>)
    requires role.InHandler? ==> HandlerLock(role.s, l)
    requires AllFit(role, body)
    ensures AllFit(role, Locked(l, body)) && AllFit(role, Locked(l, [Optional(body)]))
  {
  }

  lemma PartsFit(role: Role, s: nat, n: nat)
    requires role.InHandler? ==> role.s == s
    ensures AllFit(role, Use(PeersLock(s))) && AllFit(role, Repeat(Use(PeersLock(s)), n))
    ensures AllFit(role, Use(ContractsLock)) && AllFit(role, Repeat(Use(ContractsLock), n))
    ensures AllFit(role, UseRegistries()) && AllFit(role, Repeat(UseRegistries(), n))
    ensures AllFit(role, Notify()) && AllFit(role, Repeat(Notify(), n))
    ensures AllFit(role, Locked(SessLock(s), [AddChannel(s)]))
  {
    RepeatFits(role, Use(PeersLock(s)), n);
    RepeatFits(role, Use(ContractsLock), n);
    RepeatFits(role, UseRegistries(), n);
    RepeatFits(role, Notify(), n);
  }

  lemma OptionalFits(role: Role, a: seq<Op>, b: seq<Op>)
    requires AllFit(role, a) && AllFit(role, b)
    ensures AllFit(role, [Optional(a + b)])
  {
  }

  lemma OpenSessionFits(role: Role, s: nat, restored: nat, parts: nat, assets: nat)
    requires !role.InHandler?
    ensures AllFit(role, Script(OpenSession(s, restored, parts, assets)))
  {
    var add := Locked(SessLock(s), [AddChannel(s)]);
    var peers, regs := Repeat(Use(PeersLock(s)), parts), Repeat(UseRegistries(), assets);
    PartsFit(role, s, parts);
    PartsFit(role, s, assets);
    OptionalFits(role, peers, regs + add);
    var one := [Optional(peers + (regs + add))];
    RepeatFits(role, one, restored);
    var info := [Optional(Locked(SessLock(s), [EachChannel(s)]))];
    LockedFits(role, SessLock(s), [EachChannel(s)]);
    var use := Use(ContractsLock);
    var tail := use + (Use(PeersLock(s)) + (use + (Repeat(one, restored) + info)));
    OptionalFits(role, use, tail);
    LockedFits(role, NodeLock, use + tail);
  }

  lemma OpenChFits(role: Role, s: nat, parts: nat, currencies: nat)
    requires !role.InHandler?
    ensures AllFit(role, Script(OpenCh(s, parts, currencies)))
  {
    PartsFit(role, s, parts);
    PartsFit(role, s, currencies);
    var add := Locked(SessLock(s), [AddChannel(s)]);
    OptionalFits(role, add, [SomeChannel(s)]);
    var funder := [Optional(add + [SomeChannel(s)])];
    OptionalFits(role, Repeat(Use(ContractsLock), currencies), funder);
    var regs := [Optional(Repeat(Use(ContractsLock), currencies) + funder)];
    OptionalFits(role, Repeat(UseRegistries(), currencies), regs);
    OptionalFits(role, Repeat(Use(PeersLock(s)), parts), [Optional(Repeat(UseRegistries(), currencies) + regs)]);
  }

  lemma RespondFits(role: Role, s: nat, currencies: nat)
    requires !role.InHandler?
    ensures AllFit(role, Script(RespondChProposal(s, currencies)))
  {
    PartsFit(role, s, currencies);
    var add := Locked(SessLock(s), [AddChannel(s)]);
    OptionalFits(role, Repeat(Use(ContractsLock), currencies), [Optional(add)]);
    OptionalFits(role, Use(SessLock(s)), [Optional(Repeat(Use(ContractsLock), currencies) + [Optional(add)])]);
  }

  lemma HandleProposalFits(role: Role, s: nat, peers: nat, assets: nat)
    requires role.InHandler? ==> role.s == s
    ensures AllFit(role, Script(HandleProposal(s, peers, assets)))
  {
    PartsFit(role, s, peers);
    PartsFit(role, s, assets);
    var store := Locked(SessLock(s), [Optional(Notify())]);
    LockedFits(role, SessLock(s), Notify());
    assert AllFit(role, [Optional(store)]);
    OptionalFits(role, Repeat(Use(PeersLock(s)), peers), Repeat(UseRegistries(), assets) + [Optional(store)]);
  }

  lemma SessionHandleUpdateFits(role: Role, s: nat, i: nat)
    requires role.InHandler? ==> role.s == s
    ensures AllFit(role, Script(SessionHandleUpdate(s, i)))
  {
    var handler := Spawn(Locked(ChLock(s, i), [Optional(Notify())]));
    PartsFit(Goroutine, s, 0);
    LockedFits(Goroutine, ChLock(s, i), Notify());
    LockedFits(role, SessLock(s), [handler]);
  }

  /** The operations that take at most two locks, or all those of a session's channels. */
  lemma ShortScriptFits(c: Call)
    requires !c.OpenSession? && !c.OpenCh? && !c.HandleProposal? && !c.SessionHandleUpdate? && !c.RespondChProposal?
    ensures AllFit(Called(c), Script(c))
  {
    var role := Called(c);
    match c
    case RegisterCurrency =>
      OptionalFits(role, Use(CurrenciesLock), []);
      assert Use(CurrenciesLock) + [] == Use(CurrenciesLock);
      LockedFits(role, NodeLock, Use(ContractsLock) + [Optional(Use(CurrenciesLock))]);
    case GetSession => UseFits(role, NodeLock);
    case AddPeerID(s) => LockedFits(role, SessLock(s), Use(PeersLock(s)));
    case GetPeerID(s) => LockedFits(role, SessLock(s), Use(PeersLock(s)));
    case SubChProposals(s, cached) =>
      PartsFit(role, s, cached);
      LockedFits(role, SessLock(s), Repeat(Notify(), cached));
    case UnsubChProposals(s) => UseFits(role, SessLock(s));
    case GetChsInfo(s) => LockedFits(role, SessLock(s), [EachChannel(s)]);
    case GetCh(s) => UseFits(role, SessLock(s));
    case CloseSession(s) => LockedFits(role, SessLock(s), [LockAll(s)]);
    case DeployAsset(s) => LockedFits(role, SessLock(s), Use(ContractsLock));
    case ChannelCall(s, i) => UseFits(role, ChLock(s, i));
    case SubChUpdates(s, i, cached) =>
      PartsFit(role, s, cached);
      LockedFits(role, ChLock(s, i), Repeat(Notify(), cached));
    case AdjudicatorEvent(s, i) => LockedFits(role, ChLock(s, i), Use(ServerLock));
    case ServerCall => UseFits(role, ServerLock);
  }

  lemma ScriptFits(c: Call, inHandler: bool)
    ensures AllFit(RoleOf(c, inHandler), Script(c))
  {
    var role := RoleOf(c, inHandler);
    match c
    case OpenSession(s, restored, parts, assets) => OpenSessionFits(role, s, restored, parts, assets);
    case OpenCh(s, parts, currencies) => OpenChFits(role, s, parts, currencies);
    case HandleProposal(s, peers, assets) => HandleProposalFits(role, s, peers, assets);
    case SessionHandleUpdate(s, i) => SessionHandleUpdateFits(role, s, i);
    case RespondChProposal(s, currencies) => RespondFits(role, s, currencies);
    case _ => ShortScriptFits(c);
  }
}
