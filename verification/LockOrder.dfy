/** Every operation of the node takes its locks in order. */
module LockOrder {
  import opened Wrappers
  import opened LockSpec

  // ----- programs that take locks in order

  predicate AllBelow(held: set<Lock>, l: Lock) {
    forall h :: h in held ==> Below(h, l)
  }

  predicate AllAboveChannels(held: set<Lock>) {
    forall h :: h in held ==> Level(h) < 2
  }

  /** The locks held after a program that takes each lock above those it holds, and releases only what
      it holds; None for a program that does not. */
  function After(held: set<Lock>, ops: seq<Op>): Option<set<Lock>>
    decreases ops
  {
    if ops == [] then Some(held)
    else
      var rest := ops[1..];
      match ops[0]
      case Acquire(l) => if AllBelow(held, l) then After(held + {l}, rest) else None
      case Release(l) => if l in held then After(held - {l}, rest) else None
      case Optional(body) => if After(held, body) == Some(held) then After(held, rest) else None
      case EachChannel(s) => if AllAboveChannels(held) then After(held, rest) else None
      case LockAll(s) => if held == {SessLock(s)} then After(held, rest) else None
      case Decide(s, n) =>
        if held == {SessLock(s)} + ChRange(s, 0, n) then After({SessLock(s)}, rest) else None
      case Join(s) => if held == {SessLock(s)} then After(held, rest) else None
      case AddChannel(s) => if SessLock(s) in held then After(held, rest) else None
      case SomeChannel(s) => if AllAboveChannels(held) then After(held, rest) else None
      case Spawn(body) => if After({}, body) == Some({}) then After(held, rest) else None
  }

  lemma {:induction false} AfterConcat(held: set<Lock>, a: seq<Op>, b: seq<Op>)
    requires After(held, a).Some?
    ensures After(held, a + b) == After(After(held, a).value, b)
    decreases a
  {
    if a == [] {
      assert a + b == b;
    } else {
      assert (a + b)[0] == a[0] && (a + b)[1..] == a[1..] + b;
      match a[0]
      case Acquire(l) => AfterConcat(held + {l}, a[1..], b);
      case Release(l) => AfterConcat(held - {l}, a[1..], b);
      case Decide(s, n) => AfterConcat({SessLock(s)}, a[1..], b);
      case _ => AfterConcat(held, a[1..], b);
    }
  }

  /** A program that ends with the locks it began with. */
  predicate Neutral(held: set<Lock>, ops: seq<Op>) {
    After(held, ops) == Some(held)
  }

  lemma NeutralConcat(held: set<Lock>, a: seq<Op>, b: seq<Op>)
    requires Neutral(held, a) && Neutral(held, b)
    ensures Neutral(held, a + b)
  {
    AfterConcat(held, a, b);
  }

  lemma NeutralLocked(held: set<Lock>, l: Lock, body: seq<Op>)
    requires AllBelow(held, l) && Neutral(held + {l}, body)
    ensures Neutral(held, Locked(l, body))
  {
    AfterConcat(held + {l}, body, [Release(l)]);
    assert l !in held;
    assert held + {l} - {l} == held;
    assert After(held, []) == Some(held);
    assert [Release(l)][1..] == [];
    assert Locked(l, body)[1..] == body + [Release(l)];
  }

  lemma NeutralUse(held: set<Lock>, l: Lock)
    requires AllBelow(held, l)
    ensures Neutral(held, Use(l))
  {
    NeutralLocked(held, l, []);
    assert Locked(l, []) == Use(l);
  }

  lemma NeutralOne(held: set<Lock>, op: Op)
    requires match op
      case Optional(body) => Neutral(held, body)
      case Spawn(body) => Neutral({}, body)
      case EachChannel(_) => AllAboveChannels(held)
      case SomeChannel(_) => AllAboveChannels(held)
      case AddChannel(s) => SessLock(s) in held
      case LockAll(s) => held == {SessLock(s)}
      case _ => false
    ensures Neutral(held, [op])
  {
  }

  lemma {:induction false} NeutralRepeat(held: set<Lock>, body: seq<Op>, n: nat)
    requires Neutral(held, body)
    ensures Neutral(held, Repeat(body, n))
  {
    if n > 0 {
      NeutralRepeat(held, body, n - 1);
      NeutralConcat(held, Repeat(body, n - 1), body);
    }
  }

  lemma {:induction false} NeutralVisits(held: set<Lock>, s: nat, n: nat)
    requires AllAboveChannels(held)
    ensures Neutral(held, Visits(s, n))
  {
    if n > 0 {
      NeutralVisits(held, s, n - 1);
      NeutralUse(held, ChLock(s, n - 1));
      NeutralConcat(held, Visits(s, n - 1), Use(ChLock(s, n - 1)));
    }
  }

  lemma {:induction false} AfterTakes(s: nat, n: nat)
    ensures After({SessLock(s)}, Takes(s, n)) == Some({SessLock(s)} + ChRange(s, 0, n))
  {
    if n == 0 {
      assert ChRange(s, 0, 0) == {};
      assert {SessLock(s)} + {} == {SessLock(s)};
    } else {
      AfterTakes(s, n - 1);
      var held, op := {SessLock(s)} + ChRange(s, 0, n - 1), Acquire(ChLock(s, n - 1));
      AfterConcat({SessLock(s)}, Takes(s, n - 1), [op]);
      assert [op][1..] == [];
      assert held + {ChLock(s, n - 1)} == {SessLock(s)} + ChRange(s, 0, n);
    }
  }

  lemma {:induction false} AfterReleases(s: nat, n: nat, m: nat)
    requires n <= m
    ensures After({SessLock(s)} + ChRange(s, 0, m), Releases(s, n)) == Some({SessLock(s)} + ChRange(s, n, m))
  {
    if n > 0 {
      AfterReleases(s, n - 1, m);
      var held, op := {SessLock(s)} + ChRange(s, n - 1, m), Release(ChLock(s, n - 1));
      AfterConcat({SessLock(s)} + ChRange(s, 0, m), Releases(s, n - 1), [op]);
      assert [op][1..] == [];
      assert held - {ChLock(s, n - 1)} == {SessLock(s)} + ChRange(s, n, m);
    }
  }

  // ----- every operation takes its locks in order

  lemma NeutralRegistries(held: set<Lock>, n: nat)
    requires AllBelow(held, ContractsLock)
    ensures Neutral(held, UseRegistries()) && Neutral(held, Repeat(UseRegistries(), n))
  {
    NeutralUse(held, ContractsLock);
    assert AllBelow(held, CurrenciesLock);
    NeutralUse(held, CurrenciesLock);
    NeutralConcat(held, Use(ContractsLock), Use(CurrenciesLock));
    NeutralRepeat(held, UseRegistries(), n);
  }

  lemma NeutralRepeatUse(held: set<Lock>, l: Lock, n: nat)
    requires AllBelow(held, l)
    ensures Neutral(held, Repeat(Use(l), n))
  {
    NeutralUse(held, l);
    NeutralRepeat(held, Use(l), n);
  }

  lemma NeutralNotify(held: set<Lock>, n: nat)
    ensures Neutral(held, Notify()) && Neutral(held, Repeat(Notify(), n))
  {
    NeutralUse({}, ServerLock);
    NeutralOne({}, Optional(Use(ServerLock)));
    NeutralOne(held, Spawn([Optional(Use(ServerLock))]));
    NeutralRepeat(held, Notify(), n);
  }

  lemma OrderedOpenSession(s: nat, restored: nat, parts: nat, assets: nat)
    ensures Neutral({}, Script(OpenSession(s, restored, parts, assets)))
  {
    var h := {NodeLock};
    assert {} + {NodeLock} == h;
    var peers := Repeat(Use(PeersLock(s)), parts);
    var regs := Repeat(UseRegistries(), assets);
    var add := Locked(SessLock(s), [AddChannel(s)]);
    NeutralRepeatUse(h, PeersLock(s), parts);
    NeutralRegistries(h, assets);
    NeutralOne(h + {SessLock(s)}, AddChannel(s));
    NeutralLocked(h, SessLock(s), [AddChannel(s)]);
    NeutralConcat(h, regs, add);
    NeutralConcat(h, peers, regs + add);
    var one := [Optional(peers + (regs + add))];
    NeutralOne(h, one[0]);
    NeutralRepeat(h, one, restored);
    NeutralOne(h + {SessLock(s)}, EachChannel(s));
    NeutralLocked(h, SessLock(s), [EachChannel(s)]);
    var info := [Optional(Locked(SessLock(s), [EachChannel(s)]))];
    NeutralOne(h, info[0]);
    NeutralConcat(h, Repeat(one, restored), info);
    NeutralUse(h, PeersLock(s));
    NeutralUse(h, ContractsLock);
    var restore := Use(ContractsLock) + (Repeat(one, restored) + info);
    NeutralConcat(h, Use(ContractsLock), Repeat(one, restored) + info);
    NeutralConcat(h, Use(PeersLock(s)), restore);
    var tail := Use(PeersLock(s)) + restore;
    NeutralConcat(h, Use(ContractsLock), tail);
    NeutralConcat(h, Use(ContractsLock), Use(ContractsLock) + tail);
    var body := Use(ContractsLock) + (Use(ContractsLock) + tail);
    NeutralOne(h, Optional(body));
    NeutralLocked({}, NodeLock, [Optional(body)]);
  }

  lemma OrderedOpenCh(s: nat, parts: nat, currencies: nat)
    ensures Neutral({}, Script(OpenCh(s, parts, currencies)))
  {
    var peers := Repeat(Use(PeersLock(s)), parts);
    var regs := Repeat(UseRegistries(), currencies);
    var funder := Repeat(Use(ContractsLock), currencies);
    var add := Locked(SessLock(s), [AddChannel(s)]);
    NeutralOne({SessLock(s)}, AddChannel(s));
    assert {} + {SessLock(s)} == {SessLock(s)};
    NeutralLocked({}, SessLock(s), [AddChannel(s)]);
    NeutralOne({}, SomeChannel(s));
    NeutralConcat({}, add, [SomeChannel(s)]);
    NeutralOne({}, Optional(add + [SomeChannel(s)]));
    NeutralRepeatUse({}, ContractsLock, currencies);
    NeutralConcat({}, funder, [Optional(add + [SomeChannel(s)])]);
    var last := Optional(funder + [Optional(add + [SomeChannel(s)])]);
    NeutralOne({}, last);
    NeutralRegistries({}, currencies);
    NeutralConcat({}, regs, [last]);
    NeutralOne({}, Optional(regs + [last]));
    NeutralRepeatUse({}, PeersLock(s), parts);
    NeutralConcat({}, peers, [Optional(regs + [last])]);
    NeutralOne({}, Optional(peers + [Optional(regs + [last])]));
  }

  lemma OrderedHandleProposal(s: nat, peers: nat, assets: nat)
    ensures Neutral({}, Script(HandleProposal(s, peers, assets)))
  {
    var h := {SessLock(s)};
    assert {} + {SessLock(s)} == h;
    NeutralNotify(h, 1);
    NeutralOne(h, Optional(Notify()));
    NeutralLocked({}, SessLock(s), [Optional(Notify())]);
    var store := Locked(SessLock(s), [Optional(Notify())]);
    NeutralOne({}, Optional(store));
    NeutralRegistries({}, assets);
    NeutralConcat({}, Repeat(UseRegistries(), assets), [Optional(store)]);
    NeutralRepeatUse({}, PeersLock(s), peers);
    NeutralConcat({}, Repeat(Use(PeersLock(s)), peers), Repeat(UseRegistries(), assets) + [Optional(store)]);
    NeutralOne({}, Optional(Repeat(Use(PeersLock(s)), peers) + (Repeat(UseRegistries(), assets) + [Optional(store)])));
  }

  lemma OrderedRespondChProposal(s: nat, currencies: nat)
    ensures Neutral({}, Script(RespondChProposal(s, currencies)))
  {
    var add := Locked(SessLock(s), [AddChannel(s)]);
    assert {} + {SessLock(s)} == {SessLock(s)};
    NeutralOne({SessLock(s)}, AddChannel(s));
    NeutralLocked({}, SessLock(s), [AddChannel(s)]);
    NeutralOne({}, Optional(add));
    NeutralRepeatUse({}, ContractsLock, currencies);
    NeutralConcat({}, Repeat(Use(ContractsLock), currencies), [Optional(add)]);
    var accept := Optional(Repeat(Use(ContractsLock), currencies) + [Optional(add)]);
    NeutralOne({}, accept);
    NeutralUse({}, SessLock(s));
    NeutralConcat({}, Use(SessLock(s)), [accept]);
    NeutralOne({}, Optional(Use(SessLock(s)) + [accept]));
  }

  /** An operation that takes one lock and, under it, possibly one thing more. */
  lemma OrderedSection(l: Lock, body: seq<Op>)
    requires Neutral({l}, body)
    ensures Neutral({}, Locked(l, body)) && Neutral({}, Locked(l, [Optional(body)]))
  {
    assert {} + {l} == {l};
    NeutralOne({l}, Optional(body));
    NeutralLocked({}, l, body);
    NeutralLocked({}, l, [Optional(body)]);
  }

  lemma OrderedRegisterCurrency()
    ensures Neutral({}, Script(RegisterCurrency))
  {
    var h, both := {NodeLock}, Use(ContractsLock) + [Optional(Use(CurrenciesLock))];
    NeutralUse(h, ContractsLock);
    NeutralUse(h, CurrenciesLock);
    NeutralOne(h, Optional(Use(CurrenciesLock)));
    NeutralConcat(h, Use(ContractsLock), [Optional(Use(CurrenciesLock))]);
    OrderedSection(NodeLock, both);
  }

  lemma OrderedSectionUse(l: Lock, inner: Lock)
    requires Below(l, inner)
    ensures Neutral({}, Locked(l, [Optional(Use(inner))]))
  {
    NeutralUse({l}, inner);
    OrderedSection(l, Use(inner));
  }

  lemma OrderedSectionNotify(l: Lock, n: nat)
    ensures Neutral({}, Locked(l, [Optional(Repeat(Notify(), n))])) && Neutral({}, Locked(l, [Optional(Notify())]))
  {
    NeutralNotify({l}, n);
    OrderedSection(l, Repeat(Notify(), n));
    OrderedSection(l, Notify());
  }

  lemma OrderedSessionHandleUpdate(s: nat, i: nat)
    ensures Neutral({}, Script(SessionHandleUpdate(s, i)))
  {
    var handler := Spawn(Locked(ChLock(s, i), [Optional(Notify())]));
    OrderedSectionNotify(ChLock(s, i), 1);
    NeutralOne({SessLock(s)}, handler);
    OrderedSection(SessLock(s), [handler]);
  }

  lemma OrderedOverChannels(s: nat)
    ensures Neutral({}, Script(GetChsInfo(s))) && Neutral({}, Script(CloseSession(s)))
  {
    NeutralOne({SessLock(s)}, EachChannel(s));
    OrderedSection(SessLock(s), [EachChannel(s)]);
    NeutralOne({SessLock(s)}, LockAll(s));
    OrderedSection(SessLock(s), [LockAll(s)]);
  }

  /** Every operation of the node takes each lock above all locks it holds, and ends holding none. */
  lemma EveryOperationInOrder(c: Call)
    ensures After({}, Script(c)) == Some({})
  {
    match c
    case OpenSession(s, restored, parts, assets) => OrderedOpenSession(s, restored, parts, assets);
    case RegisterCurrency => OrderedRegisterCurrency();
    case GetSession => NeutralUse({}, NodeLock);
    case AddPeerID(s) => OrderedSectionUse(SessLock(s), PeersLock(s));
    case GetPeerID(s) => OrderedSectionUse(SessLock(s), PeersLock(s));
    case OpenCh(s, parts, currencies) => OrderedOpenCh(s, parts, currencies);
    case HandleProposal(s, peers, assets) => OrderedHandleProposal(s, peers, assets);
    case SubChProposals(s, cached) => OrderedSectionNotify(SessLock(s), cached);
    case UnsubChProposals(s) => NeutralUse({}, SessLock(s));
    case RespondChProposal(s, currencies) => OrderedRespondChProposal(s, currencies);
    case GetChsInfo(s) => OrderedOverChannels(s);
    case GetCh(s) => NeutralUse({}, SessLock(s));
    case SessionHandleUpdate(s, i) => OrderedSessionHandleUpdate(s, i);
    case CloseSession(s) => OrderedOverChannels(s);
    case DeployAsset(s) => OrderedSectionUse(SessLock(s), ContractsLock);
    case ChannelCall(s, i) => NeutralUse({}, ChLock(s, i));
    case SubChUpdates(s, i, cached) => OrderedSectionNotify(ChLock(s, i), cached);
    case AdjudicatorEvent(s, i) => OrderedSectionUse(ChLock(s, i), ServerLock);
    case ServerCall => NeutralUse({}, ServerLock);
  }
}
