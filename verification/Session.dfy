/** The session object of session/session.go with its registry of channels. */
module SessionObject {
  import opened Wrappers
  import opened ChannelObject
  import Chan = ChannelSpec
  import Spec = ProposalSpec
  import ProposalRuns
  import opened Notifications
  import opened Opening
  import opened PeerCache
  import Peers = PeerCacheSpec
  import opened RegistrySpec
  import opened RegistryObjects

  /** The channels of a session, in the order in which they were put, and their indices by identifier. */
  class ChRegistry {
    var chIdxs: map<string, nat>
    var chs: seq<Channel>

    /** Every identifier leads to the last channel put with it, and every channel's has an index. */
    ghost predicate Valid()
      reads this
    {
      && (forall id :: id in chIdxs ==>
            && chIdxs[id] < |chs|
            && chs[chIdxs[id]].id == id
            && forall j :: chIdxs[id] < j < |chs| ==> chs[j].id != id)
      && (forall i :: 0 <= i < |chs| ==> chs[i].id in chIdxs)
    }

    /** The channel was put, and no later one has its identifier. */
    ghost predicate IsLast(ch: Channel)
      reads this
    {
      exists i :: 0 <= i < |chs| && chs[i] == ch && forall j :: i < j < |chs| ==> chs[j].id != ch.id
    }

    constructor ()
      ensures Valid() && chs == []
    {
      chIdxs, chs := map[], [];
    }

    method Put(ch: Channel)
      requires Valid()
      modifies this
      ensures Valid() && chs == old(chs) + [ch]
    {
      chs := chs + [ch];
      chIdxs := chIdxs[ch.id := |chs| - 1];
    }

    /** The channel found is the last one put with that identifier. */
    method Get(chID: string) returns (ch: Channel?)
      requires Valid()
      ensures ch == null <==> forall i :: 0 <= i < |chs| ==> chs[i].id != chID
      ensures ch != null ==> ch.id == chID && IsLast(ch)
    {
      if chID !in chIdxs {
        return null;
      }
      return chs[chIdxs[chID]];
    }
  }

  /** Two channels put with one identifier: only the second is found by it, but both stay listed. */
  method PutTwice(id: string, response: int, pch: Chan.PState)
    returns (r: ChRegistry, first: Channel, second: Channel, found: Channel?)
    ensures first != second && first.id == second.id == id
    ensures r.Valid() && r.chs == [first, second] && found == second
  {
    r := new ChRegistry();
    first := new Channel(id, response, pch, Acting);
    second := new Channel(id, response, pch, Acting);
    r.Put(first);
    r.Put(second);
    found := r.Get(id);
    assert r.chs[1].id == id;
    LastOfTwo(r, first, second, found);
  }

  lemma LastOfTwo(r: ChRegistry, first: Channel, second: Channel, found: Channel)
    requires r.chs == [first, second] && first.id == second.id && r.IsLast(found)
    ensures found == second
  {
    assert r.chs[1] == second;
  }

  datatype CloseError =
    | SessionClosed
    | UnexpectedPhase(chs: seq<Chan.ChInfo>)
    | OpenChannels(chs: seq<Chan.ChInfo>)
    | ClientError

  /** The infos of the open channels, in the order in which the channels were put. */
  ghost function OpenInfos(chs: seq<Channel>): seq<Chan.ChInfo>
    reads chs`status, chs`pch
  {
    if chs == [] then []
    else
      var ch := chs[|chs| - 1];
      OpenInfos(chs[..|chs| - 1]) + if ch.status == Chan.Open then [ch.GetChInfo()] else []
  }

  predicate StablePhase(phase: Phase) {
    phase == Acting || phase == Withdrawn
  }

  /** The infos of the channels in neither of the stable phases, in order. */
  ghost function UnexpectedInfos(chs: seq<Channel>): seq<Chan.ChInfo>
    reads chs`phase, chs`pch
  {
    if chs == [] then []
    else
      var ch := chs[|chs| - 1];
      UnexpectedInfos(chs[..|chs| - 1]) + if StablePhase(ch.phase) then [] else [ch.GetChInfo()]
  }

  predicate AllStable(chs: seq<Channel>)
    reads chs`phase
  {
    forall i :: 0 <= i < |chs| ==> chs[i].phase == Acting || chs[i].phase == Withdrawn
  }

  predicate AllClosed(chs: seq<Channel>)
    reads chs`status
  {
    forall i :: 0 <= i < |chs| ==> chs[i].status == Chan.Closed
  }

  lemma {:induction false} NoUnexpectedInfos(chs: seq<Channel>)
    ensures UnexpectedInfos(chs) == [] <==> AllStable(chs)
  {
    if chs != [] {
      NoUnexpectedInfos(chs[..|chs| - 1]);
    }
  }

  /** The infos of all channels. */
  ghost function Infos(chs: seq<Channel>): (infos: seq<Chan.ChInfo>)
    reads chs`pch
    ensures |infos| == |chs| && forall i :: 0 <= i < |chs| ==> infos[i] == chs[i].GetChInfo()
  {
    if chs == [] then [] else Infos(chs[..|chs| - 1]) + [chs[|chs| - 1].GetChInfo()]
  }

  predicate ExactlyOpen(chs: seq<Channel>, idxs: seq<nat>)
    reads chs`status
  {
    forall i: nat :: i < |chs| ==> (i in idxs <==> chs[i].status == Chan.Open)
  }

  predicate ExactlyUnexpected(chs: seq<Channel>, idxs: seq<nat>)
    reads chs`phase
  {
    forall i: nat :: i < |chs| ==> (i in idxs <==> chs[i].phase != Acting && chs[i].phase != Withdrawn)
  }

  /** One channel more: its index joins those it belongs to. */
  lemma ExactlySnoc(chs: seq<Channel>, n: nat, idxs: seq<nat>)
    requires |chs| == n + 1 && n !in idxs
    ensures ExactlyOpen(chs[..n], idxs) ==> ExactlyOpen(chs, if chs[n].status == Chan.Open then idxs + [n] else idxs)
    ensures ExactlyUnexpected(chs[..n], idxs) ==>
      ExactlyUnexpected(chs, if chs[n].phase == Acting || chs[n].phase == Withdrawn then idxs else idxs + [n])
  {
    assert forall i: nat :: i < n ==> chs[..n][i] == chs[i] && (i in idxs + [n] <==> i in idxs);
  }

  /** The open channels are listed in order: those at increasing indices, exactly the open ones. */
  lemma {:induction false} OpenListedInOrder(chs: seq<Channel>) returns (idxs: seq<nat>)
    ensures Picks(Infos(chs), idxs, OpenInfos(chs)) && ExactlyOpen(chs, idxs)
  {
    if chs == [] {
      idxs := [];
    } else {
      var n := |chs| - 1;
      idxs := OpenListedInOrder(chs[..n]);
      PicksSnoc(Infos(chs[..n]), chs[n].GetChInfo(), idxs, OpenInfos(chs[..n]));
      ExactlySnoc(chs, n, idxs);
      idxs := if chs[n].status == Chan.Open then idxs + [n] else idxs;
    }
  }

  /** The same for the channels in neither of the phases Acting and Withdrawn. */
  lemma {:induction false} UnexpectedListedInOrder(chs: seq<Channel>) returns (idxs: seq<nat>)
    ensures Picks(Infos(chs), idxs, UnexpectedInfos(chs)) && ExactlyUnexpected(chs, idxs)
  {
    if chs == [] {
      idxs := [];
    } else {
      var n := |chs| - 1;
      idxs := UnexpectedListedInOrder(chs[..n]);
      PicksSnoc(Infos(chs[..n]), chs[n].GetChInfo(), idxs, UnexpectedInfos(chs[..n]));
      ExactlySnoc(chs, n, idxs);
      idxs := if StablePhase(chs[n].phase) then idxs else idxs + [n];
    }
  }

  lemma {:induction false} NoOpenInfos(chs: seq<Channel>)
    ensures OpenInfos(chs) == [] <==> AllClosed(chs)
  {
    if chs != [] {
      NoOpenInfos(chs[..|chs| - 1]);
    }
  }

  predicate AllUnlocked(chs: seq<Channel>)
    reads chs`locked
  {
    forall i :: 0 <= i < |chs| ==> !chs[i].locked
  }

  predicate AllLocked(chs: seq<Channel>)
    reads chs`locked
  {
    forall i :: 0 <= i < |chs| ==> chs[i].locked
  }

  /** A refusal, as opposed to an error of the library when the session is already closed. */
  predicate Refused(err: Option<CloseError>) {
    err.Some? && !err.value.ClientError?
  }

  /** What the session does with an incoming update: rejecting it, or starting its channel's handler in a
      goroutine of its own. */
  datatype Dispatch = RejectedUnknownChannel(responder: nat) | HandedTo(ch: Channel, responder: nat)

  /** What the library hands to the session's handler: a ledger channel proposal with the off-chain
      addresses of the peers and one row of opening balances for each asset, or one of another kind. */
  datatype ChProposal =
    | LedgerChProposal(id: string, peers: seq<Address>, assets: seq<Address>, balances: seq<seq<int>>)
    | OtherChProposal

  class Session {
    const chs: ChRegistry
    const idProvider: IdProviderCache
    const contractRegistry: ContractRegistry
    const currencyRegistry: CurrencyRegistry
    var isOpen: bool
    var chProposalNotifier: Option<nat>
    var chProposalNotifsCache: seq<Spec.ProposalNotif>
    var chProposalResponders: map<string, Spec.Entry>

    ghost var handled: seq<Spec.ProposalNotif>
    ghost var launched: seq<Launch<Spec.ProposalNotif>>
    ghost var answers: seq<Spec.Answer>    // calls of Accept and Reject
    ghost var dispatched: seq<Dispatch>    // what was done with the incoming updates

    ghost function View(): Spec.Shared
      reads this
    {
      Spec.Shared(isOpen, chProposalNotifier, chProposalNotifsCache, chProposalResponders, handled, launched)
    }

    constructor (idProvider: IdProviderCache, contracts: ContractRegistry, interpreters: CurrencyRegistry)
      ensures View() == Spec.NewSession().sh && answers == [] && isOpen
      ensures chProposalNotifier == None && chProposalNotifsCache == [] && chProposalResponders == map[]
      ensures this.idProvider == idProvider && contractRegistry == contracts && currencyRegistry == interpreters
      ensures fresh(chs) && chs.Valid() && chs.chs == []
    {
      chs := new ChRegistry();
      this.idProvider, contractRegistry, currencyRegistry := idProvider, contracts, interpreters;
      isOpen, chProposalNotifier, chProposalNotifsCache, chProposalResponders := true, None, [], map[];
      handled, launched, answers, dispatched := [], [], [], [];
    }

    // ----- proposals

    /** A proposal as the peer cache and the contract registry see it. */
    function Seen(p: ChProposal): Spec.Proposal
      requires p.LedgerChProposal?
      reads idProvider, contractRegistry
    {
      Spec.Proposal(p.id, Peers.AllKnown(idProvider.walletBackend, idProvider.View(), p.peers),
                    AllRegistered(contractRegistry.View(), p.assets))
    }

    /** Calling the responder's Reject. */
    method RejectChProposal(responder: nat, ghost byUser: bool, ghost now: int, ok: bool)
      returns (err: Option<Chan.ApiError>)
      modifies this`answers
      ensures answers == old(answers) + [Spec.Answer(responder, false, byUser, now)]
      ensures err == if ok then None else Some(Chan.LibraryError)
    {
      answers := answers + [Spec.Answer(responder, false, byUser, now)];
      return if ok then None else Some(Chan.LibraryError);
    }

    /** The aliases of the peers, read up to the first unknown one, for which the proposal is rejected. */
    method ReadPeers(peers: seq<Address>, responder: nat, ghost now: int, rejectOk: bool)
      returns (parts: seq<string>, known: bool)
      modifies this`answers
      ensures known <==> Peers.AllKnown(idProvider.walletBackend, idProvider.View(), peers)
      ensures Peers.Named(idProvider.walletBackend, idProvider.View(), peers, parts)
      ensures answers == old(answers) + if known then [] else [Spec.Answer(responder, false, false, now)]
    {
      ghost var b, c := idProvider.walletBackend, idProvider.View();
      parts := seq(|peers|, _ => "");
      for i := 0 to |peers|
        invariant answers == old(answers) && Peers.NamedUpTo(b, c, peers, parts, i)
      {
        var p := idProvider.ReadByOffChainAddr(Some(peers[i]));
        if p.None? {
          Peers.NamedUpToUnknown(b, c, peers, parts, i);
          // A failure to reject is only logged.
          var _ := RejectChProposal(responder, false, now, rejectOk);
          return parts, false;
        }
        parts := parts[i := p.value.alias];
      }
      Peers.NamedUpToUnknown(b, c, peers, parts, |peers|);
      return parts, true;
    }

    /** The balances in the notification of a proposal, if all its assets are registered. */
    method MakeProposalBalInfo(parts: seq<string>, assets: seq<Address>, balances: seq<seq<int>>)
      returns (info: Option<BalInfo>)
      requires contractRegistry.Valid() && currencyRegistry.Valid()
      requires Covered(contractRegistry.View(), currencyRegistry.View())
      requires |balances| == |assets|
      ensures info.Some? <==> AllRegistered(contractRegistry.View(), assets)
      ensures info.Some? ==>
        && info.value.parts == parts
        && Shows(contractRegistry.View(), currencyRegistry.View(), info.value, assets, balances)
    {
      var currencies := GetCurrencies(assets, contractRegistry, currencyRegistry);
      if currencies.None? {
        return None;
      }
      var balInfo := MakeBalInfoFromRawBal(parts, currencies.value, balances);
      return Some(balInfo);
    }

    /** The handler of an incoming proposal, which is a thread of `ProposalSpec` running alone, with
        the answers of the peer cache and of the contract registry. It stops at the notification if an
        asset is not registered; otherwise the notification names the peers and shows the balances. */
    method HandleProposal(p: ChProposal, responder: nat, now: int, response: nat, rejectOk: bool)
      returns (info: Option<BalInfo>)
      requires contractRegistry.Valid() && currencyRegistry.Valid()
      requires Covered(contractRegistry.View(), currencyRegistry.View())
      requires p.LedgerChProposal? ==> |p.balances| == |p.assets|
      modifies this`chProposalResponders, this`chProposalNotifsCache, this`handled, this`launched, this`answers
      ensures p.OtherChProposal? || !isOpen ==> View() == old(View()) && answers == old(answers) && info == None
      ensures p.LedgerChProposal? ==>
        var seen := old(Seen(p));
        var end := Spec.Alone(old(View()), Spec.HandlerStart(seen, responder), now, response, 4);
        && View() == end.sh && answers == old(answers) + end.answers
        && (info.Some? <==> isOpen && seen.assetsKnown)
        && (info.Some? ==>
              && Peers.Named(idProvider.walletBackend, old(idProvider.View()), p.peers, info.value.parts)
              && Shows(old(contractRegistry.View()), old(currencyRegistry.View()), info.value, p.assets, p.balances))
    {
      if p.OtherChProposal? {
        return None;
      }
      ProposalRuns.HandlerAlone(View(), Seen(p), responder, now, response);
      var expiry := now + response;
      if !isOpen {
        return None;
      }
      var parts, known := ReadPeers(p.peers, responder, now, rejectOk);
      if !known {
        expiry := 0;
      }
      info := MakeProposalBalInfo(parts, p.assets, p.balances);
      if info.None? {
        var _ := RejectChProposal(responder, false, now, rejectOk);
        return None;
      }
      StoreProposal(p.id, responder, expiry);
    }

    /** The last section of a proposal's handler: a proposal the node has not rejected is stored, and
        its notification is sent or cached. */
    method StoreProposal(proposalID: string, responder: nat, expiry: int)
      modifies this`chProposalResponders, this`chProposalNotifsCache, this`handled, this`launched
      ensures View() == Spec.Store(old(View()), proposalID, responder, expiry)
      ensures var notif := Spec.ProposalNotif(proposalID, expiry);
        && handled == old(handled) + [notif]
        && chProposalResponders == (if expiry == 0 then old(chProposalResponders)
                                    else old(chProposalResponders)[proposalID := Spec.Entry(notif, responder)])
        && chProposalNotifsCache == old(chProposalNotifsCache) + (if chProposalNotifier.None? then [notif] else [])
        && launched == old(launched) + match chProposalNotifier
                                       case None => []
                                       case Some(n) => [Launch(n, notif)]
    {
      var notif := Spec.ProposalNotif(proposalID, expiry);
      handled := handled + [notif];
      if expiry != 0 {
        chProposalResponders := chProposalResponders[proposalID := Spec.Entry(notif, responder)];
      }
      if chProposalNotifier.None? {
        chProposalNotifsCache := chProposalNotifsCache + [notif];
      } else {
        launched := launched + [Launch(chProposalNotifier.value, notif)];
      }
    }

    /** The section of a response that looks up the proposal and deletes it. */
    method TakeProposal(proposalID: string) returns (entry: Option<Spec.Entry>)
      modifies this`chProposalResponders
      ensures (View(), entry) == Spec.Take(old(View()), proposalID)
      ensures chProposalResponders == old(chProposalResponders) - {proposalID}
      ensures entry == if proposalID in old(chProposalResponders)
                       then Some(old(chProposalResponders)[proposalID]) else None
    {
      if proposalID !in chProposalResponders {
        return None;
      }
      entry := Some(chProposalResponders[proposalID]);
      chProposalResponders := chProposalResponders - {proposalID};
    }

    /** A user's response, which is a thread of `ProposalSpec` running alone. An accepted proposal opens
        a channel if the library succeeds. */
    method RespondChProposal(proposalID: string, accept: bool, now: int, newCh: Channel?, rejectOk: bool)
      returns (info: Chan.ChInfo, err: Option<Chan.ApiError>)
      requires chs.Valid()
      modifies this`chProposalResponders, this`answers, chs
      ensures chs.Valid()
      ensures var end := Spec.Alone(old(View()), Spec.RespondStart(proposalID, accept), now, 0, 3);
        && View() == end.sh && answers == old(answers) + end.answers
        && (err.None? <==> |end.answers| == 1 && if accept then newCh != null else rejectOk)
        && (err.Some? && |end.answers| == 1 ==> err == Some(Chan.LibraryError))
      ensures chProposalResponders ==
        if isOpen then old(chProposalResponders) - {proposalID} else old(chProposalResponders)
      ensures answers == old(answers) +
        if isOpen && proposalID in old(chProposalResponders)
           && now <= old(chProposalResponders)[proposalID].notif.expiry
        then [Spec.Answer(old(chProposalResponders)[proposalID].responder, accept, true, now)] else []
      ensures err.None? && accept ==> chs.chs == old(chs.chs) + [newCh] && info == newCh.GetChInfo()
      ensures !(err.None? && accept) ==> chs.chs == old(chs.chs) && info == Chan.NoChInfo
      ensures err == Some(Chan.FailedPreCondition) <==> !isOpen
      ensures err == Some(Chan.ResourceNotFound) <==> isOpen && proposalID !in old(chProposalResponders)
      ensures err.Some? && err.value.UserResponseTimedOut? <==>
        isOpen && proposalID in old(chProposalResponders) && old(chProposalResponders)[proposalID].notif.expiry < now
    {
      ProposalRuns.ResponseAlone(View(), proposalID, accept, now, 0);
      if !isOpen {
        return Chan.NoChInfo, Some(Chan.FailedPreCondition);
      }
      var entry := TakeProposal(proposalID);
      if entry.None? {
        return Chan.NoChInfo, Some(Chan.ResourceNotFound);
      }
      var expiry := entry.value.notif.expiry;
      if expiry < now {
        return Chan.NoChInfo, Some(Chan.UserResponseTimedOut(expiry, now));
      }
      if !accept {
        err := RejectChProposal(entry.value.responder, true, now, rejectOk);
        return Chan.NoChInfo, err;
      }
      answers := answers + [Spec.Answer(entry.value.responder, true, true, now)];
      if newCh == null {
        return Chan.NoChInfo, Some(Chan.LibraryError);
      }
      AddCh(newCh);
      return newCh.GetChInfo(), None;
    }

    method SubChProposals(notifier: nat) returns (err: Option<Chan.ApiError>)
      modifies this`chProposalNotifier, this`chProposalNotifsCache, this`launched
      ensures View() == Spec.Sub(old(View()), notifier)
      ensures err.None? ==> chProposalNotifier == Some(notifier) && chProposalNotifsCache == []
      ensures err.Some? ==> View() == old(View())
      ensures err == (if !isOpen then Some(Chan.FailedPreCondition)
                      else if old(chProposalNotifier).Some? then Some(Chan.ResourceExists) else None)
    {
      if !isOpen {
        return Some(Chan.FailedPreCondition);
      }
      if chProposalNotifier.Some? {
        return Some(Chan.ResourceExists);
      }
      chProposalNotifier := Some(notifier);
      ghost var cached, before := chProposalNotifsCache, launched;
      var i := |chProposalNotifsCache|;
      while i > 0
        invariant 0 <= i <= |cached| && chProposalNotifier == Some(notifier)
        invariant chProposalNotifsCache == cached[|cached| - i..]
        invariant launched == before + LaunchAll(notifier, cached[..|cached| - i])
      {
        ghost var k := |cached| - i;
        assert LaunchAll(notifier, cached[..k + 1])
            == LaunchAll(notifier, cached[..k]) + [Launch(notifier, cached[k])];
        launched := launched + [Launch(chProposalNotifier.value, chProposalNotifsCache[0])];
        chProposalNotifsCache := chProposalNotifsCache[1..i];
        i := i - 1;
      }
      assert cached[..|cached|] == cached;
      return None;
    }

    method UnsubChProposals() returns (err: Option<Chan.ApiError>)
      modifies this`chProposalNotifier
      ensures View() == Spec.Unsub(old(View()))
      ensures isOpen ==> chProposalNotifier == None
      ensures !isOpen ==> chProposalNotifier == old(chProposalNotifier)
      ensures err == (if !isOpen then Some(Chan.FailedPreCondition)
                      else if old(chProposalNotifier).None? then Some(Chan.ResourceNotFound) else None)
    {
      if !isOpen {
        return Some(Chan.FailedPreCondition);
      }
      if chProposalNotifier.None? {
        return Some(Chan.ResourceNotFound);
      }
      chProposalNotifier := None;
      return None;
    }

    // ----- channels

    method AddCh(ch: Channel)
      requires chs.Valid()
      modifies chs
      ensures chs.Valid() && chs.chs == old(chs.chs) + [ch]
      ensures Distinct(old(chs.chs)) && ch !in old(chs.chs) ==> Distinct(chs.chs)
    {
      chs.Put(ch);
    }

    /** An update goes to the last channel with the identifier it names; one for an unknown channel is
        rejected, and a closed session drops it without an answer. */
    method HandleUpdate(chID: string, responder: nat)
      requires chs.Valid()
      modifies this`dispatched
      ensures !isOpen ==> dispatched == old(dispatched)
      ensures isOpen && (forall i :: 0 <= i < |chs.chs| ==> chs.chs[i].id != chID) ==>
        dispatched == old(dispatched) + [RejectedUnknownChannel(responder)]
      ensures isOpen && (exists i :: 0 <= i < |chs.chs| && chs.chs[i].id == chID) ==>
        exists ch :: ch in chs.chs && ch.id == chID && chs.IsLast(ch)
          && dispatched == old(dispatched) + [HandedTo(ch, responder)]
    {
      if !isOpen {
        return;
      }
      var ch := chs.Get(chID);
      if ch == null {
        dispatched := dispatched + [RejectedUnknownChannel(responder)];
        return;
      }
      dispatched := dispatched + [HandedTo(ch, responder)];
    }

    /** The info of every channel, in the order in which they were put, each read under its lock. */
    method GetChsInfo() returns (infos: seq<Chan.ChInfo>)
      requires Distinct(chs.chs) && AllUnlocked(chs.chs)
      modifies chs.chs`locked
      ensures AllUnlocked(chs.chs)
      ensures |infos| == |chs.chs| && forall i :: 0 <= i < |infos| ==> infos[i] == chs.chs[i].GetChInfo()
    {
      infos := [];
      for i := 0 to |chs.chs|
        invariant AllUnlocked(chs.chs)
        invariant |infos| == i && forall j :: 0 <= j < i ==> infos[j] == chs.chs[j].GetChInfo()
      {
        var ch := chs.chs[i];
        ch.Lock();
        infos := infos + [ch.GetChInfo()];
        ch.Unlock();
      }
    }

    method UnlockAllChs()
      requires Distinct(chs.chs) && AllLocked(chs.chs)
      modifies chs.chs`locked
      ensures AllUnlocked(chs.chs)
    {
      for i := 0 to |chs.chs|
        invariant forall j :: 0 <= j < |chs.chs| ==> chs.chs[j].locked == (j >= i)
      {
        chs.chs[i].Unlock();
      }
    }

    /** Taking every channel's lock, in the order in which the channels were put, and noting which are
        open and which are in an unexpected phase. */
    method LockAllChs() returns (openChsInfo: seq<Chan.ChInfo>, unexpected: seq<Chan.ChInfo>)
      requires Distinct(chs.chs) && AllUnlocked(chs.chs)
      modifies chs.chs`locked
      ensures AllLocked(chs.chs)
      ensures openChsInfo == old(OpenInfos(chs.chs)) && unexpected == old(UnexpectedInfos(chs.chs))
    {
      openChsInfo, unexpected := [], [];
      for i := 0 to |chs.chs|
        invariant forall j :: 0 <= j < |chs.chs| ==> chs.chs[j].locked == (j < i)
        invariant openChsInfo == old(OpenInfos(chs.chs[..i])) && unexpected == old(UnexpectedInfos(chs.chs[..i]))
      {
        var ch := chs.chs[i];
        ch.Lock();
        if !StablePhase(ch.phase) {
          unexpected := unexpected + [ch.GetChInfo()];
        }
        if ch.status == Chan.Open {
          openChsInfo := openChsInfo + [ch.GetChInfo()];
        }
        assert chs.chs[..i + 1][..i] == chs.chs[..i];
      }
      assert chs.chs[..|chs.chs|] == chs.chs;
    }

    /** Closing the session is all or nothing. It is refused, with every channel's lock released again
        and the session left open, if some channel is in neither of the stable phases, or if some
        channel is open and closing is not forced. Otherwise the session is closed, the open channels
        are returned in the order in which they were put, and the channels' locks stay taken. */
    method Close(force: bool, clientClosed: bool) returns (openChs: seq<Chan.ChInfo>, err: Option<CloseError>)
      requires Distinct(chs.chs) && AllUnlocked(chs.chs)
      modifies this`isOpen, chs.chs`locked
      ensures err == Some(SessionClosed) <==> !old(isOpen)
      ensures err.Some? && err.value.UnexpectedPhase? <==> old(isOpen) && !old(AllStable(chs.chs))
      ensures err.Some? && err.value.UnexpectedPhase? ==> err.value.chs == old(UnexpectedInfos(chs.chs))
      ensures err.Some? && err.value.OpenChannels? <==>
        old(isOpen) && old(AllStable(chs.chs)) && !force && !old(AllClosed(chs.chs))
      ensures err.Some? && err.value.OpenChannels? ==> err.value.chs == old(OpenInfos(chs.chs))
      ensures old(isOpen) && old(AllStable(chs.chs)) && (force || old(AllClosed(chs.chs))) ==>
        !isOpen && err == if clientClosed then None else Some(ClientError)
      ensures Refused(err) ==> isOpen == old(isOpen) && AllUnlocked(chs.chs) && openChs == []
      ensures !Refused(err) ==>
        && old(isOpen) && !isOpen && AllLocked(chs.chs)
        && openChs == old(OpenInfos(chs.chs)) && (!force ==> openChs == [])
        && old(AllStable(chs.chs)) && (!force ==> old(AllClosed(chs.chs)))
    {
      NoUnexpectedInfos(chs.chs);
      NoOpenInfos(chs.chs);
      if !isOpen {
        return [], Some(SessionClosed);
      }
      var openChsInfo, unexpected := LockAllChs();
      if |unexpected| != 0 {
        UnlockAllChs();
        return [], Some(UnexpectedPhase(unexpected));
      }
      if !force && |openChsInfo| != 0 {
        UnlockAllChs();
        return [], Some(OpenChannels(openChsInfo));
      }
      isOpen := false;
      return openChsInfo, if clientClosed then None else Some(ClientError);
    }
  }
}
