/** Conservation over whole runs of a payment channel: both sides send only payment batches and
    finalisations, every other operation may come in between, and any of them may fail. */
module PaymentRuns {
  import opened Wrappers
  import opened ChannelSpec
  import opened ChannelRuns
  import opened Payments

  /** An operation on a payment channel. A peer's proposal is its batch, or its finalisation, of the
      state it was made from: the agreed state, or an older one if the proposal is handled late. */
  datatype PayEvent =
    | Pay(moves: seq<Move>, ok: bool)
    | PeerPays(base: PState, moves: seq<Move>, now: int)
    | PeerFinalizes(base: PState, now: int)
    | Other(event: Event)

  /** A peer's proposal: the agreed state it was made from, and its batch. */
  datatype Offer = Offer(base: PState, moves: seq<Move>, isFinal: bool)

  /** A channel with, on the side, the offer behind each handled update and the batches agreed. */
  datatype PayWorld = PayWorld(w: World, offers: seq<Offer>, agreed: seq<seq<Move>>)

  predicate ValidEvent(e: PayEvent, currencies: nat, parties: nat) {
    match e
    case Pay(moves, _) => AllPaired(moves, currencies, parties)
    case PeerPays(_, moves, _) => AllPaired(moves, currencies, parties)
    case PeerFinalizes(_, _) => true
    case Other(event) => !event.HandleUpdate? && !event.SendChUpdate?
  }

  function OfferState(o: Offer): PState {
    PState(o.base.version + 1, o.isFinal, ApplyMoves(o.base.bals, o.moves))
  }

  /** A proposal is made from an older state or from the agreed one. */
  function BaseOf(base: PState, p: PState): PState {
    if base.version < p.version then base else p
  }

  /** The offer an event makes, where p is the agreed state. */
  function OfferOf(e: PayEvent, p: PState): Option<Offer> {
    match e
    case PeerPays(base, moves, _) => Some(Offer(BaseOf(base, p), moves, false))
    case PeerFinalizes(base, _) => Some(Offer(BaseOf(base, p), [], true))
    case Pay(_, _) => None
    case Other(_) => None
  }

  /** The channel operation behind an event. */
  function Lower(e: PayEvent, p: PState): Event {
    match e
    case Pay(moves, ok) => SendChUpdate(BatchUpdater(moves), ok)
    case PeerPays(base, moves, now) =>
      HandleUpdate(Some(BaseOf(base, p)), OfferState(Offer(BaseOf(base, p), moves, false)), now)
    case PeerFinalizes(base, now) =>
      HandleUpdate(Some(BaseOf(base, p)), OfferState(Offer(BaseOf(base, p), [], true)), now)
    case Other(event) => event
  }

  /** The batch that an event agrees on if it moves the channel to its next version. */
  function BatchOf(e: PayEvent, w: World, offers: seq<Offer>): seq<Move> {
    match e
    case Pay(moves, _) => moves
    case Other(RespondChUpdate(id, _, _, _, _)) =>
      if id in w.ch.responders && w.ch.responders[id].responder.id < |offers|
      then offers[w.ch.responders[id].responder.id].moves else []
    case _ => []
  }

  function PayStep(p: PayWorld, e: PayEvent): PayWorld {
    var v := Step(p.w, Lower(e, p.w.ch.pch));
    PayWorld(
      v,
      if |v.tr.handled| > |p.w.tr.handled| && OfferOf(e, p.w.ch.pch).Some?
      then p.offers + [OfferOf(e, p.w.ch.pch).value] else p.offers,
      if v.ch.pch.version != p.w.ch.pch.version then p.agreed + [BatchOf(e, p.w, p.offers)] else p.agreed)
  }

  function PayRun(p: PayWorld, evs: seq<PayEvent>): PayWorld {
    if evs == [] then p else PayStep(PayRun(p, evs[..|evs| - 1]), evs[|evs| - 1])
  }

  function NewPayCh(id: string, response: int, opening: PState): PayWorld {
    PayWorld(NewCh(id, response, opening), [], [])
  }

  function Flatten(batches: seq<seq<Move>>): seq<Move> {
    if batches == [] then [] else Flatten(batches[..|batches| - 1]) + batches[|batches| - 1]
  }

  /** Each offer was made from a state the channel has left behind or is still in. */
  predicate OffersInv(p: PayWorld) {
    && |p.offers| == |p.w.tr.handled|
    && forall k :: 0 <= k < |p.offers| ==>
         && p.w.tr.handled[k].proposed == OfferState(p.offers[k])
         && p.offers[k].base.version <= p.w.ch.pch.version
         && (p.offers[k].base.version == p.w.ch.pch.version ==> p.offers[k].base == p.w.ch.pch)
  }

  predicate PayInv(p: PayWorld, opening: PState) {
    && AnswerInv(p.w)
    && OffersInv(p)
    && p.w.ch.pch.version == opening.version + |p.agreed|
    && p.w.ch.pch.bals == ApplyMoves(opening.bals, Flatten(p.agreed))
  }

  /** From w to v the agreed state stays, or goes to its next version with the batch made on it. */
  predicate StaysOrAdvances(w: World, v: World, batch: seq<Move>) {
    || v.ch.pch == w.ch.pch
    || (!w.ch.pch.isFinal && v.ch.pch.version == w.ch.pch.version + 1
        && v.ch.pch.bals == ApplyMoves(w.ch.pch.bals, batch))
  }

  /** Accepting a pending offer can only advance the state the offer was made from. */
  lemma AdvanceByRespond(p: PayWorld, id: string, accept: bool, now: int, ok: bool, registerOk: bool)
    requires AnswerInv(p.w) && OffersInv(p)
    ensures var e := Other(RespondChUpdate(id, accept, now, ok, registerOk));
      StaysOrAdvances(p.w, RespondStep(p.w, id, accept, now, ok, registerOk), BatchOf(e, p.w, p.offers))
  {
  }

  lemma AdvanceByOther(w: World, e: Event)
    requires !e.RespondChUpdate? && !e.SendChUpdate?
    ensures StaysOrAdvances(w, Step(w, e), [])
  {
  }

  /** What an operation does to the agreed state. */
  lemma AgreedStep(p: PayWorld, e: PayEvent, currencies: nat, parties: nat)
    requires AnswerInv(p.w) && OffersInv(p) && ValidEvent(e, currencies, parties)
    ensures StaysOrAdvances(p.w, PayStep(p, e).w, BatchOf(e, p.w, p.offers))
  {
    match e
    case Pay(moves, ok) =>
      assert PayStep(p, e).w == SendUpdateStep(p.w, BatchUpdater(moves), ok);
    case PeerPays(_, _, _) => AdvanceByOther(p.w, Lower(e, p.w.ch.pch));
    case PeerFinalizes(_, _) => AdvanceByOther(p.w, Lower(e, p.w.ch.pch));
    case Other(event) =>
      if event.RespondChUpdate? {
        AdvanceByRespond(p, event.updateID, event.accept, event.now, event.answerOk, event.registerOk);
      } else {
        AdvanceByOther(p.w, event);
      }
  }

  /** Which updates an operation records as handled: the offer it makes, if the channel is open. */
  lemma HandledByStep(p: PayWorld, e: PayEvent, currencies: nat, parties: nat)
    requires ValidEvent(e, currencies, parties)
    ensures var v := PayStep(p, e).w;
      match OfferOf(e, p.w.ch.pch)
      case None => v.tr.handled == p.w.tr.handled
      case Some(o) =>
        if p.w.ch.status == Closed then v == p.w
        else && |v.tr.handled| == |p.w.tr.handled| + 1
             && v.tr.handled[..|p.w.tr.handled|] == p.w.tr.handled
             && v.tr.handled[|p.w.tr.handled|].proposed == OfferState(o)
             && v.ch.pch == p.w.ch.pch
  {
  }

  lemma OffersStep(p: PayWorld, e: PayEvent, currencies: nat, parties: nat)
    requires AnswerInv(p.w) && OffersInv(p) && ValidEvent(e, currencies, parties)
    ensures OffersInv(PayStep(p, e))
  {
    AgreedStep(p, e, currencies, parties);
    HandledByStep(p, e, currencies, parties);
    var q := PayStep(p, e);
    assert forall k :: 0 <= k < |p.w.tr.handled| ==> q.w.tr.handled[k] == p.w.tr.handled[k];
  }

  lemma PayInvStep(p: PayWorld, opening: PState, e: PayEvent, currencies: nat, parties: nat)
    requires PayInv(p, opening) && ValidEvent(e, currencies, parties)
    ensures PayInv(PayStep(p, e), opening)
  {
    AnswerInvStep(p.w, Lower(e, p.w.ch.pch));
    OffersStep(p, e, currencies, parties);
    AgreedStep(p, e, currencies, parties);
    var q := PayStep(p, e);
    if q.w.ch.pch.version != p.w.ch.pch.version {
      assert q.agreed[..|p.agreed|] == p.agreed;
      ApplyMovesConcat(opening.bals, Flatten(p.agreed), BatchOf(e, p.w, p.offers));
    }
  }

  lemma {:induction false} PayInvRun(id: string, response: int, opening: PState, evs: seq<PayEvent>,
                                      currencies: nat, parties: nat)
    requires forall e :: e in evs ==> ValidEvent(e, currencies, parties)
    ensures PayInv(PayRun(NewPayCh(id, response, opening), evs), opening)
  {
    if evs != [] {
      PayInvRun(id, response, opening, evs[..|evs| - 1], currencies, parties);
      assert ValidEvent(evs[|evs| - 1], currencies, parties);
      var mid := PayRun(NewPayCh(id, response, opening), evs[..|evs| - 1]);
      PayInvStep(mid, opening, evs[|evs| - 1], currencies, parties);
    }
  }

  /** In every run, each balance is the opening balance plus what the agreed batches paid to that
      participant in that currency, less what they took; the version counts the agreed batches. */
  lemma BalancesAreOpeningPlusAgreed(id: string, response: int, opening: PState, evs: seq<PayEvent>,
                                     currencies: nat, parties: nat, c: nat, p: nat)
    requires forall e :: e in evs ==> ValidEvent(e, currencies, parties)
    requires Shape(opening.bals, currencies, parties) && c < currencies && p < parties
    ensures var q := PayRun(NewPayCh(id, response, opening), evs);
      var ms := Flatten(q.agreed);
      && Shape(q.w.ch.pch.bals, currencies, parties)
      && q.w.ch.pch.bals[c][p] == opening.bals[c][p] + Received(ms, c, p) - Sent(ms, c, p)
      && q.w.ch.pch.version == opening.version + |q.agreed|
  {
    PayInvRun(id, response, opening, evs, currencies, parties);
    Netting(opening.bals, Flatten(PayRun(NewPayCh(id, response, opening), evs).agreed));
  }

  predicate AgreedPaired(p: PayWorld, currencies: nat, parties: nat) {
    && (forall b :: b in p.agreed ==> AllPaired(b, currencies, parties))
    && (forall o :: o in p.offers ==> AllPaired(o.moves, currencies, parties))
  }

  lemma {:induction false} AgreedPairedRun(p: PayWorld, evs: seq<PayEvent>, currencies: nat, parties: nat)
    requires AgreedPaired(p, currencies, parties)
    requires forall e :: e in evs ==> ValidEvent(e, currencies, parties)
    ensures AgreedPaired(PayRun(p, evs), currencies, parties)
  {
    if evs != [] {
      AgreedPairedRun(p, evs[..|evs| - 1], currencies, parties);
      assert ValidEvent(evs[|evs| - 1], currencies, parties);
    }
  }

  lemma {:induction false} FlattenPaired(batches: seq<seq<Move>>, currencies: nat, parties: nat)
    requires forall b :: b in batches ==> AllPaired(b, currencies, parties)
    ensures AllPaired(Flatten(batches), currencies, parties)
  {
    if batches != [] {
      FlattenPaired(batches[..|batches| - 1], currencies, parties);
      assert AllPaired(batches[|batches| - 1], currencies, parties);
    }
  }

  /** In every run, the total of every currency is the opening total. */
  lemma TotalsNeverChange(id: string, response: int, opening: PState, evs: seq<PayEvent>,
                          currencies: nat, parties: nat, c: nat)
    requires forall e :: e in evs ==> ValidEvent(e, currencies, parties)
    requires Shape(opening.bals, currencies, parties) && c < currencies
    ensures var bals := PayRun(NewPayCh(id, response, opening), evs).w.ch.pch.bals;
      && Shape(bals, currencies, parties)
      && Sum(bals[c]) == Sum(opening.bals[c])
  {
    PayInvRun(id, response, opening, evs, currencies, parties);
    AgreedPairedRun(NewPayCh(id, response, opening), evs, currencies, parties);
    var q := PayRun(NewPayCh(id, response, opening), evs);
    FlattenPaired(q.agreed, currencies, parties);
    BatchConserves(opening.bals, Flatten(q.agreed), parties, c);
  }

  lemma {:induction false} FinalStays(p: PayWorld, opening: PState, evs: seq<PayEvent>, currencies: nat, parties: nat)
    requires PayInv(p, opening) && p.w.ch.pch.isFinal
    requires forall e :: e in evs ==> ValidEvent(e, currencies, parties)
    ensures PayInv(PayRun(p, evs), opening)
    ensures PayRun(p, evs).w.ch.pch == p.w.ch.pch && PayRun(p, evs).agreed == p.agreed
  {
    if evs != [] {
      var mid := PayRun(p, evs[..|evs| - 1]);
      FinalStays(p, opening, evs[..|evs| - 1], currencies, parties);
      assert ValidEvent(evs[|evs| - 1], currencies, parties);
      PayInvStep(mid, opening, evs[|evs| - 1], currencies, parties);
      AgreedStep(mid, evs[|evs| - 1], currencies, parties);
    }
  }

  /** Once the agreed state is final, no operation of either side changes it any more. */
  lemma FinalStateIsLast(id: string, response: int, opening: PState, before: seq<PayEvent>, after: seq<PayEvent>,
                         currencies: nat, parties: nat)
    requires forall e :: e in before || e in after ==> ValidEvent(e, currencies, parties)
    requires PayRun(NewPayCh(id, response, opening), before).w.ch.pch.isFinal
    ensures var p := PayRun(NewPayCh(id, response, opening), before);
      && PayRun(p, after).w.ch.pch == p.w.ch.pch
      && PayRun(p, after).agreed == p.agreed
  {
    PayInvRun(id, response, opening, before, currencies, parties);
    FinalStays(PayRun(NewPayCh(id, response, opening), before), opening, after, currencies, parties);
  }
}
