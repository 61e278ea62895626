/** What holds over every run of a payment channel: theorems about `ChannelSpec.Run`. */
module ChannelRuns {
  import opened Wrappers
  import opened UpdateIds
  import opened Notifications
  import opened ChannelSpec

  lemma RunSnoc(w: World, evs: seq<Event>, e: Event)
    ensures Run(w, evs + [e]) == Step(Run(w, evs), e)
  {
    assert (evs + [e])[..|evs|] == evs;
  }

  lemma {:induction false} RunConcat(w: World, a: seq<Event>, b: seq<Event>)
    ensures Run(w, a + b) == Run(Run(w, a), b)
  {
    if b == [] {
      assert a + b == a;
    } else {
      var b' := b[..|b| - 1];
      assert a + b == (a + b') + [b[|b| - 1]];
      RunSnoc(w, a + b', b[|b| - 1]);
      RunConcat(w, a, b');
    }
  }

  // ----- notifications: none lost, none doubled, none reordered

  function HandledNotifs(hs: seq<Handled>): (ns: seq<Notif>)
    ensures |ns| == |hs|
    ensures forall i :: 0 <= i < |hs| ==> ns[i] == hs[i].notif
  {
    seq(|hs|, i requires 0 <= i < |hs| => hs[i].notif)
  }

  ghost predicate QueueInv(w: World) {
    InOrder(w.ch.notifier, w.ch.cache, w.tr.launched, HandledNotifs(w.tr.handled))
  }

  lemma QueueHandle(w: World, curr: Option<PState>, proposed: PState, now: int)
    requires QueueInv(w) && w.ch.status == Open
    ensures QueueInv(HandleUpdateStep(w, curr, proposed, now))
  {
  }

  lemma QueueStep(w: World, e: Event)
    requires QueueInv(w)
    ensures QueueInv(Step(w, e))
  {
    if e.HandleUpdate? {
      if w.ch.status == Open { QueueHandle(w, e.curr, e.proposed, e.now); }
    } else if e.SubChUpdates? {
      if w.ch.notifier.None? { InOrderFlushed(e.notifier, w.ch.cache, w.tr.launched, HandledNotifs(w.tr.handled)); }
    }
  }

  /** In every run, the notifications launched so far, followed by those in the cache, are exactly
      the notifications of the updates handled so far, in that order; and a subscriber finds the
      cache empty. */
  lemma {:induction false} NothingLostDoubledOrReordered(id: string, response: int, pch: PState, evs: seq<Event>)
    ensures var w := Run(NewCh(id, response, pch), evs);
      && Notifs(w.tr.launched) + w.ch.cache == HandledNotifs(w.tr.handled)
      && (w.ch.notifier.Some? ==> w.ch.cache == [])
  {
    if evs != [] {
      var front := evs[..|evs| - 1];
      NothingLostDoubledOrReordered(id, response, pch, front);
      QueueStep(Run(NewCh(id, response, pch), front), evs[|evs| - 1]);
    }
  }

  // ----- closed is absorbing and announced at most once

  /** What an operation on a closed channel can still change: further settle calls, nothing else. */
  predicate SameButSettles(w: World, v: World) {
    && v.ch == w.ch
    && v.tr.(settles := w.tr.settles) == w.tr
  }

  predicate CloseInv(w: World) {
    && (w.ch.status == Open ==> w.tr.closeNotifs == [] && w.tr.settles == [])
    && (w.ch.status == Closed ==> w.ch.notifier == None && w.tr.settles != [])
    && |w.tr.closeNotifs| <= 1
    && (forall i :: 0 <= i < |w.tr.settles| ==> w.tr.settles[i].secondary == !w.ch.closeInitiated)
  }

  lemma CloseInvStep(w: World, e: Event)
    requires CloseInv(w)
    ensures CloseInv(Step(w, e))
    ensures w.ch.status == Closed ==> SameButSettles(w, Step(w, e))
  {
  }

  lemma {:induction false} CloseInvRun(id: string, response: int, pch: PState, evs: seq<Event>)
    ensures CloseInv(Run(NewCh(id, response, pch), evs))
  {
    if evs != [] {
      CloseInvRun(id, response, pch, evs[..|evs| - 1]);
      CloseInvStep(Run(NewCh(id, response, pch), evs[..|evs| - 1]), evs[|evs| - 1]);
    }
  }

  lemma {:induction false} ClosedFrozen(w: World, evs: seq<Event>)
    requires CloseInv(w) && w.ch.status == Closed
    ensures SameButSettles(w, Run(w, evs)) && CloseInv(Run(w, evs))
  {
    if evs != [] {
      ClosedFrozen(w, evs[..|evs| - 1]);
      CloseInvStep(Run(w, evs[..|evs| - 1]), evs[|evs| - 1]);
    }
  }

  /** Once a run has closed the channel, no continuation changes its status, subscriber, cache,
      pending responders or agreed state, answers an update, registers, or launches anything; and
      however the run goes on, at most one close notification is ever sent. */
  lemma ClosedIsAbsorbing(id: string, response: int, pch: PState, before: seq<Event>, after: seq<Event>)
    requires Run(NewCh(id, response, pch), before).ch.status == Closed
    ensures var w := Run(NewCh(id, response, pch), before);
      var v := Run(NewCh(id, response, pch), before + after);
      && v.ch == w.ch && v.ch.notifier == None
      && v.tr.(settles := w.tr.settles) == w.tr
      && |v.tr.closeNotifs| <= 1
  {
    CloseInvRun(id, response, pch, before);
    RunConcat(NewCh(id, response, pch), before, after);
    ClosedFrozen(Run(NewCh(id, response, pch), before), after);
  }

  /** The step that closes the channel tells the subscriber it finds, and only that one; the
      notification carries the state in force and no update identifier. */
  lemma CloseAnnouncedToTheSubscriber(w: World, e: Event)
    requires CloseInv(w)
    requires w.ch.status == Open && Step(w, e).ch.status == Closed
    ensures var sent := Step(w, e).tr.closeNotifs;
      && |sent| == (if w.ch.notifier.Some? then 1 else 0)
      && (w.ch.notifier.Some? ==>
            && sent[0].notifier == w.ch.notifier.value
            && sent[0].notif.kind == UpdateClosed
            && sent[0].notif.curr == ChInfo(w.ch.id, Decimal(w.ch.pch.version), w.ch.pch.bals)
            && e.Adjudicator? && (sent[0].notif.error == None <==> e.settleOk)
            && forall ch, v :: sent[0].notif.updateID != UpdateID(ch, v))
  {
    if w.ch.notifier.Some? {
      var n := Step(w, e).tr.closeNotifs[0].notif;
      forall ch, v ensures n.updateID != UpdateID(ch, v) {
        CloseIDIsNoUpdateID(n.curr.chID, n.curr.version, ch, v);
      }
    }
  }

  // ----- settling

  function CountKind(evs: seq<Event>, kind: AdjudicatorKind): nat {
    if evs == [] then 0
    else CountKind(evs[..|evs| - 1], kind) +
         (var e := evs[|evs| - 1]; if e.Adjudicator? && e.kind == kind then 1 else 0)
  }

  lemma {:induction false} CountKindCons(e: Event, evs: seq<Event>, kind: AdjudicatorKind)
    ensures CountKind([e] + evs, kind) == CountKind([e], kind) + CountKind(evs, kind)
  {
    if evs == [] {
      assert [e] + evs == [e];
    } else {
      CountKindCons(e, evs[..|evs| - 1], kind);
      assert ([e] + evs)[..|evs|] == [e] + evs[..|evs| - 1];
    }
  }

  /** The finality of the agreed state does not change while the operations run. */
  predicate FinalityFixed(w: World, evs: seq<Event>) {
    forall k :: 0 <= k <= |evs| ==> Run(w, evs[..k]).ch.pch.isFinal == w.ch.pch.isFinal
  }

  /** While finality is fixed, settle is called once for every Registered event if the state is not
      final, once for every Concluded event if it is, and for nothing else. */
  lemma {:induction false} SettlesMatchEvents(w: World, evs: seq<Event>)
    requires FinalityFixed(w, evs)
    ensures |Run(w, evs).tr.settles| ==
      |w.tr.settles| + if w.ch.pch.isFinal then CountKind(evs, Concluded) else CountKind(evs, Registered)
  {
    if evs != [] {
      var front := evs[..|evs| - 1];
      forall k | 0 <= k <= |front| ensures Run(w, front[..k]).ch.pch.isFinal == w.ch.pch.isFinal {
        assert front[..k] == evs[..k];
      }
      SettlesMatchEvents(w, front);
    }
  }

  lemma ClosedFixesFinality(w: World, evs: seq<Event>)
    requires CloseInv(w) && w.ch.status == Closed
    ensures FinalityFixed(w, evs)
  {
    forall k | 0 <= k <= |evs| ensures Run(w, evs[..k]).ch.pch.isFinal == w.ch.pch.isFinal {
      ClosedFrozen(w, evs[..k]);
    }
  }

  /** From the event that settles an open channel on, whatever else happens, settle runs once for
      that event and once more for every later event of the same kind. So the two orders in which
      the events arrive, Registered then Concluded on a state that is not final and Concluded alone
      on a final one, settle exactly once. */
  lemma SettlesFromTheFirstEvent(w: World, settleOk: bool, later: seq<Event>)
    requires CloseInv(w) && w.ch.status == Open
    ensures var kind := if w.ch.pch.isFinal then Concluded else Registered;
      var v := Run(w, [Adjudicator(kind, settleOk)] + later);
      && |v.tr.settles| == 1 + CountKind(later, kind)
      && v.ch.status == Closed
  {
    var kind := if w.ch.pch.isFinal then Concluded else Registered;
    var e := Adjudicator(kind, settleOk);
    var mid := Step(w, e);
    CloseInvStep(w, e);
    assert Run(w, [e]) == mid by { assert [e][..0] == []; }
    RunConcat(w, [e], later);
    ClosedFixesFinality(mid, later);
    SettlesMatchEvents(mid, later);
    ClosedFrozen(mid, later);
  }

  /** Either way the first of these events closes the channel, and settles it. */
  lemma DocumentedOrdersSettleOnce(w: World, ok: bool, concludedOk: bool)
    requires CloseInv(w) && w.ch.status == Open
    ensures !w.ch.pch.isFinal ==>
      && Step(w, Adjudicator(Registered, ok)).ch.status == Closed
      && |Step(w, Adjudicator(Registered, ok)).tr.settles| == 1
      && |Run(w, [Adjudicator(Registered, ok), Adjudicator(Concluded, concludedOk)]).tr.settles| == 1
    ensures w.ch.pch.isFinal ==>
      && Step(w, Adjudicator(Concluded, ok)).ch.status == Closed
      && |Run(w, [Adjudicator(Concluded, ok)]).tr.settles| == 1
  {
    var late := Adjudicator(Concluded, concludedOk);
    if w.ch.pch.isFinal {
      SettlesFromTheFirstEvent(w, ok, []);
      assert [Adjudicator(Concluded, ok)] + [] == [Adjudicator(Concluded, ok)];
    } else {
      SettlesFromTheFirstEvent(w, ok, [late]);
      assert CountKind([late], Registered) == CountKind([late][..0], Registered);
      assert [Adjudicator(Registered, ok)] + [late] == [Adjudicator(Registered, ok), late];
    }
  }

  /** This side asked for the channel to be closed while it was still open. */
  predicate WentThroughClose(w: World, evs: seq<Event>) {
    exists k :: 0 <= k < |evs| && evs[k].CloseCh? && Run(w, evs[..k]).ch.status == Open
  }

  lemma CloseInitiatedStep(v: World, e: Event)
    ensures Step(v, e).ch.closeInitiated <==> v.ch.closeInitiated || (e.CloseCh? && v.ch.status == Open)
  {
  }

  lemma WentThroughCloseSnoc(w: World, evs: seq<Event>, e: Event)
    ensures WentThroughClose(w, evs + [e]) <==>
      WentThroughClose(w, evs) || (e.CloseCh? && Run(w, evs).ch.status == Open)
  {
    var all := evs + [e];
    assert forall k :: 0 <= k <= |evs| ==> all[..k] == evs[..k];
    assert evs[..|evs|] == evs;
    if k :| 0 <= k < |evs| && evs[k].CloseCh? && Run(w, evs[..k]).ch.status == Open {
      assert all[k].CloseCh? && Run(w, all[..k]).ch.status == Open;
    }
    if e.CloseCh? && Run(w, evs).ch.status == Open {
      assert all[|evs|].CloseCh? && Run(w, all[..|evs|]).ch.status == Open;
    }
  }

  lemma {:induction false} CloseInitiatedMeans(w: World, evs: seq<Event>)
    requires !w.ch.closeInitiated
    ensures Run(w, evs).ch.closeInitiated <==> WentThroughClose(w, evs)
  {
    if evs != [] {
      var front, e := evs[..|evs| - 1], evs[|evs| - 1];
      CloseInitiatedMeans(w, front);
      WentThroughCloseSnoc(w, front, e);
      CloseInitiatedStep(Run(w, front), e);
      assert evs == front + [e];
    }
  }

  /** In every run, every settle call is as non-secondary exactly when this side earlier went through
      Close. */
  lemma SecondaryExactlyWhenPeerClosed(id: string, response: int, pch: PState, evs: seq<Event>, i: nat)
    requires i < |Run(NewCh(id, response, pch), evs).tr.settles|
    ensures var w := NewCh(id, response, pch);
      Run(w, evs).tr.settles[i].secondary <==> !WentThroughClose(w, evs)
  {
    CloseInvRun(id, response, pch, evs);
    CloseInitiatedMeans(NewCh(id, response, pch), evs);
  }

  // ----- answers to incoming updates

  /** What no operation changes. */
  predicate SameChannel(w: World, v: World) {
    v.ch.id == w.ch.id && v.ch.response == w.ch.response
  }

  /** Some call answered update k. */
  predicate Answered(answers: seq<Answer>, k: nat) {
    exists i :: 0 <= i < |answers| && answers[i].responder == k
  }

  /** Entry e waits under the key id for an answer: for an update that was handled, is unanswered, and
      is the last one handled for its version. */
  predicate Pending(w: World, id: string, e: Entry) {
    var k := e.responder.id;
    && k < |w.tr.handled|
    && w.tr.handled[k].notif == e.notif && w.tr.handled[k].proposed == e.responder.proposed
    && e.expiry == e.notif.expiry
    && id == UpdateID(w.ch.id, e.responder.proposed.version)
    && !Answered(w.tr.answers, k)
    && forall j :: k < j < |w.tr.handled| && w.tr.handled[j].notif.expiry != 0
         ==> w.tr.handled[j].proposed.version != e.responder.proposed.version
  }

  predicate PendingInv(w: World) {
    forall id :: id in w.ch.responders ==> Pending(w, id, w.ch.responders[id])
  }

  predicate AnswersInv(w: World) {
    && (forall i :: 0 <= i < |w.tr.answers| ==>
          var a := w.tr.answers[i];
          && a.responder < |w.tr.handled|
          && a.at <= w.tr.handled[a.responder].notif.expiry)
    && (forall i, j :: 0 <= i < j < |w.tr.answers| ==> w.tr.answers[i].responder != w.tr.answers[j].responder)
  }

  /** The notification of an update identifies it, describes the state in force and the proposed one, and
      says until when it can be answered. */
  predicate Describes(id: string, response: int, h: Handled) {
    && h.notif.updateID == UpdateID(id, h.proposed.version)
    && h.notif.curr == (match h.curr
                        case None => NoChInfo
                        case Some(s) => ChInfo(id, Decimal(s.version), s.bals))
    && h.notif.proposed == ChInfo(id, Decimal(h.proposed.version), h.proposed.bals)
    && h.notif.kind == (if h.proposed.isFinal then UpdateFinal else UpdateOpen)
    && h.notif.expiry == h.at + response
  }

  predicate HandledInv(w: World) {
    forall k :: 0 <= k < |w.tr.handled| ==> Describes(w.ch.id, w.ch.response, w.tr.handled[k])
  }

  /** The responders whose accepted update was a final one, in the order of the answers. */
  function FinalAccepts(answers: seq<Answer>, handled: seq<Handled>): seq<nat> {
    if answers == [] then []
    else
      var a := answers[|answers| - 1];
      FinalAccepts(answers[..|answers| - 1], handled) +
      if a.accepted && a.ok && a.responder < |handled| && handled[a.responder].proposed.isFinal
      then [a.responder] else []
  }

  /** The responders in whose name the channel registered a state, in the order of the calls. */
  function AcceptRegisters(registers: seq<Register>): seq<nat> {
    if registers == [] then []
    else
      var r := registers[|registers| - 1];
      AcceptRegisters(registers[..|registers| - 1]) + if r.cause.OnAccept? then [r.cause.responder] else []
  }

  lemma {:induction false} FinalAcceptsGrow(answers: seq<Answer>, handled: seq<Handled>, h: Handled)
    requires forall i :: 0 <= i < |answers| ==> answers[i].responder < |handled|
    ensures FinalAccepts(answers, handled + [h]) == FinalAccepts(answers, handled)
  {
    if answers != [] {
      FinalAcceptsGrow(answers[..|answers| - 1], handled, h);
    }
  }

  predicate AnswerInv(w: World) {
    && HandledInv(w)
    && PendingInv(w)
    && AnswersInv(w)
    && RegistersInv(w.tr)
  }

  /** The registrations made on accept are those of the accepted final updates. */
  predicate RegistersInv(tr: Trace) {
    AcceptRegisters(tr.registers) == FinalAccepts(tr.answers, tr.handled)
  }

  /** An entry stays pending while updates for other versions, or none to be answered, are handled. */
  lemma PendingKept(w: World, v: World, id: string, e: Entry, h: Handled)
    requires Pending(w, id, e)
    requires SameChannel(w, v) && v.tr.answers == w.tr.answers && v.tr.handled == w.tr.handled + [h]
    requires h.notif.expiry == 0 || h.proposed.version != e.responder.proposed.version
    ensures Pending(v, id, e)
  {
  }

  lemma PendingHandle(w: World, curr: Option<PState>, proposed: PState, now: int)
    requires AnswerInv(w) && w.ch.status == Open
    ensures PendingInv(HandleUpdateStep(w, curr, proposed, now))
  {
    var v := HandleUpdateStep(w, curr, proposed, now);
    var n := |w.tr.handled|;
    HandledTrace(w, curr, proposed, now);
    var h := v.tr.handled[n];
    assert !Answered(w.tr.answers, n);
    forall id | id in v.ch.responders ensures Pending(v, id, v.ch.responders[id]) {
      if h.notif.expiry != 0 && id == h.notif.updateID {
        assert v.ch.responders[id] == Entry(h.notif, Responder(n, proposed), h.notif.expiry);
      } else {
        var e := w.ch.responders[id];
        assert Pending(w, id, e);
        PendingKept(w, v, id, e, h);
      }
    }
  }

  /** What handling an update adds to the trace. */
  lemma HandledTrace(w: World, curr: Option<PState>, proposed: PState, now: int)
    requires w.ch.status == Open
    ensures var v := HandleUpdateStep(w, curr, proposed, now);
      var notif := MakeUpdateNotif(w.ch.id, MakeChInfo(w.ch.id, curr), proposed, now + w.ch.response);
      && SameChannel(w, v)
      && v.tr.handled == w.tr.handled + [Handled(notif, proposed, curr, now)]
      && v.tr.answers == w.tr.answers && v.tr.registers == w.tr.registers
  {
  }

  lemma AnswersInvHandled(w: World, v: World, h: Handled)
    requires AnswersInv(w) && v.tr.answers == w.tr.answers && v.tr.handled == w.tr.handled + [h]
    ensures AnswersInv(v)
  {
  }

  lemma HandledInvHandled(w: World, v: World, h: Handled)
    requires HandledInv(w) && SameChannel(w, v) && v.tr.handled == w.tr.handled + [h]
    requires Describes(v.ch.id, v.ch.response, h)
    ensures HandledInv(v)
  {
  }

  lemma RegistersHandled(tr: Trace, tr': Trace, h: Handled)
    requires RegistersInv(tr) && forall i :: 0 <= i < |tr.answers| ==> tr.answers[i].responder < |tr.handled|
    requires tr'.answers == tr.answers && tr'.registers == tr.registers && tr'.handled == tr.handled + [h]
    ensures RegistersInv(tr')
  {
    FinalAcceptsGrow(tr.answers, tr.handled, h);
  }

  lemma AnswerInvHandle(w: World, curr: Option<PState>, proposed: PState, now: int)
    requires AnswerInv(w) && w.ch.status == Open
    ensures AnswerInv(HandleUpdateStep(w, curr, proposed, now))
  {
    var v := HandleUpdateStep(w, curr, proposed, now);
    PendingHandle(w, curr, proposed, now);
    HandledTrace(w, curr, proposed, now);
    var h := v.tr.handled[|w.tr.handled|];
    AnswersInvHandled(w, v, h);
    HandledInvHandled(w, v, h);
    RegistersHandled(w.tr, v.tr, h);
  }

  /** Two entries wait under different keys only if they are for different updates. */
  lemma KeysDistinct(w: World, id: string, id': string)
    requires AnswerInv(w) && id in w.ch.responders && id' in w.ch.responders && id != id'
    ensures w.ch.responders[id].responder.id != w.ch.responders[id'].responder.id
  {
  }

  /** Taking out the entry under id and answering it leaves the other entries pending. */
  lemma PendingAnswered(w: World, id: string, a: Answer, v: World)
    requires AnswerInv(w) && id in w.ch.responders
    requires a.responder == w.ch.responders[id].responder.id
    requires SameChannel(w, v) && v.ch.responders == w.ch.responders - {id}
    requires v.tr.handled == w.tr.handled && v.tr.answers == w.tr.answers + [a]
    ensures PendingInv(v)
  {
  }

  lemma AnswersInvAnswered(w: World, a: Answer, v: World)
    requires AnswersInv(w) && a.responder < |w.tr.handled| && !Answered(w.tr.answers, a.responder)
    requires a.at <= w.tr.handled[a.responder].notif.expiry
    requires v.tr.handled == w.tr.handled && v.tr.answers == w.tr.answers + [a]
    ensures AnswersInv(v)
  {
  }

  lemma RegistersAnswered(w: World, a: Answer, registerOk: bool, v: World)
    requires RegistersInv(w.tr)
    requires a.responder < |w.tr.handled|
    requires v.tr.handled == w.tr.handled && v.tr.answers == w.tr.answers + [a]
    requires v.tr.registers == w.tr.registers +
      if a.accepted && a.ok && w.tr.handled[a.responder].proposed.isFinal
      then [Register(OnAccept(a.responder), registerOk)] else []
    ensures RegistersInv(v.tr)
  {
    FinalAcceptsSnoc(w.tr.answers, a, w.tr.handled);
    if a.accepted && a.ok && w.tr.handled[a.responder].proposed.isFinal {
      AcceptRegistersSnoc(w.tr.registers, Register(OnAccept(a.responder), registerOk));
    } else {
      assert v.tr.registers == w.tr.registers;
    }
  }

  lemma FinalAcceptsSnoc(answers: seq<Answer>, a: Answer, handled: seq<Handled>)
    requires a.responder < |handled|
    ensures FinalAccepts(answers + [a], handled) == FinalAccepts(answers, handled) +
      if a.accepted && a.ok && handled[a.responder].proposed.isFinal then [a.responder] else []
  {
    assert (answers + [a])[..|answers|] == answers;
  }

  lemma AcceptRegistersSnoc(registers: seq<Register>, r: Register)
    ensures AcceptRegisters(registers + [r]) ==
      AcceptRegisters(registers) + if r.cause.OnAccept? then [r.cause.responder] else []
  {
    assert (registers + [r])[..|registers|] == registers;
  }

  /** The trace after an answer to a pending entry, and the register call it may lead to. */
  lemma AnswerInvAnswered(w: World, id: string, a: Answer, registerOk: bool, v: World)
    requires AnswerInv(w) && id in w.ch.responders
    requires a.responder == w.ch.responders[id].responder.id && a.at <= w.ch.responders[id].expiry
    requires SameChannel(w, v) && v.ch.responders == w.ch.responders - {id}
    requires v.tr.handled == w.tr.handled && v.tr.answers == w.tr.answers + [a]
    requires v.tr.registers == w.tr.registers +
      if a.accepted && a.ok && w.ch.responders[id].responder.proposed.isFinal
      then [Register(OnAccept(a.responder), registerOk)] else []
    ensures AnswerInv(v)
  {
    assert Pending(w, id, w.ch.responders[id]);
    PendingAnswered(w, id, a, v);
    assert HandledInv(v);
    AnswersInvAnswered(w, a, v);
    RegistersAnswered(w, a, registerOk, v);
  }

  /** What a response that is in time does, apart from the agreed state. */
  lemma RespondTrace(w: World, id: string, accept: bool, now: int, ok: bool, registerOk: bool)
    requires w.ch.status == Open && id in w.ch.responders && now <= w.ch.responders[id].expiry
    ensures var v := RespondStep(w, id, accept, now, ok, registerOk);
      var e := w.ch.responders[id];
      var a := Answer(e.responder.id, accept, ok && (accept ==> Installable(w.ch.pch, e.responder.proposed)), now);
      && SameChannel(w, v) && v.ch.responders == w.ch.responders - {id}
      && v.tr.handled == w.tr.handled && v.tr.answers == w.tr.answers + [a]
      && v.tr.registers == w.tr.registers +
           if a.accepted && a.ok && e.notif.kind == UpdateFinal
           then [Register(OnAccept(a.responder), registerOk)] else []
  {
    assert w.tr.registers + [] == w.tr.registers;
  }

  /** A response that comes too late uses the entry up. */
  lemma AnswerInvLate(w: World, id: string, v: World)
    requires AnswerInv(w) && SameChannel(w, v) && v.tr == w.tr && v.ch.responders == w.ch.responders - {id}
    ensures AnswerInv(v)
  {
    forall id' | id' in v.ch.responders ensures Pending(v, id', v.ch.responders[id']) {
      assert Pending(w, id', w.ch.responders[id']);
    }
  }

  lemma AnswerInvRespond(w: World, id: string, accept: bool, now: int, ok: bool, registerOk: bool)
    requires AnswerInv(w) && w.ch.status == Open && id in w.ch.responders
    ensures AnswerInv(RespondStep(w, id, accept, now, ok, registerOk))
  {
    var v := RespondStep(w, id, accept, now, ok, registerOk);
    var e := w.ch.responders[id];
    if e.expiry < now {
      AnswerInvLate(w, id, v);
    } else {
      RespondTrace(w, id, accept, now, ok, registerOk);
      assert Pending(w, id, e) && Describes(w.ch.id, w.ch.response, w.tr.handled[e.responder.id]);
      AnswerInvAnswered(w, id, v.tr.answers[|w.tr.answers|], registerOk, v);
    }
  }

  /** An operation that neither handles nor answers an update. */
  predicate Unrelated(w: World, v: World, newRegisters: seq<Register>) {
    && SameChannel(w, v) && v.ch.responders == w.ch.responders
    && v.tr.handled == w.tr.handled && v.tr.answers == w.tr.answers
    && v.tr.registers == w.tr.registers + newRegisters
  }

  lemma PendingSame(w: World, v: World, newRegisters: seq<Register>)
    requires PendingInv(w) && Unrelated(w, v, newRegisters)
    ensures PendingInv(v)
  {
    forall id | id in v.ch.responders ensures Pending(v, id, v.ch.responders[id]) {
      assert Pending(w, id, w.ch.responders[id]);
    }
  }

  lemma HandledAndAnswersSame(w: World, v: World, newRegisters: seq<Register>)
    requires HandledInv(w) && AnswersInv(w) && Unrelated(w, v, newRegisters)
    ensures HandledInv(v) && AnswersInv(v)
  {
  }

  /** Registering on behalf of this side is no answer to an update. */
  lemma RegistersOnClose(tr: Trace, tr': Trace, newRegisters: seq<Register>)
    requires RegistersInv(tr) && (newRegisters == [] || (|newRegisters| == 1 && newRegisters[0].cause == OnClose))
    requires tr'.answers == tr.answers && tr'.handled == tr.handled && tr'.registers == tr.registers + newRegisters
    ensures RegistersInv(tr')
  {
    if newRegisters == [] {
      assert tr'.registers == tr.registers;
    } else {
      assert newRegisters == [newRegisters[0]];
      AcceptRegistersSnoc(tr.registers, newRegisters[0]);
    }
  }

  lemma AnswerInvOther(w: World, v: World, newRegisters: seq<Register>)
    requires AnswerInv(w) && Unrelated(w, v, newRegisters)
    requires newRegisters == [] || (|newRegisters| == 1 && newRegisters[0].cause == OnClose)
    ensures AnswerInv(v)
  {
    PendingSame(w, v, newRegisters);
    HandledAndAnswersSame(w, v, newRegisters);
    RegistersOnClose(w.tr, v.tr, newRegisters);
  }

  lemma OtherSteps(w: World, e: Event)
    requires !e.HandleUpdate? && !e.RespondChUpdate?
    ensures Unrelated(w, Step(w, e), RegistersOf(w, e))
  {
  }

  /** What an operation other than a response registers. */
  function RegistersOf(w: World, e: Event): seq<Register> {
    if e.CloseCh? && w.ch.status == Open then [Register(OnClose, e.registerOk)] else []
  }

  lemma AnswerInvStep(w: World, e: Event)
    requires AnswerInv(w)
    ensures AnswerInv(Step(w, e))
  {
    var v := Step(w, e);
    if e.HandleUpdate? && w.ch.status == Open {
      AnswerInvHandle(w, e.curr, e.proposed, e.now);
    } else if e.RespondChUpdate? && w.ch.status == Open && e.updateID in w.ch.responders {
      AnswerInvRespond(w, e.updateID, e.accept, e.now, e.answerOk, e.registerOk);
    } else if e.HandleUpdate? || e.RespondChUpdate? {
      assert v == w;
    } else {
      OtherSteps(w, e);
      AnswerInvOther(w, v, RegistersOf(w, e));
    }
  }

  lemma {:induction false} AnswerInvRun(id: string, response: int, pch: PState, evs: seq<Event>)
    ensures AnswerInv(Run(NewCh(id, response, pch), evs))
  {
    if evs != [] {
      AnswerInvRun(id, response, pch, evs[..|evs| - 1]);
      AnswerInvStep(Run(NewCh(id, response, pch), evs[..|evs| - 1]), evs[|evs| - 1]);
    }
  }

  lemma SameChannelNext(w: World, e: Event)
    ensures SameChannel(w, Step(w, e))
  {
  }

  lemma {:induction false} SameChannelRun(w: World, evs: seq<Event>)
    ensures SameChannel(w, Run(w, evs))
  {
    if evs != [] {
      SameChannelRun(w, evs[..|evs| - 1]);
      SameChannelNext(Run(w, evs[..|evs| - 1]), evs[|evs| - 1]);
    }
  }

  /** In every run the notifications made so far, launched or cached, correspond one to one to the
      updates handled so far, and each describes its update: the states in force and proposed, and the
      time for an answer. */
  lemma NotificationsDescribeTheUpdates(id: string, response: int, pch: PState, evs: seq<Event>)
    ensures var w := Run(NewCh(id, response, pch), evs);
      var notifs := Notifs(w.tr.launched) + w.ch.cache;
      && |notifs| == |w.tr.handled|
      && forall k :: 0 <= k < |notifs| ==> Describes(id, response, w.tr.handled[k].(notif := notifs[k]))
  {
    NothingLostDoubledOrReordered(id, response, pch, evs);
    AnswerInvRun(id, response, pch, evs);
    SameChannelRun(NewCh(id, response, pch), evs);
    var w := Run(NewCh(id, response, pch), evs);
    assert forall k :: 0 <= k < |w.tr.handled| ==> Describes(id, response, w.tr.handled[k]);
  }

  /** In every run each handled update is accepted or rejected at most once, and never after the
      second in which it expires. */
  lemma AnsweredAtMostOnceInTime(id: string, response: int, pch: PState, evs: seq<Event>, i: nat, j: nat)
    requires i < j < |Run(NewCh(id, response, pch), evs).tr.answers|
    ensures var tr := Run(NewCh(id, response, pch), evs).tr;
      && tr.answers[i].responder != tr.answers[j].responder
      && tr.answers[i].responder < |tr.handled| && tr.answers[j].responder < |tr.handled|
      && tr.answers[i].at <= tr.handled[tr.answers[i].responder].notif.expiry
      && tr.answers[j].at <= tr.handled[tr.answers[j].responder].notif.expiry
  {
    AnswerInvRun(id, response, pch, evs);
  }

  /** A response to a pending update that is still in time answers that update, once and in the way
      the user chose; a late one, or one for an unknown identifier, answers nothing. Either way the
      identifier is used up. */
  lemma ResponseAnswersExactlyThePendingUpdate(w: World, id: string, accept: bool, now: int, ok: bool, registerOk: bool)
    requires AnswerInv(w) && w.ch.status == Open
    ensures var v := RespondStep(w, id, accept, now, ok, registerOk);
      && id !in v.ch.responders
      && (if id in w.ch.responders && now <= w.ch.responders[id].notif.expiry
          then && |v.tr.answers| == |w.tr.answers| + 1
               && v.tr.answers[..|w.tr.answers|] == w.tr.answers
               && v.tr.answers[|w.tr.answers|].accepted == accept
               && w.tr.handled[v.tr.answers[|w.tr.answers|].responder].notif.updateID == id
          else v.tr.answers == w.tr.answers)
  {
    if id in w.ch.responders {
      assert Pending(w, id, w.ch.responders[id]);
    }
  }

  /** In every run, the states registered in answer to updates are those of the successfully accepted
      final updates: one register call for each of them, in the order of the answers, and none for
      any other answer. */
  lemma RegistersExactlyAcceptedFinals(id: string, response: int, pch: PState, evs: seq<Event>)
    ensures var tr := Run(NewCh(id, response, pch), evs).tr;
      AcceptRegisters(tr.registers) == FinalAccepts(tr.answers, tr.handled)
  {
    AnswerInvRun(id, response, pch, evs);
  }

  /** In every run, at most one update is pending for each proposed version, under the identifier of
      that version; and no close notification's identifier is ever a key. */
  lemma PendingKeysUnambiguous(id: string, response: int, pch: PState, evs: seq<Event>,
                               k1: string, k2: string, chID: string, version: string)
    ensures var rs := Run(NewCh(id, response, pch), evs).ch.responders;
      && (k1 in rs && k2 in rs && rs[k1].responder.proposed.version == rs[k2].responder.proposed.version ==> k1 == k2)
      && (k1 in rs && k2 in rs && rs[k1].responder.id == rs[k2].responder.id ==> k1 == k2)
      && CloseID(chID, version) !in rs
  {
    AnswerInvRun(id, response, pch, evs);
    var w := Run(NewCh(id, response, pch), evs);
    var rs := w.ch.responders;
    if k1 in rs && k2 in rs {
      assert Pending(w, k1, rs[k1]) && Pending(w, k2, rs[k2]);
    }
    forall k | k in rs ensures k != CloseID(chID, version) {
      assert Pending(w, k, rs[k]);
      CloseIDIsNoUpdateID(chID, version, w.ch.id, rs[k].responder.proposed.version);
    }
  }

  /** Update k has been handled, is unanswered and is not pending: nothing can answer it any more. */
  predicate Superseded(w: World, k: nat) {
    && k < |w.tr.handled|
    && !Answered(w.tr.answers, k)
    && forall id :: id in w.ch.responders ==> w.ch.responders[id].responder.id != k
  }

  lemma SupersededStep(w: World, k: nat, e: Event)
    requires Superseded(w, k)
    ensures Superseded(Step(w, e), k)
  {
  }

  lemma {:induction false} SupersededRun(w: World, k: nat, evs: seq<Event>)
    requires Superseded(w, k)
    ensures Superseded(Run(w, evs), k)
  {
    if evs != [] {
      SupersededRun(w, k, evs[..|evs| - 1]);
      SupersededStep(Run(w, evs[..|evs| - 1]), k, evs[|evs| - 1]);
    }
  }

  lemma SupersededByEntry(w: World, v: World, id: string, later: Entry)
    requires AnswerInv(w) && id in w.ch.responders
    requires v.ch.responders == w.ch.responders[id := later] && later.responder.id == |w.tr.handled|
    requires |v.tr.handled| == |w.tr.handled| + 1 && v.tr.answers == w.tr.answers
    ensures Superseded(v, w.ch.responders[id].responder.id)
  {
    assert Pending(w, id, w.ch.responders[id]);
    forall id' | id' in v.ch.responders && id' != id
      ensures v.ch.responders[id'].responder.id != w.ch.responders[id].responder.id
    {
      KeysDistinct(w, id, id');
    }
  }

  /** The entry that handling an update adds. */
  lemma HandledEntry(w: World, curr: Option<PState>, proposed: PState, now: int) returns (later: Entry)
    requires w.ch.status == Open && now + w.ch.response != 0
    ensures later.responder == Responder(|w.tr.handled|, proposed)
    ensures HandleUpdateStep(w, curr, proposed, now).ch.responders ==
      w.ch.responders[UpdateID(w.ch.id, proposed.version) := later]
  {
    var expiry := now + w.ch.response;
    var notif := MakeUpdateNotif(w.ch.id, MakeChInfo(w.ch.id, curr), proposed, expiry);
    later := Entry(notif, Responder(|w.tr.handled|, proposed), expiry);
  }

  /** A further update for the version of one that is still pending takes its place: from then on no
      run answers the earlier one. An update for any other version leaves it pending. */
  lemma LaterUpdateForTheVersionSupersedes(w: World, id: string, curr: Option<PState>, proposed: PState,
                                           now: int, evs: seq<Event>)
    requires AnswerInv(w) && w.ch.status == Open && id in w.ch.responders
    requires now + w.ch.response != 0
    ensures var e := w.ch.responders[id];
      var v := HandleUpdateStep(w, curr, proposed, now);
      if proposed.version == e.responder.proposed.version
      then !Answered(Run(v, evs).tr.answers, e.responder.id)
      else id in v.ch.responders && v.ch.responders[id] == e
  {
    var e := w.ch.responders[id];
    var v := HandleUpdateStep(w, curr, proposed, now);
    assert Pending(w, id, e);
    var later := HandledEntry(w, curr, proposed, now);
    if proposed.version == e.responder.proposed.version {
      HandledTrace(w, curr, proposed, now);
      SupersededByEntry(w, v, id, later);
      SupersededRun(v, e.responder.id, evs);
    } else if id == UpdateID(w.ch.id, proposed.version) {
      UpdateIDInjective(w.ch.id, proposed.version, w.ch.id, e.responder.proposed.version);
    }
  }
}
