/** What each operation of a channel does to its fields and its surroundings, written out without the
    step functions, and whom the notifications go to. */
module ChannelEffects {
  import opened Wrappers
  import opened UpdateIds
  import opened Notifications
  import opened ChannelSpec

  /** A notification reaches the subscriber if there is one, and waits in the cache otherwise. */
  predicate Notified(w: World, v: World, notif: Notif) {
    match w.ch.notifier
    case None => v.ch.cache == w.ch.cache + [notif] && v.tr.launched == w.tr.launched
    case Some(n) => v.ch.cache == w.ch.cache && v.tr.launched == w.tr.launched + [Launch(n, notif)]
  }

  /** An incoming update of an open channel is recorded under the channel's identifier and the proposed
      version, unless it expires in second zero, and announced once; a closed channel ignores it. */
  lemma HandleUpdateEffect(w: World, curr: Option<PState>, proposed: PState, now: int)
    ensures var v := Step(w, HandleUpdate(curr, proposed, now));
      var key, expiry := w.ch.id + "_" + Decimal(proposed.version), now + w.ch.response;
      var notif := Notif(
        key,
        if curr.Some? then ChInfo(w.ch.id, Decimal(curr.value.version), curr.value.bals) else NoChInfo,
        ChInfo(w.ch.id, Decimal(proposed.version), proposed.bals),
        if proposed.isFinal then UpdateFinal else UpdateOpen, expiry, None);
      && (w.ch.status == Closed ==> v == w)
      && (w.ch.status == Open ==>
            && (var entry := Entry(notif, Responder(|w.tr.handled|, proposed), expiry);
                v.ch.responders == if expiry == 0 then w.ch.responders else w.ch.responders[key := entry])
            && Notified(w, v, notif)
            && v.tr.handled == w.tr.handled + [Handled(notif, proposed, curr, now)]
            && v.ch == w.ch.(responders := v.ch.responders, cache := v.ch.cache)
            && v.tr == w.tr.(handled := v.tr.handled, launched := v.tr.launched))
  {
  }

  /** A subscriber of an open channel without one is remembered, and gets every cached notification in
      order; otherwise nothing changes. */
  lemma SubscribeEffect(w: World, notifier: nat)
    ensures var v := Step(w, SubChUpdates(notifier));
      && (w.ch.status == Closed || w.ch.notifier.Some? ==> v == w)
      && (w.ch.status == Open && w.ch.notifier.None? ==>
            && v.ch == w.ch.(notifier := Some(notifier), cache := [])
            && v.tr == w.tr.(launched := v.tr.launched)
            && |v.tr.launched| == |w.tr.launched| + |w.ch.cache| && w.tr.launched <= v.tr.launched
            && forall i :: 0 <= i < |w.ch.cache| ==>
                 v.tr.launched[|w.tr.launched| + i] == Launch(notifier, w.ch.cache[i]))
  {
  }

  /** After unsubscribing from an open channel nobody is subscribed, and the next update's notification
      waits in the cache. */
  lemma UnsubscribeEffect(w: World, curr: Option<PState>, proposed: PState, now: int)
    ensures var v := Step(w, UnsubChUpdates);
      && (w.ch.status == Closed ==> v == w)
      && (w.ch.status == Open ==>
            && v == w.(ch := w.ch.(notifier := None))
            && var u := Step(v, HandleUpdate(curr, proposed, now));
               |u.ch.cache| == |w.ch.cache| + 1 && u.tr.launched == w.tr.launched)
  {
  }

  /** A response takes out the entry with that identifier and no other. In time it is passed on, and a
      proposed state that is accepted becomes the agreed one, which is registered if it is final. */
  lemma RespondEffect(w: World, id: string, accept: bool, now: int, ok: bool, registerOk: bool)
    ensures var v := Step(w, RespondChUpdate(id, accept, now, ok, registerOk));
      && (w.ch.status == Closed || id !in w.ch.responders ==> v == w)
      && (w.ch.status == Open && id in w.ch.responders ==>
            var e := w.ch.responders[id];
            var inTime := now <= e.expiry;
            var done := ok && (accept ==> !w.ch.pch.isFinal && e.responder.proposed.version == w.ch.pch.version + 1);
            var installed := inTime && accept && done;
            && v.ch == w.ch.(responders := w.ch.responders - {id},
                             pch := if installed then e.responder.proposed else w.ch.pch)
            && v.tr == w.tr.(
                 answers := w.tr.answers + (if inTime then [Answer(e.responder.id, accept, done, now)] else []),
                 registers := w.tr.registers + if installed && e.notif.kind == UpdateFinal
                                               then [Register(OnAccept(e.responder.id), registerOk)] else []))
  {
    assert w.tr.answers + [] == w.tr.answers && w.tr.registers + [] == w.tr.registers;
  }

  /** An update of this side is agreed exactly if the channel is open, its state is not final, and neither
      the updater nor the library fails. */
  lemma SendUpdateEffect(w: World, updater: Updater, ok: bool)
    ensures var v := Step(w, SendChUpdate(updater, ok));
      && v == w.(ch := w.ch.(pch := v.ch.pch))
      && (if w.ch.status == Open && !w.ch.pch.isFinal && updater(w.ch.pch).Some? && ok
          then v.ch.pch == updater(w.ch.pch).value.(version := w.ch.pch.version + 1)
          else v.ch.pch == w.ch.pch)
  {
  }

  /** Closing makes the agreed state final, with the same balances, if the peer agrees and it is not final
      yet; in any case it registers once and remembers that this side asked. */
  lemma CloseEffect(w: World, finalizeOk: bool, registerOk: bool)
    ensures var v := Step(w, CloseCh(finalizeOk, registerOk));
      && (w.ch.status == Closed ==> v == w)
      && (w.ch.status == Open ==>
            && v.ch.closeInitiated
            && v.ch.pch.bals == w.ch.pch.bals
            && v.ch.pch.isFinal == (w.ch.pch.isFinal || finalizeOk)
            && v.ch.pch.version == w.ch.pch.version + (if finalizeOk && !w.ch.pch.isFinal then 1 else 0)
            && v.ch == w.ch.(closeInitiated := true, pch := v.ch.pch)
            && v.tr == w.tr.(registers := w.tr.registers + [Register(OnClose, registerOk)]))
  {
  }

  /** Which events settle: Registered if the agreed state is not final, Concluded if it is. Then settle is
      called once, as secondary unless this side asked for closing; the channel is closed, and its
      subscriber, if there is one, is told and removed. All other events change nothing. */
  lemma AdjudicatorEffect(w: World, kind: AdjudicatorKind, ok: bool)
    ensures var v := Step(w, Adjudicator(kind, ok));
      if (kind == Registered && !w.ch.pch.isFinal) || (kind == Concluded && w.ch.pch.isFinal)
      then && v.ch == w.ch.(status := Closed, notifier := None)
           && v.tr.settles == w.tr.settles + [Settle(!w.ch.closeInitiated, ok)]
           && v.tr == w.tr.(settles := v.tr.settles, closeNotifs := v.tr.closeNotifs)
           && |v.tr.closeNotifs| == |w.tr.closeNotifs| + (if w.ch.notifier.Some? then 1 else 0)
           && w.tr.closeNotifs <= v.tr.closeNotifs
           && (w.ch.notifier.Some? ==>
                 var sent := v.tr.closeNotifs[|w.tr.closeNotifs|];
                 var version := Decimal(w.ch.pch.version);
                 && sent.notifier == w.ch.notifier.value
                 && sent.notif == Notif(w.ch.id + "_" + version + "_" + "closed",
                                        ChInfo(w.ch.id, version, w.ch.pch.bals), NoChInfo, UpdateClosed, 0,
                                        if ok then None else Some(LibraryError)))
      else v == w
  {
  }

  // ----- whom notifications go to

  /** Launch i of a run was made by step k, for the subscriber in force after that step. */
  ghost predicate LaunchedInStep(w: World, evs: seq<Event>, i: nat, k: nat)
    requires k < |evs| && i < |Run(w, evs).tr.launched|
  {
    && |Run(w, evs[..k]).tr.launched| <= i < |Run(w, evs[..k + 1]).tr.launched|
    && Run(w, evs[..k + 1]).ch.notifier == Some(Run(w, evs).tr.launched[i].notifier)
  }

  lemma StepLaunches(w: World, e: Event)
    ensures var v := Step(w, e);
      && w.tr.launched <= v.tr.launched
      && forall i :: |w.tr.launched| <= i < |v.tr.launched| ==> v.ch.notifier == Some(v.tr.launched[i].notifier)
  {
    if e.HandleUpdate? {
      HandleUpdateEffect(w, e.curr, e.proposed, e.now);
    } else if e.SubChUpdates? {
      SubscribeEffect(w, e.notifier);
    }
  }

  /** In every run, each notification was launched for the subscriber in force at that moment. */
  lemma {:induction false} LaunchesGoToTheSubscriber(id: string, response: int, pch: PState, evs: seq<Event>, i: nat)
    requires i < |Run(NewCh(id, response, pch), evs).tr.launched|
    ensures exists k: nat :: k < |evs| && LaunchedInStep(NewCh(id, response, pch), evs, i, k)
  {
    var w := NewCh(id, response, pch);
    var n := |evs| - 1;
    var front := evs[..n];
    StepLaunches(Run(w, front), evs[n]);
    assert evs[..n + 1] == evs;
    if i < |Run(w, front).tr.launched| {
      LaunchesGoToTheSubscriber(id, response, pch, front, i);
      var k: nat :| k < |front| && LaunchedInStep(w, front, i, k);
      assert front[..k] == evs[..k] && front[..k + 1] == evs[..k + 1];
      assert LaunchedInStep(w, evs, i, k);
    } else {
      assert LaunchedInStep(w, evs, i, n);
    }
  }
}
