/** The channel object of session/channel.go. Every operation runs under the channel's lock, so it is
    one step; its contract is the corresponding step of `ChannelSpec`. */
module ChannelObject {
  import opened Wrappers
  import opened UpdateIds
  import Notifications
  import Spec = ChannelSpec

  /** The life cycle phases of the library's channel that this node distinguishes. */
  datatype Phase = Acting | Withdrawn | OtherPhase

  class Channel {
    const id: string
    const response: int

    var pch: Spec.PState
    var phase: Phase
    var status: Spec.Status
    var wasCloseInitiated: bool
    var chUpdateNotifier: Option<nat>
    var chUpdateNotifCache: seq<Spec.Notif>
    var chUpdateResponders: map<string, Spec.Entry>
    var locked: bool

    ghost var tr: Spec.Trace

    ghost function World(): Spec.World
      reads this
    {
      Spec.World(Spec.Chan(id, response, status, wasCloseInitiated, chUpdateNotifier, chUpdateNotifCache,
                           chUpdateResponders, pch), tr)
    }

    constructor (id: string, response: int, pch: Spec.PState, phase: Phase)
      ensures World() == Spec.NewCh(id, response, pch)
      ensures this.phase == phase && !locked && status == Spec.Open && !wasCloseInitiated && this.pch == pch
      ensures chUpdateNotifier == None && chUpdateNotifCache == [] && chUpdateResponders == map[]
    {
      this.id, this.response, this.pch, this.phase := id, response, pch, phase;
      status, wasCloseInitiated, locked := Spec.Open, false, false;
      chUpdateNotifier, chUpdateNotifCache, chUpdateResponders := None, [], map[];
      tr := Spec.Trace([], [], [], [], [], []);
    }

    /** Taking the lock; a caller that finds it taken waits, so it is free when the call returns. */
    method Lock()
      requires !locked
      modifies this`locked
      ensures locked
    {
      locked := true;
    }

    /** Releasing a lock that is not held is a fault. */
    method Unlock()
      requires locked
      modifies this`locked
      ensures !locked
    {
      locked := false;
    }

    function GetChInfo(): (info: Spec.ChInfo)
      reads this`pch
      ensures info == Spec.ChInfo(id, Decimal(pch.version), pch.bals)
    {
      Spec.MakeChInfo(id, Some(pch))
    }

    method HandleUpdate(currState: Option<Spec.PState>, responder: Spec.Responder, now: int)
      requires responder.id == |tr.handled|
      modifies this`chUpdateResponders, this`chUpdateNotifCache, this`tr
      ensures World() == Spec.HandleUpdateStep(old(World()), currState, responder.proposed, now)
      ensures status == Spec.Closed ==> World() == old(World())
      ensures status == Spec.Open ==> |tr.handled| == |old(tr).handled| + 1
    {
      if status == Spec.Closed {
        return;
      }
      var expiry := now + response;
      var notif := Spec.MakeUpdateNotif(id, Spec.MakeChInfo(id, currState), responder.proposed, expiry);
      var entry := Spec.Entry(notif, responder, expiry);
      if expiry != 0 {
        chUpdateResponders := chUpdateResponders[notif.updateID := entry];
      }
      tr := tr.(handled := tr.handled + [Spec.Handled(notif, responder.proposed, currState, now)]);
      SendChUpdateNotif(notif);
    }

    method SendChUpdateNotif(notif: Spec.Notif)
      modifies this`chUpdateNotifCache, this`tr
      ensures World() == Spec.SendNotif(old(World()), notif)
      ensures chUpdateNotifCache == old(chUpdateNotifCache) + if chUpdateNotifier.None? then [notif] else []
      ensures tr.launched == old(tr).launched + match chUpdateNotifier
                                                case None => []
                                                case Some(n) => [Notifications.Launch(n, notif)]
    {
      if chUpdateNotifier.None? {
        chUpdateNotifCache := chUpdateNotifCache + [notif];
        return;
      }
      Launch(chUpdateNotifier.value, notif);
    }

    /** Starting a goroutine that runs the notifier. */
    ghost method Launch(notifier: nat, notif: Spec.Notif)
      modifies this`tr
      ensures tr == old(tr).(launched := old(tr).launched + [Notifications.Launch(notifier, notif)])
    {
      tr := tr.(launched := tr.launched + [Notifications.Launch(notifier, notif)]);
    }

    /** The loop launches the first cached notification and cuts it off, as often as there were
        cached notifications; each cut leaves i - 1 of them. */
    method SubChUpdates(notifier: nat) returns (err: Option<Spec.ApiError>)
      modifies this`chUpdateNotifier, this`chUpdateNotifCache, this`tr
      ensures World() == Spec.SubStep(old(World()), notifier)
      ensures err.None? ==> chUpdateNotifier == Some(notifier) && chUpdateNotifCache == []
      ensures err.Some? ==> World() == old(World())
      ensures err == (if status == Spec.Closed then Some(Spec.FailedPreCondition)
                      else if old(chUpdateNotifier).Some? then Some(Spec.ResourceExists) else None)
    {
      if status == Spec.Closed {
        return Some(Spec.FailedPreCondition);
      }
      if chUpdateNotifier.Some? {
        return Some(Spec.ResourceExists);
      }
      chUpdateNotifier := Some(notifier);
      ghost var cached, before := chUpdateNotifCache, tr.launched;
      var i := |chUpdateNotifCache|;
      while i > 0
        invariant 0 <= i <= |cached| && chUpdateNotifier == Some(notifier)
        invariant chUpdateNotifCache == cached[|cached| - i..]
        invariant tr == old(tr).(launched := before + Notifications.LaunchAll(notifier, cached[..|cached| - i]))
      {
        Launch(chUpdateNotifier.value, chUpdateNotifCache[0]);
        ghost var k := |cached| - i;
        assert Notifications.LaunchAll(notifier, cached[..k + 1])
            == Notifications.LaunchAll(notifier, cached[..k]) + [Notifications.Launch(notifier, cached[k])];
        chUpdateNotifCache := chUpdateNotifCache[1..i];
        i := i - 1;
      }
      assert cached[..|cached|] == cached;
      return None;
    }

    method UnsubChUpdates() returns (err: Option<Spec.ApiError>)
      modifies this`chUpdateNotifier
      ensures World() == Spec.UnsubStep(old(World()))
      ensures status == Spec.Open ==> chUpdateNotifier == None
      ensures status == Spec.Closed ==> chUpdateNotifier == old(chUpdateNotifier)
      ensures err == (if status == Spec.Closed then Some(Spec.FailedPreCondition)
                      else if old(chUpdateNotifier).None? then Some(Spec.ResourceNotFound) else None)
    {
      if status == Spec.Closed {
        return Some(Spec.FailedPreCondition);
      }
      if chUpdateNotifier.None? {
        return Some(Spec.ResourceNotFound);
      }
      chUpdateNotifier := None;
      return None;
    }

    method RespondChUpdate(updateID: string, accept: bool, now: int, answerOk: bool, registerOk: bool)
      returns (info: Spec.ChInfo, err: Option<Spec.ApiError>)
      modifies this`chUpdateResponders, this`pch, this`tr
      ensures World() == Spec.RespondStep(old(World()), updateID, accept, now, answerOk, registerOk)
      ensures info == GetChInfo()
      ensures chUpdateResponders ==
        if status == Spec.Open then old(chUpdateResponders) - {updateID} else old(chUpdateResponders)
      ensures status == Spec.Closed ==> err == Some(Spec.FailedPreCondition)
      ensures status == Spec.Open && updateID !in old(chUpdateResponders) ==> err == Some(Spec.ResourceNotFound)
      ensures status == Spec.Open && updateID in old(chUpdateResponders) ==>
        var e := old(chUpdateResponders)[updateID];
        if e.expiry < now then err == Some(Spec.UserResponseTimedOut(e.notif.expiry, now))
        else if accept then
          err.None? <==> answerOk && !old(pch).isFinal && e.responder.proposed.version == old(pch).version + 1
                         && (e.notif.kind == Spec.UpdateFinal ==> registerOk)
        else err.None? <==> answerOk
    {
      if status == Spec.Closed {
        return GetChInfo(), Some(Spec.FailedPreCondition);
      }
      if updateID !in chUpdateResponders {
        return GetChInfo(), Some(Spec.ResourceNotFound);
      }
      var entry := chUpdateResponders[updateID];
      chUpdateResponders := chUpdateResponders - {updateID};
      if entry.expiry < now {
        return GetChInfo(), Some(Spec.UserResponseTimedOut(entry.notif.expiry, now));
      }
      if accept {
        err := AcceptChUpdate(entry, now, answerOk);
        if err.None? && entry.notif.kind == Spec.UpdateFinal {
          err := RegisterState(Spec.OnAccept(entry.responder.id), registerOk);
        }
      } else {
        err := RejectChUpdate(entry, now, answerOk);
      }
      return GetChInfo(), err;
    }

    method AcceptChUpdate(entry: Spec.Entry, ghost now: int, answerOk: bool) returns (err: Option<Spec.ApiError>)
      modifies this`pch, this`tr
      ensures err.None? <==>
        answerOk && !old(pch).isFinal && entry.responder.proposed.version == old(pch).version + 1
      ensures pch == if err.None? then entry.responder.proposed else old(pch)
      ensures tr == old(tr).(answers := old(tr).answers + [Spec.Answer(entry.responder.id, true, err.None?, now)])
    {
      var ok := answerOk && Spec.Installable(pch, entry.responder.proposed);
      tr := tr.(answers := tr.answers + [Spec.Answer(entry.responder.id, true, ok, now)]);
      if !ok {
        return Some(Spec.LibraryError);
      }
      pch := entry.responder.proposed;
      return None;
    }

    method RejectChUpdate(entry: Spec.Entry, ghost now: int, answerOk: bool) returns (err: Option<Spec.ApiError>)
      modifies this`tr
      ensures err.None? <==> answerOk
      ensures tr == old(tr).(answers := old(tr).answers + [Spec.Answer(entry.responder.id, false, answerOk, now)])
    {
      tr := tr.(answers := tr.answers + [Spec.Answer(entry.responder.id, false, answerOk, now)]);
      return if answerOk then None else Some(Spec.LibraryError);
    }

    method RegisterState(ghost cause: Spec.Cause, ok: bool) returns (err: Option<Spec.ApiError>)
      modifies this`tr
      ensures err == if ok then None else Some(Spec.LibraryError)
      ensures tr == old(tr).(registers := old(tr).registers + [Spec.Register(cause, ok)])
    {
      tr := tr.(registers := tr.registers + [Spec.Register(cause, ok)]);
      return if ok then None else Some(Spec.LibraryError);
    }

    /** The library runs the updater on a copy of the agreed state and installs the result when the
        peer agrees. */
    method UpdateBy(updater: Spec.Updater, ok: bool) returns (updated: bool)
      modifies this`pch
      ensures pch == Spec.UpdateBy(old(pch), updater, ok)
      ensures updated <==> updater(old(pch)).Some? && ok && !old(pch).isFinal
      ensures updated ==> pch == updater(old(pch)).value.(version := old(pch).version + 1)
      ensures updated <==> pch.version != old(pch).version
      ensures !updated ==> pch == old(pch)
    {
      var next := updater(pch);
      if next.None? || !ok || pch.isFinal {
        return false;
      }
      pch := next.value.(version := pch.version + 1);
      return true;
    }

    method SendChUpdate(updater: Spec.Updater, ok: bool) returns (info: Spec.ChInfo, err: Option<Spec.ApiError>)
      modifies this`pch
      ensures World() == Spec.SendUpdateStep(old(World()), updater, ok)
      ensures status == Spec.Closed ==> err == Some(Spec.FailedPreCondition) && info == GetChInfo()
      ensures status == Spec.Open ==>
        if updater(old(pch)).Some? && ok && !old(pch).isFinal then err == None && info == GetChInfo()
        else err == Some(Spec.LibraryError) && info == Spec.NoChInfo && pch == old(pch)
    {
      if status == Spec.Closed {
        return GetChInfo(), Some(Spec.FailedPreCondition);
      }
      var updated := UpdateBy(updater, ok);
      if !updated {
        return Spec.NoChInfo, Some(Spec.LibraryError);
      }
      return GetChInfo(), None;
    }

    method Close(finalizeOk: bool, registerOk: bool) returns (info: Spec.ChInfo, err: Option<Spec.ApiError>)
      modifies this`pch, this`wasCloseInitiated, this`tr
      ensures World() == Spec.CloseStep(old(World()), finalizeOk, registerOk)
      ensures status == Spec.Open ==>
        && wasCloseInitiated && pch.bals == old(pch).bals && (pch.isFinal <==> old(pch).isFinal || finalizeOk)
        && tr.registers == old(tr).registers + [Spec.Register(Spec.OnClose, registerOk)]
      ensures info == GetChInfo()
      ensures err == (if status == Spec.Closed then Some(Spec.FailedPreCondition)
                      else if registerOk then None else Some(Spec.LibraryError))
    {
      if status == Spec.Closed {
        return GetChInfo(), Some(Spec.FailedPreCondition);
      }
      // A failure to finalize is only logged.
      var _ := UpdateBy(Spec.Finalized, finalizeOk);
      err := RegisterState(Spec.OnClose, registerOk);
      wasCloseInitiated := true;
      return GetChInfo(), err;
    }

    method HandleAdjudicatorEvent(kind: Spec.AdjudicatorKind, settleOk: bool)
      modifies this`status, this`chUpdateNotifier, this`tr
      ensures World() == Spec.AdjudicatorStep(old(World()), kind, settleOk)
      ensures (kind == Spec.Registered && !pch.isFinal) || (kind == Spec.Concluded && pch.isFinal) ==>
        status == Spec.Closed && tr.settles == old(tr).settles + [Spec.Settle(!wasCloseInitiated, settleOk)]
      ensures !((kind == Spec.Registered && !pch.isFinal) || (kind == Spec.Concluded && pch.isFinal)) ==>
        World() == old(World())
    {
      match kind
      case Registered =>
        if !pch.isFinal {
          var err := SettleCh(settleOk);
          CloseAndNotify(err);
          return;
        }
      case Concluded =>
        if pch.isFinal {
          var err := SettleCh(settleOk);
          CloseAndNotify(err);
          return;
        }
      case OtherEvent =>
    }

    method SettleCh(ok: bool) returns (err: Option<Spec.ApiError>)
      modifies this`tr
      ensures tr == old(tr).(settles := old(tr).settles + [Spec.Settle(!wasCloseInitiated, ok)])
      ensures err == if ok then None else Some(Spec.LibraryError)
    {
      tr := tr.(settles := tr.settles + [Spec.Settle(!wasCloseInitiated, ok)]);
      return if ok then None else Some(Spec.LibraryError);
    }

    method CloseAndNotify(err: Option<Spec.ApiError>)
      modifies this`status, this`chUpdateNotifier, this`tr
      ensures status == Spec.Closed && chUpdateNotifier == None
      ensures tr == match old(chUpdateNotifier)
                    case None => old(tr)
                    case Some(n) => old(tr).(closeNotifs := old(tr).closeNotifs +
                                      [Notifications.Launch(n, Spec.MakeCloseNotif(old(GetChInfo()), err))])
    {
      status := Spec.Closed;
      if chUpdateNotifier.None? {
        return;
      }
      var notif := Spec.MakeCloseNotif(GetChInfo(), err);
      tr := tr.(closeNotifs := tr.closeNotifs + [Notifications.Launch(chUpdateNotifier.value, notif)]);
      chUpdateNotifier := None;
    }
  }
}
