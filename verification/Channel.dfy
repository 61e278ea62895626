/** What each operation of a payment channel does to the channel, written as functions on values.

    The environment (the state channel library and the clock) appears as parameters of the steps:
    whether a call into the library succeeded, and the time at which the step ran. */
module ChannelSpec {
  import opened Wrappers
  import opened UpdateIds
  import opened Notifications

  /** Raw balances: one row per currency, one entry per participant. */
  type Balances = seq<seq<int>>


  /** The off-chain state agreed by both participants, as the state channel library holds it. */
  datatype PState = PState(version: nat, isFinal: bool, bals: Balances)

  /** The function a caller passes to change a state; it may fail. */
  type Updater = PState -> Option<PState>

  datatype Status = Open | Closed

  datatype ChInfo = NoChInfo | ChInfo(chID: string, version: string, bals: Balances)

  datatype ApiError =
    | FailedPreCondition
    | ResourceExists
    | ResourceNotFound
    | UserResponseTimedOut(expiry: int, now: int)
    | LibraryError

  datatype NotifKind = UpdateOpen | UpdateFinal | UpdateClosed

  datatype Notif = Notif(
    updateID: string, curr: ChInfo, proposed: ChInfo, kind: NotifKind, expiry: int, error: Option<ApiError>)

  /** The library's handle for answering one proposed update; handles are numbered in the order in
      which the updates are handled. */
  datatype Responder = Responder(id: nat, proposed: PState)

  datatype Entry = Entry(notif: Notif, responder: Responder, expiry: int)

  datatype Chan = Chan(
    id: string,
    response: int,                     // seconds a user has for responding
    status: Status,
    closeInitiated: bool,
    notifier: Option<nat>,
    cache: seq<Notif>,
    responders: map<string, Entry>,
    pch: PState)

  // What the channel did to its surroundings, in order.

  datatype Handled = Handled(notif: Notif, proposed: PState, curr: Option<PState>, at: int)
  datatype Answer = Answer(responder: nat, accepted: bool, ok: bool, at: int)
  datatype Cause = OnClose | OnAccept(responder: nat)
  datatype Register = Register(cause: Cause, ok: bool)
  datatype Settle = Settle(secondary: bool, ok: bool)

  datatype Trace = Trace(
    handled: seq<Handled>,     // incoming updates, numbered as their responders
    launched: seq<Launch<Notif>>,     // notifications started in a goroutine of their own
    closeNotifs: seq<Launch<Notif>>,  // close notifications, sent under the lock
    answers: seq<Answer>,      // calls of Accept and Reject
    registers: seq<Register>,
    settles: seq<Settle>)

  datatype World = World(ch: Chan, tr: Trace)

  datatype AdjudicatorKind = Registered | Concluded | OtherEvent

  datatype Event =
    | HandleUpdate(curr: Option<PState>, proposed: PState, now: int)
    | SubChUpdates(notifier: nat)
    | UnsubChUpdates
    | RespondChUpdate(updateID: string, accept: bool, now: int, answerOk: bool, registerOk: bool)
    | SendChUpdate(updater: Updater, updateOk: bool)
    | CloseCh(finalizeOk: bool, registerOk: bool)
    | Adjudicator(kind: AdjudicatorKind, settleOk: bool)

  // ----- the state channel library

  /** An update agreed with the peer installs what the updater made of a copy of the state, one version
      on. It fails when the updater does or the library reports a failure, and always on a final state. */
  function UpdateBy(p: PState, updater: Updater, ok: bool): PState {
    var next := updater(p);
    if next.Some? && ok && !p.isFinal then next.value.(version := p.version + 1) else p
  }

  function Finalized(p: PState): Option<PState> {
    Some(p.(isFinal := true))
  }

  /** The proposals that accepting can still install. */
  predicate Installable(p: PState, proposed: PState) {
    !p.isFinal && proposed.version == p.version + 1
  }

  // ----- channel infos and notifications

  function MakeChInfo(chID: string, state: Option<PState>): ChInfo {
    match state
    case None => NoChInfo
    case Some(s) => ChInfo(chID, Decimal(s.version), s.bals)
  }

  function MakeUpdateNotif(chID: string, curr: ChInfo, proposed: PState, expiry: int): Notif {
    Notif(UpdateID(chID, proposed.version), curr, MakeChInfo(chID, Some(proposed)),
          if proposed.isFinal then UpdateFinal else UpdateOpen, expiry, None)
  }

  function MakeCloseNotif(curr: ChInfo, error: Option<ApiError>): Notif {
    Notif(if curr.ChInfo? then CloseID(curr.chID, curr.version) else CloseID("", ""),
          curr, NoChInfo, UpdateClosed, 0, error)
  }

  // ----- the steps

  function SendNotif(w: World, notif: Notif): World {
    match w.ch.notifier
    case None => w.(ch := w.ch.(cache := w.ch.cache + [notif]))
    case Some(n) => w.(tr := w.tr.(launched := w.tr.launched + [Launch(n, notif)]))
  }

  function HandleUpdateStep(w: World, curr: Option<PState>, proposed: PState, now: int): World {
    if w.ch.status == Closed then w
    else
      var expiry := now + w.ch.response;
      var notif := MakeUpdateNotif(w.ch.id, MakeChInfo(w.ch.id, curr), proposed, expiry);
      var entry := Entry(notif, Responder(|w.tr.handled|, proposed), expiry);
      var ch := if expiry != 0 then w.ch.(responders := w.ch.responders[notif.updateID := entry]) else w.ch;
      SendNotif(World(ch, w.tr.(handled := w.tr.handled + [Handled(notif, proposed, curr, now)])), notif)
  }

  function SubStep(w: World, notifier: nat): World {
    if w.ch.status == Closed || w.ch.notifier.Some? then w
    else World(w.ch.(notifier := Some(notifier), cache := []),
               w.tr.(launched := w.tr.launched + LaunchAll(notifier, w.ch.cache)))
  }

  function UnsubStep(w: World): World {
    if w.ch.status == Closed then w else w.(ch := w.ch.(notifier := None))
  }

  function AcceptStep(w: World, e: Entry, now: int, ok: bool, registerOk: bool): World {
    var accepted := ok && Installable(w.ch.pch, e.responder.proposed);
    var answers := w.tr.answers + [Answer(e.responder.id, true, accepted, now)];
    if !accepted then w.(tr := w.tr.(answers := answers))
    else
      var registers := if e.notif.kind == UpdateFinal
                       then w.tr.registers + [Register(OnAccept(e.responder.id), registerOk)]
                       else w.tr.registers;
      World(w.ch.(pch := e.responder.proposed), w.tr.(answers := answers, registers := registers))
  }

  function RejectStep(w: World, e: Entry, now: int, ok: bool): World {
    w.(tr := w.tr.(answers := w.tr.answers + [Answer(e.responder.id, false, ok, now)]))
  }

  function RespondStep(w: World, updateID: string, accept: bool, now: int, ok: bool, registerOk: bool): World {
    if w.ch.status == Closed || updateID !in w.ch.responders then w
    else
      var e := w.ch.responders[updateID];
      var taken := w.(ch := w.ch.(responders := w.ch.responders - {updateID}));
      if e.expiry < now then taken
      else if accept then AcceptStep(taken, e, now, ok, registerOk)
      else RejectStep(taken, e, now, ok)
  }

  function SendUpdateStep(w: World, updater: Updater, ok: bool): World {
    if w.ch.status == Closed then w
    else w.(ch := w.ch.(pch := UpdateBy(w.ch.pch, updater, ok)))
  }

  function CloseStep(w: World, finalizeOk: bool, registerOk: bool): World {
    if w.ch.status == Closed then w
    else
      World(w.ch.(pch := UpdateBy(w.ch.pch, Finalized, finalizeOk), closeInitiated := true),
            w.tr.(registers := w.tr.registers + [Register(OnClose, registerOk)]))
  }

  function SettleAndCloseStep(w: World, ok: bool): World {
    var tr := w.tr.(settles := w.tr.settles + [Settle(!w.ch.closeInitiated, ok)]);
    var error := if ok then None else Some(LibraryError);
    var notif := MakeCloseNotif(MakeChInfo(w.ch.id, Some(w.ch.pch)), error);
    match w.ch.notifier
    case None => World(w.ch.(status := Closed), tr)
    case Some(n) =>
      World(w.ch.(status := Closed, notifier := None),
            tr.(closeNotifs := tr.closeNotifs + [Launch(n, notif)]))
  }

  /** The adjudicator event that settles a channel whose agreed state is final, or not. */
  function SettlingKind(isFinal: bool): AdjudicatorKind {
    if isFinal then Concluded else Registered
  }

  function AdjudicatorStep(w: World, kind: AdjudicatorKind, settleOk: bool): World {
    if kind == SettlingKind(w.ch.pch.isFinal) then SettleAndCloseStep(w, settleOk) else w
  }

  function Step(w: World, e: Event): World {
    match e
    case HandleUpdate(curr, proposed, now) => HandleUpdateStep(w, curr, proposed, now)
    case SubChUpdates(n) => SubStep(w, n)
    case UnsubChUpdates => UnsubStep(w)
    case RespondChUpdate(id, accept, now, ok, registerOk) => RespondStep(w, id, accept, now, ok, registerOk)
    case SendChUpdate(f, ok) => SendUpdateStep(w, f, ok)
    case CloseCh(finalizeOk, registerOk) => CloseStep(w, finalizeOk, registerOk)
    case Adjudicator(kind, ok) => AdjudicatorStep(w, kind, ok)
  }

  /** The state after a sequence of operations, in the order in which they got the channel's lock. */
  function Run(w: World, evs: seq<Event>): World {
    if evs == [] then w else Step(Run(w, evs[..|evs| - 1]), evs[|evs| - 1])
  }

  function NewCh(id: string, response: int, pch: PState): World {
    World(Chan(id, response, Open, false, None, [], map[], pch), Trace([], [], [], [], [], []))
  }
}
