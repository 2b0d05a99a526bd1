/**
 What the controller of app/src/createTimelineOutputMonitorController.ts shows: the picture of each output as
 a function of what happened, the fate of every reply, and what a reconciliation, a retry and a disposal leave.
 */
module OutputDisplay {
  import opened Prelude
  import opened OutputMonitor

  // ---- one reply ----

  /** The entry and the activation the request was made for are still there. */
  predicate Awaited(s: State, f: Flight) {
    && !s.disposed && s.active && s.generation == f.generation
    && f.id in s.runtime && s.runtime[f.id].handle == f.handle
  }

  /** A picture of the program bus in the format and size asked for. */
  predicate Usable(f: Flight, p: Packet) {
    p.Packet? && p.rgba && p.program && !p.busy && p.width == f.width && p.height == f.height
  }

  predicate Contended(p: Packet) { p.Packet? && p.rgba && p.program && p.busy }

  function PictureOf(f: Flight, p: Packet): Picture
    requires p.Packet?
  {
    Picture(p.width, p.height, p.content, f.handle, f.generation)
  }

  /** The entry of an awaited reply and its monitor: shown, held, or failed. */
  predicate Answers(e: Entry, m: Monitor, f: Flight, p: Packet, now: real, e': Entry, m': Monitor) {
    if Usable(f, p) then
      && e' == e.(frame := Some(PictureOf(f, p)), lastFrameAt := now, errors := 0)
      && m' == Monitor(Live, Some(PictureOf(f, p)), m.busyDrops)
    else if Contended(p) then
      && e' == e
      && m' == Monitor(if e.frame.Some? then Live else if m.status.Failed? then Failed else Starting, e.frame,
                       m.busyDrops + 1)
    else
      && e' == e.(frame := None, errors := e.errors + 1, dueAt := Some(now + Backoff(e.errors + 1)))
      && m' == Monitor(Failed, None, m.busyDrops)
  }

  predicate OthersKept(s: State, t: State, id: int) {
    && t.runtime.Keys == s.runtime.Keys && t.states.Keys == s.states.Keys
    && (forall i :: i in s.runtime && i != id ==> t.runtime[i] == s.runtime[i])
    && (forall i :: i in s.states && i != id ==> t.states[i] == s.states[i])
  }

  predicate ReplyOutcome(s: State, f: Flight, p: Packet, now: real, t: State) {
    && !t.inFlight && t.outstanding == [] && t.generation == s.generation && t.active == s.active
    && t.order == s.order && t.cursor == s.cursor && t.starts == s.starts && t.nextStartSlot == s.nextStartSlot
    && (if Awaited(s, f) then
          && OthersKept(s, t, f.id) && f.id in s.states
          && Answers(s.runtime[f.id], s.states[f.id], f, p, now, t.runtime[f.id], t.states[f.id])
        else t.runtime == s.runtime && t.states == s.states)
  }

  /**
   Over every run a reply that is still awaited shows its picture, holds the one shown, or fails the output, by
   what the packet is; a reply no longer awaited changes nothing; both free the readback.
   */
  lemma ReplyDecides(origin: real, events: seq<Event>, k: nat, p: Packet, now: real)
    requires Fits(Run(Init(origin), events), Reply(k, p, now))
    ensures var s := Run(Init(origin), events);
            ReplyOutcome(s, s.outstanding[k], p, now, Step(s, Reply(k, p, now)))
  {
    EveryRunSchedules(origin, events);
    ShownPictureIsCurrent(origin, events);
    var s := Run(Init(origin), events);
    assert s.outstanding[k] in s.outstanding && FlightOk(s, s.outstanding[k]);
    ReplyOutcomeAt(s, k, p, now);
  }

  lemma ReplyOutcomeAt(s: State, k: nat, p: Packet, now: real)
    requires Fits(s, Reply(k, p, now)) && FlightsOk(s) && FlightOk(s, s.outstanding[k])
    requires s.states.Keys == s.runtime.Keys
    ensures ReplyOutcome(s, s.outstanding[k], p, now, Step(s, Reply(k, p, now)))
  {
    var u := s.(clock := now, outstanding := s.outstanding[..k] + s.outstanding[k + 1..]);
    assert u.outstanding == [];
    AnswerOutcome(u, s.outstanding[k], p);
  }

  lemma AnswerOutcome(s: State, f: Flight, p: Packet)
    requires FlightOk(s, f) && s.states.Keys == s.runtime.Keys
    ensures var t := Answer(s, f, p);
            && t == s.(runtime := t.runtime, states := t.states)
            && (if Awaited(s, f) then
                  && OthersKept(s, t, f.id)
                  && Answers(s.runtime[f.id], s.states[f.id], f, p, s.clock, t.runtime[f.id], t.states[f.id])
                else t.runtime == s.runtime && t.states == s.states)
  {
  }

  // ---- the picture shown, from the history ----

  /** The reconciliation stays in the project and the activation, and lists the output unchanged. */
  predicate KeepsPicture(s: State, e: Event, id: int)
    requires e.Reconcile?
  {
    && s.epoch == Some(e.epoch) && s.active == (e.available && e.wanted)
    && id in s.runtime && (exists o :: o in e.outputs && o.id == id)
    && (forall o :: o in e.outputs && o.id == id ==> o == s.runtime[id].key)
  }

  /** What is shown of an output, and since when, after one more event. */
  function ShownNext(s: State, shown: Option<(Picture, real)>, e: Event, id: int): Option<(Picture, real)> {
    if !Fits(s, e) then shown
    else
      match e
      case Reply(k, p, now) =>
        var f := s.outstanding[k];
        if f.id != id || !Awaited(s, f) || Contended(p) then shown
        else if Usable(f, p) then Some((PictureOf(f, p), now)) else None
      case Expire(now) => if shown.Some? && now >= shown.value.1 + 1000.0 then None else shown
      case Reconcile(_, _, _, _, _) => if KeepsPicture(s, e, id) then shown else None
      case Dispose(_) => None
      case _ => shown
  }

  /** The latest usable reply to the present entry, unless it failed, expired or was retired since. */
  function Latest(origin: real, events: seq<Event>, id: int): Option<(Picture, real)>
    decreases |events|
  {
    if events == [] then None
    else
      var front, e := events[..|events| - 1], events[|events| - 1];
      ShownNext(Run(Init(origin), front), Latest(origin, front, id), e, id)
  }

  /** The picture held for an output. */
  function Held(s: State, id: int): Option<(Picture, real)> {
    if id in s.runtime && s.runtime[id].frame.Some?
    then Some((s.runtime[id].frame.value, s.runtime[id].lastFrameAt)) else None
  }

  /** Over every run, monitor and entry of each output show exactly the latest picture of the history. */
  lemma {:induction false} ShowsTheLatest(origin: real, events: seq<Event>, id: int)
    ensures var s := Run(Init(origin), events);
            && Held(s, id) == Latest(origin, events, id)
            && (id in s.states <==> id in s.runtime) && (id in s.states ==> s.states[id].frame == s.runtime[id].frame)
    decreases |events|
  {
    ShownPictureIsCurrent(origin, events);
    if id in Run(Init(origin), events).runtime {
      var s := Run(Init(origin), events);
      assert Shows(s.states[id], s.runtime[id]);
    }
    if events != [] {
      var front, e := events[..|events| - 1], events[|events| - 1];
      ShowsTheLatest(origin, front, id);
      EveryRunSchedules(origin, front);
      ShownPictureIsCurrent(origin, front);
      HeldNext(Run(Init(origin), front), e, id);
    }
  }

  lemma HeldNext(s: State, e: Event, id: int)
    requires Scheduling(s) && DisplayOk(s)
    ensures Held(Step(s, e), id) == ShownNext(s, Held(s, id), e, id)
  {
    if Fits(s, e) {
      match e
      case Reply(k, p, now) => HeldAfterReply(s, k, p, now, id);
      case RunNext(now) => HeldAfterTimer(s, now, id);
      case Reconcile(outputs, epoch, available, wanted, now) =>
        ReconcileHolds(s.(clock := now), outputs, epoch, available, wanted, id);
      case Expire(now) => HeldAfterExpiry(s, now, id);
      case _ =>
    }
  }

  lemma HeldAfterReply(s: State, k: nat, p: Packet, now: real, id: int)
    requires FlightsOk(s) && Fits(s, Reply(k, p, now)) && s.states.Keys == s.runtime.Keys
    ensures Held(Step(s, Reply(k, p, now)), id) == ShownNext(s, Held(s, id), Reply(k, p, now), id)
  {
    assert s.outstanding[k] in s.outstanding && FlightOk(s, s.outstanding[k]);
    ReplyOutcomeAt(s, k, p, now);
  }

  lemma HeldAfterTimer(s: State, now: real, id: int)
    requires Fits(s, RunNext(now)) && s.states.Keys == s.runtime.Keys
    ensures Held(Step(s, RunNext(now)), id) == Held(s, id)
  {
    var t := s.(clock := now, timer := None);
    if !(t.disposed || !t.active || t.inFlight) {
      SelectedIsEligible(t, SlotAt(t.origin, t.clock), t.clock, 0);
    }
  }

  lemma HeldAfterExpiry(s: State, now: real, id: int)
    requires Fits(s, Expire(now))
    ensures Held(Step(s, Expire(now)), id) == ShownNext(s, Held(s, id), Expire(now), id)
  {
  }

  lemma ReconcileHolds(s: State, outputs: seq<Output>, epoch: int, available: bool, wanted: bool, id: int)
    requires Scheduling(s) && DisplayOk(s)
    ensures var e := Reconcile(outputs, epoch, available, wanted, s.clock);
            Held(ReconcileWith(s, outputs, epoch, available, wanted), id)
            == if KeepsPicture(s, e, id) then Held(s, id) else None
  {
    var r := Reorder(Activate(ClearEpoch(s, epoch), available && wanted), Ids(outputs));
    ReorderHolds(s, outputs, epoch, available && wanted, id);
    PlaceAllHolds(r, outputs, available, id);
  }

  predicate Listed(outputs: seq<Output>, id: int) { exists o :: o in outputs && o.id == id }

  predicate ListedAs(outputs: seq<Output>, id: int, key: Output) {
    forall o :: o in outputs && o.id == id ==> o == key
  }

  lemma ReorderHolds(s: State, outputs: seq<Output>, epoch: int, active: bool, id: int)
    ensures var r := Reorder(Activate(ClearEpoch(s, epoch), active), Ids(outputs));
            && (id in r.runtime <==> id in s.runtime && s.epoch == Some(epoch) && Listed(outputs, id))
            && (id in r.runtime ==> r.runtime[id].key == s.runtime[id].key)
            && Held(r, id) == if s.epoch == Some(epoch) && s.active == active && Listed(outputs, id) then Held(s, id)
                              else None
  {
    IdsListed(outputs, id);
  }

  lemma IdsListed(outputs: seq<Output>, id: int)
    ensures id in Ids(outputs) <==> Listed(outputs, id)
  {
    IdsCover(outputs);
    if id in Ids(outputs) {
      var i :| 0 <= i < |outputs| && Ids(outputs)[i] == id;
      assert outputs[i] in outputs;
    }
  }

  /** Placing outputs keeps a picture exactly if the output is not listed in another configuration. */
  lemma {:induction false} PlaceAllHolds(s: State, outputs: seq<Output>, available: bool, id: int)
    ensures var t := PlaceAll(s, outputs, available);
            && Held(t, id)
               == (if id in s.runtime && ListedAs(outputs, id, s.runtime[id].key) then Held(s, id) else None)
            && (id in s.runtime && ListedAs(outputs, id, s.runtime[id].key) ==>
                id in t.runtime && t.runtime[id] == s.runtime[id])
    decreases |outputs|
  {
    if outputs != [] {
      var front, o := outputs[..|outputs| - 1], outputs[|outputs| - 1];
      PlaceAllHolds(s, front, available, id);
      assert forall x :: x in outputs <==> x in front || x == o;
    }
  }

  // ---- what a reconciliation leaves ----

  /** Output o is the only one listed under its identity. */
  predicate ListedOnce(outputs: seq<Output>, i: nat) {
    i < |outputs| && forall j :: 0 <= j < |outputs| && j != i ==> outputs[j].id != outputs[i].id
  }

  /** Whether the entry of an unchanged output survives, and whether the activation changed. */
  predicate Survives(s: State, o: Output, epoch: int) {
    s.epoch == Some(epoch) && o.id in s.runtime && s.runtime[o.id].key == o
  }

  /**
   An unchanged output keeps its entry, without its picture and due at once if the activation changed; any other
   gets a new one of the presented size, due at once if it has one, no earlier than the slot its last start left.
   */
  predicate Configured(s: State, o: Output, epoch: int, active: bool, e: Entry) {
    if Survives(s, o, epoch) then
      var was := s.runtime[o.id];
      e == if s.active == active then was
           else was.(frame := None, lastFrameAt := 0.0, dueAt := if was.dueAt.Some? then Some(0.0) else None)
    else
      var size := MonitorSize(o.width, o.height);
      && e.key == o && e.errors == 0 && e.frame.None?
      && e.dueSlot == (if s.epoch == Some(epoch) && o.id in s.runtime then s.runtime[o.id].dueSlot else 0)
      && (match size
          case Some(wh) => e.width == wh.0 && e.height == wh.1 && e.dueAt == Some(0.0)
          case None => e.width == e.height == 0 && e.dueAt.None?)
  }

  /** The status shown: no size, not active, waiting for a first picture, or as it was. */
  predicate Labelled(s: State, o: Output, epoch: int, available: bool, active: bool, e: Entry, m: Monitor) {
    var kept := Survives(s, o, epoch) && o.id in s.states;
    m.status ==
      if e.width == 0 || e.height == 0 then Failed
      else if !active then (if available then Paused else DesktopRequired)
      else if kept && (e.frame.Some? || s.states[o.id].status == Failed) then s.states[o.id].status
      else Starting
  }

  predicate Rescheduled(s: State, e: Event, t: State)
    requires e.Reconcile?
  {
    var active := e.available && e.wanted;
    && t.order == Ids(e.outputs) && t.active == active && t.epoch == Some(e.epoch)
    && t.generation
       == s.generation + (if s.epoch == Some(e.epoch) then 0 else 1) + (if s.active == active then 0 else 1)
  }

  ghost predicate Reconciled(s: State, e: Event, t: State)
    requires e.Reconcile?
  {
    var active := e.available && e.wanted;
    && Rescheduled(s, e, t)
    && (forall id :: id in t.runtime <==> Listed(e.outputs, id)) && t.states.Keys == t.runtime.Keys
    && forall i: nat :: ListedOnce(e.outputs, i) ==>
         var o := e.outputs[i];
         && o.id in t.runtime && o.id in t.states
         && Configured(s, o, e.epoch, active, t.runtime[o.id])
         && Labelled(s, o, e.epoch, e.available, active, t.runtime[o.id], t.states[o.id])
  }

  /** Over every run a reconciliation leaves exactly the listed outputs, each configured and labelled as listed. */
  lemma ReconciledAsListed(origin: real, events: seq<Event>, e: Event)
    requires e.Reconcile? && Fits(Run(Init(origin), events), e)
    ensures Reconciled(Run(Init(origin), events), e, Step(Run(Init(origin), events), e))
  {
    EveryRunSchedules(origin, events);
    ShownPictureIsCurrent(origin, events);
    ReconciledAt(Run(Init(origin), events), e);
  }

  lemma ReconciledAt(s: State, e: Event)
    requires Scheduling(s) && DisplayOk(s) && e.Reconcile? && Fits(s, e)
    ensures Reconciled(s, e, Step(s, e))
  {
    var r := Retained(s, e);
    DisplayStep(s, e);
    ReconciledSettings(s, e);
    RetainedIsListed(s, e);
    RuntimeIsListed(r, e.outputs, e.available);
    forall i: nat | ListedOnce(e.outputs, i) ensures PlacedAt(s, e, r, i) {
      PlacedOnce(r, e.outputs, e.available, i);
      RetainedFor(s, e, i);
    }
  }

  /** The entries that stay, before the outputs are placed. */
  function Retained(s: State, e: Event): State
    requires e.Reconcile?
  {
    Reorder(Activate(ClearEpoch(s.(clock := e.now), e.epoch), e.available && e.wanted), Ids(e.outputs))
  }

  lemma ReconciledSettings(s: State, e: Event)
    requires e.Reconcile? && Fits(s, e)
    ensures var r, t := Retained(s, e), Step(s, e);
            && t.runtime == PlaceAll(r, e.outputs, e.available).runtime
            && t.states == PlaceAll(r, e.outputs, e.available).states
            && Rescheduled(s, e, t)
  {
    PlaceAllSettings(Retained(s, e), e.outputs, e.available);
  }

  lemma RetainedIsListed(s: State, e: Event)
    requires e.Reconcile?
    ensures forall id :: id in Retained(s, e).runtime ==> Listed(e.outputs, id)
  {
    forall id | id in Retained(s, e).runtime ensures Listed(e.outputs, id) {
      var i :| 0 <= i < |e.outputs| && Ids(e.outputs)[i] == id;
      assert e.outputs[i] in e.outputs;
    }
  }

  predicate PlacedAt(s: State, e: Event, r: State, i: nat)
    requires e.Reconcile? && ListedOnce(e.outputs, i)
  {
    var o, t, active := e.outputs[i], PlaceAll(r, e.outputs, e.available), e.available && e.wanted;
    && o.id in t.runtime && o.id in t.states
    && Configured(s, o, e.epoch, active, t.runtime[o.id])
    && Labelled(s, o, e.epoch, e.available, active, t.runtime[o.id], t.states[o.id])
  }

  lemma {:induction false} RuntimeIsListed(s: State, outputs: seq<Output>, available: bool)
    requires forall id :: id in s.runtime ==> Listed(outputs, id)
    ensures forall id :: id in PlaceAll(s, outputs, available).runtime <==> Listed(outputs, id)
  {
    forall id ensures id in PlaceAll(s, outputs, available).runtime <==> id in s.runtime || Listed(outputs, id) {
      PlacedOrThere(s, outputs, available, id);
    }
  }

  lemma {:induction false} PlacedOrThere(s: State, outputs: seq<Output>, available: bool, id: int)
    ensures id in PlaceAll(s, outputs, available).runtime <==> id in s.runtime || Listed(outputs, id)
    decreases |outputs|
  {
    if outputs != [] {
      PlacedOrThere(s, outputs[..|outputs| - 1], available, id);
      assert forall x :: x in outputs <==> x in outputs[..|outputs| - 1] || x == outputs[|outputs| - 1];
    }
  }

  /** The entry and monitor an output listed once gets are those of its own placing. */
  lemma {:induction false} PlacedOnce(s: State, outputs: seq<Output>, available: bool, i: nat)
    requires ListedOnce(outputs, i)
    ensures var t, o := PlaceAll(s, outputs, available), outputs[i];
            && o.id in t.runtime && o.id in t.states
            && (if o.id in s.runtime && s.runtime[o.id].key == o then t.runtime[o.id] == s.runtime[o.id]
                else NewlyPlaced(s, o, t.runtime[o.id]))
            && t.states[o.id]
               == MonitorFor(t.runtime[o.id],
                             if o.id in s.runtime && s.runtime[o.id].key == o && o.id in s.states then s.states[o.id]
                             else EMPTY, s.active, available)
    decreases |outputs|
  {
    var front, last := outputs[..|outputs| - 1], outputs[|outputs| - 1];
    PlaceAllSettings(s, front, available);
    if i == |outputs| - 1 {
      UnlistedStays(s, front, available, outputs[i].id);
    } else {
      assert front[i] == outputs[i] && ListedOnce(front, i);
      PlacedOnce(s, front, available, i);
      assert last.id != outputs[i].id;
    }
  }

  predicate NewlyPlaced(s: State, o: Output, e: Entry) {
    var size := MonitorSize(o.width, o.height);
    && e.key == o && e.errors == 0 && e.frame.None?
    && e.dueSlot == (if o.id in s.runtime then s.runtime[o.id].dueSlot else 0)
    && (match size
        case Some(wh) => e.width == wh.0 && e.height == wh.1 && e.dueAt == Some(0.0)
        case None => e.width == e.height == 0 && e.dueAt.None?)
  }

  lemma {:induction false} PlaceAllSettings(s: State, outputs: seq<Output>, available: bool)
    ensures var t := PlaceAll(s, outputs, available);
            t.active == s.active && t.order == s.order && t.epoch == s.epoch && t.generation == s.generation
    decreases |outputs|
  {
    if outputs != [] { PlaceAllSettings(s, outputs[..|outputs| - 1], available); }
  }

  lemma {:induction false} UnlistedStays(s: State, outputs: seq<Output>, available: bool, id: int)
    requires forall o :: o in outputs ==> o.id != id
    ensures var t := PlaceAll(s, outputs, available);
            (id in t.runtime <==> id in s.runtime) && (id in s.runtime ==> t.runtime[id] == s.runtime[id])
    decreases |outputs|
  {
    if outputs != [] {
      assert forall x :: x in outputs[..|outputs| - 1] ==> x in outputs;
      assert outputs[|outputs| - 1] in outputs;
      UnlistedStays(s, outputs[..|outputs| - 1], available, id);
    }
  }

  lemma RetainedFor(s: State, e: Event, i: nat)
    requires DisplayOk(s) && e.Reconcile? && ListedOnce(e.outputs, i)
    requires PlacedFrom(Retained(s, e), e, i)
    ensures PlacedAt(s, e, Retained(s, e), i)
  {
    RetainedEntry(s, e, e.outputs[i]);
    ConfiguredFrom(s, e, i);
    LabelledFrom(s, e, i);
  }

  predicate PlacedFrom(r: State, e: Event, i: nat)
    requires e.Reconcile? && ListedOnce(e.outputs, i)
  {
    var t, o := PlaceAll(r, e.outputs, e.available), e.outputs[i];
    && o.id in t.runtime && o.id in t.states
    && (if o.id in r.runtime && r.runtime[o.id].key == o then t.runtime[o.id] == r.runtime[o.id]
        else NewlyPlaced(r, o, t.runtime[o.id]))
    && t.states[o.id]
       == MonitorFor(t.runtime[o.id],
                     if o.id in r.runtime && r.runtime[o.id].key == o && o.id in r.states then r.states[o.id]
                     else EMPTY, r.active, e.available)
  }

  /** What is left of the entry of a listed output. */
  predicate LeftOf(s: State, e: Event, r: State, o: Output)
    requires e.Reconcile?
  {
    var active := e.available && e.wanted;
    && r.active == active && r.states == s.states
    && (o.id in r.runtime <==> s.epoch == Some(e.epoch) && o.id in s.runtime)
    && (o.id in r.runtime ==>
          var was := s.runtime[o.id];
          r.runtime[o.id] ==
            if s.active == active then was
            else was.(frame := None, lastFrameAt := 0.0, dueAt := if was.dueAt.Some? then Some(0.0) else None))
  }

  lemma RetainedEntry(s: State, e: Event, o: Output)
    requires e.Reconcile? && o in e.outputs
    ensures LeftOf(s, e, Retained(s, e), o)
  {
    IdsCover(e.outputs);
  }

  lemma ConfiguredFrom(s: State, e: Event, i: nat)
    requires e.Reconcile? && ListedOnce(e.outputs, i) && PlacedFrom(Retained(s, e), e, i)
    requires LeftOf(s, e, Retained(s, e), e.outputs[i])
    ensures var o, t := e.outputs[i], PlaceAll(Retained(s, e), e.outputs, e.available);
            Configured(s, o, e.epoch, e.available && e.wanted, t.runtime[o.id])
  {
  }

  lemma LabelledFrom(s: State, e: Event, i: nat)
    requires DisplayOk(s) && e.Reconcile? && ListedOnce(e.outputs, i) && PlacedFrom(Retained(s, e), e, i)
    requires LeftOf(s, e, Retained(s, e), e.outputs[i])
    ensures var o, t := e.outputs[i], PlaceAll(Retained(s, e), e.outputs, e.available);
            Labelled(s, o, e.epoch, e.available, e.available && e.wanted, t.runtime[o.id], t.states[o.id])
  {
  }

  // ---- retry, requests and disposal ----

  /** A retry forgets every failure: no errors, and due at once wherever a size exists. */
  lemma RetryForgetsFailures(s: State, now: real)
    requires Fits(s, Retry(now))
    ensures var t := Step(s, Retry(now));
            && t.runtime.Keys == s.runtime.Keys && t.states == s.states && t.outstanding == s.outstanding
            && forall id :: id in s.runtime ==>
                 t.runtime[id] == s.runtime[id].(errors := 0,
                                                 dueAt := if s.runtime[id].dueAt.Some? then Some(0.0) else None)
  {
  }

  /** Over every run an expiry drops exactly the pictures a second old or more, and nothing else. */
  lemma ExpiryDropsTheOld(origin: real, events: seq<Event>, now: real, id: int)
    requires var s := Run(Init(origin), events); Fits(s, Expire(now)) && id in s.runtime && id in s.states
    ensures var s := Run(Init(origin), events);
            var t, e := Step(s, Expire(now)), s.runtime[id];
            && id in t.runtime && id in t.states
            && (if e.frame.Some? && now >= e.lastFrameAt + 1000.0 then
                  && t.runtime[id].frame.None? && t.states[id] == Monitor(Failed, None, s.states[id].busyDrops)
                  && t.runtime[id].dueAt == e.dueAt && t.runtime[id].errors == e.errors
                else t.runtime[id] == e && t.states[id] == s.states[id])
  {
  }

  /** A request asks for the started output, in the size and for the entry and generation it has then. */
  lemma RequestsItsEntry(origin: real, events: seq<Event>, e: Event)
    ensures Requested(Run(Init(origin), events), e, Step(Run(Init(origin), events), e))
  {
    EveryRunSchedules(origin, events);
    RequestAt(Run(Init(origin), events), e);
  }

  predicate Requested(s: State, e: Event, t: State) {
    if |t.starts| == |s.starts| then t.outstanding == s.outstanding || |t.outstanding| < |s.outstanding|
    else
      && |t.starts| == |s.starts| + 1 && e.RunNext? && s.outstanding == []
      && var x := t.starts[|s.starts|];
         x.id in s.runtime && x.at == e.now && x.lineage == s.runtime[x.id].lineage
         && var entry := s.runtime[x.id];
            t.outstanding == [Flight(x.id, entry.handle, s.generation, entry.width, entry.height)]
  }

  lemma RequestAt(s: State, e: Event)
    requires Scheduling(s)
    ensures Requested(s, e, Step(s, e))
  {
    if Fits(s, e) {
      if e.RunNext? {
        RunNextRequests(s, e.now);
      } else {
        OthersStartNothing(s, e);
      }
    }
  }

  lemma RunNextRequests(s: State, now: real)
    requires FlightsOk(s) && Fits(s, RunNext(now))
    ensures Requested(s, RunNext(now), Step(s, RunNext(now)))
  {
    var t := s.(clock := now, timer := None);
    SelectedIsEligible(t, SlotAt(t.origin, t.clock), t.clock, 0);
    assert !s.inFlight ==> s.outstanding == [];
  }

  lemma OthersStartNothing(s: State, e: Event)
    requires Fits(s, e) && !e.RunNext?
    ensures var t := Step(s, e);
            t.starts == s.starts && (t.outstanding == s.outstanding || |t.outstanding| < |s.outstanding|)
  {
    match e
    case Reply(k, p, now) =>
      var u := s.(clock := now, outstanding := s.outstanding[..k] + s.outstanding[k + 1..]);
      AnswerKeepsStarts(u, s.outstanding[k], p);
    case Reconcile(outputs, _, available, _, _) => PlacedKeepsStarts(Retained(s, e), outputs, available);
    case _ =>
  }

  lemma AnswerKeepsStarts(s: State, f: Flight, p: Packet)
    ensures Answer(s, f, p).starts == s.starts && Answer(s, f, p).outstanding == s.outstanding
  {
  }

  lemma {:induction false} PlacedKeepsStarts(s: State, outputs: seq<Output>, available: bool)
    ensures var t := PlaceAll(s, outputs, available); t.starts == s.starts && t.outstanding == s.outstanding
    decreases |outputs|
  {
    if outputs != [] { PlacedKeepsStarts(s, outputs[..|outputs| - 1], available); }
  }

  /** After disposal nothing is shown, armed or started, whatever still arrives. */
  lemma {:induction false} DisposedShowsNothing(origin: real, events: seq<Event>, more: seq<Event>)
    requires Run(Init(origin), events).disposed
    ensures var s, t := Run(Init(origin), events), Run(Run(Init(origin), events), more);
            t.disposed && t.runtime == map[] && t.states == map[] && t.timer.None? && t.starts == s.starts
    decreases |more|
  {
    DisposedIsEmpty(origin, events);
    if more != [] {
      DisposedShowsNothing(origin, events, more[..|more| - 1]);
      DisposedStepShowsNothing(Run(Run(Init(origin), events), more[..|more| - 1]), more[|more| - 1]);
    }
  }

  predicate Gone(s: State) { s.disposed && s.runtime == map[] && s.states == map[] && s.timer.None? }

  lemma DisposedStepShowsNothing(s: State, e: Event)
    requires Gone(s)
    ensures Gone(Step(s, e)) && Step(s, e).starts == s.starts
  {
  }

  lemma {:induction false} DisposedIsEmpty(origin: real, events: seq<Event>)
    ensures Run(Init(origin), events).disposed ==> Gone(Run(Init(origin), events))
    decreases |events|
  {
    if events != [] {
      var s, e := Run(Init(origin), events[..|events| - 1]), events[|events| - 1];
      DisposedIsEmpty(origin, events[..|events| - 1]);
      if s.disposed { DisposedStepShowsNothing(s, e); } else { OnlyDisposeDisposes(s, e); }
    }
  }

  lemma OnlyDisposeDisposes(s: State, e: Event)
    requires !s.disposed
    ensures Step(s, e).disposed ==> e.Dispose? && Gone(Step(s, e))
  {
    if e.Reconcile? {
      var r := Reorder(Activate(ClearEpoch(s.(clock := e.now), e.epoch), e.available && e.wanted), Ids(e.outputs));
      PlacedStaysAlive(r, e.outputs, e.available);
    }
  }

  lemma {:induction false} PlacedStaysAlive(s: State, outputs: seq<Output>, available: bool)
    ensures PlaceAll(s, outputs, available).disposed == s.disposed
    decreases |outputs|
  {
    if outputs != [] { PlacedStaysAlive(s, outputs[..|outputs| - 1], available); }
  }

  // ---- the presented size keeps the aspect ratio ----

  /** n is a / b to the nearest integer, but at least one. */
  predicate Nearest(n: nat, a: int, b: int) {
    n >= 1 && 2 * a < (2 * n + 1) * b && (n == 1 || (2 * n - 1) * b <= 2 * a)
  }

  /**
   A size that fits 320 by 180 is presented as it is; of any other, the side that is longer for its bound is
   brought to the bound and the other one scaled with it, to the nearest pixel.
   */
  lemma SizeKeepsAspect(width: int, height: int)
    requires MonitorSize(width, height).Some?
    ensures ScaledInto(width, height, MonitorSize(width, height).value)
  {
    var a, b := 320.0 / width as real, 180.0 / height as real;
    Quotient(320.0, width);
    Quotient(180.0, height);
    assert Scale(width, height) == Min(1.0, Min(a, b));
    SizeByRatios(width, height, a, b);
  }

  predicate ScaledInto(width: int, height: int, size: (nat, nat)) {
    if width <= 320 && height <= 180 then size == (width, height)
    else if 320 * height <= 180 * width then size.0 == 320 && Nearest(size.1, 320 * height, width)
    else size.1 == 180 && Nearest(size.0, 180 * width, height)
  }

  lemma SizeByRatios(width: int, height: int, a: real, b: real)
    requires width >= 1 && height >= 1 && a > 0.0 && b > 0.0
    requires width as real * a == 320.0 && height as real * b == 180.0
    ensures var scale := Min(1.0, Min(a, b));
            ScaledInto(width, height, (Presented(width, scale), Presented(height, scale)))
  {
    Compare(width, height, a, b);
    if width <= 320 && height <= 180 {
      NotShrunk(width, a, 320);
      NotShrunk(height, b, 180);
      PresentedWhole(width);
      PresentedWhole(height);
    } else if 320 * height <= 180 * width {
      SizeByRatio(width, a, 320, height, b, 180);
    } else {
      SizeByRatio(height, b, 180, width, a, 320);
    }
  }

  lemma PresentedWhole(n: int)
    requires n >= 1
    ensures Presented(n, 1.0) == n
  {
    assert n as real * 1.0 == n as real;
  }

  /** Side n is the longer one for its bound. */
  lemma SizeByRatio(n: int, ratio: real, bound: int, m: int, otherRatio: real, other: int)
    requires n >= 1 && m >= 1 && bound >= 1 && ratio > 0.0
    requires n as real * ratio == bound as real && m as real * otherRatio == other as real
    requires ratio <= otherRatio && (n > bound || m > other)
    ensures Min(1.0, ratio) == ratio
    ensures Presented(n, ratio) == bound && Nearest(Presented(m, ratio), bound * m, n)
  {
    StaysWhole(n, ratio, bound);
    StaysWhole(m, otherRatio, other);
    Scaled(m, ratio, bound, n);
  }

  /** The smaller ratio is that of the side that is longer for its bound. */
  lemma Compare(width: int, height: int, a: real, b: real)
    requires width >= 1 && height >= 1 && width as real * a == 320.0 && height as real * b == 180.0
    ensures a <= b <==> 320 * height <= 180 * width
  {
    var w, h := width as real, height as real;
    assert (b - a) * (w * h) == 180.0 * w - 320.0 * h by {
      assert b * (w * h) == (h * b) * w;
      assert a * (w * h) == (w * a) * h;
    }
    SameSign(b - a, w * h);
  }

  lemma SameSign(x: real, y: real)
    requires y > 0.0
    ensures x >= 0.0 <==> x * y >= 0.0
  {
  }

  lemma NotShrunk(n: int, ratio: real, bound: int)
    requires 1 <= n <= bound && n as real * ratio == bound as real
    ensures ratio >= 1.0
  {
    if ratio < 1.0 { assert n as real * (1.0 - ratio) > 0.0; }
  }

  lemma StaysWhole(n: int, ratio: real, bound: int)
    requires n >= 1 && n as real * ratio == bound as real
    ensures ratio >= 1.0 ==> n <= bound
  {
    if ratio >= 1.0 { assert n as real * (ratio - 1.0) >= 0.0; }
  }

  lemma Scaled(n: int, ratio: real, bound: int, side: int)
    requires n >= 1 && side >= 1 && ratio > 0.0 && side as real * ratio == bound as real
    ensures Nearest(Presented(n, ratio), bound * n, side)
  {
    var x := n as real * ratio;
    assert side as real * x == (bound * n) as real by { Regroup(side, n, ratio, bound); }
    RoundIsNearest(x, side, bound * n);
  }

  lemma Regroup(side: int, n: int, ratio: real, bound: int)
    requires side as real * ratio == bound as real
    ensures side as real * (n as real * ratio) == (bound * n) as real
  {
    assert side as real * (n as real * ratio) == n as real * (side as real * ratio);
    CastProduct(bound, n);
  }

  lemma CastProduct(a: int, b: int)
    ensures (a * b) as real == a as real * b as real
  {
  }

  lemma RoundIsNearest(x: real, side: int, a: int)
    requires side >= 1 && side as real * x == a as real && x > 0.0
    ensures Nearest(AtLeastOne(Round(x)), a, side)
  {
    var r, c := Round(x), side as real;
    assert c * (2.0 * x) == (2 * a) as real;
    assert r >= 0 && (2 * r - 1) as real <= 2.0 * x < (2 * r + 1) as real;
    if r >= 1 { NearestAbove(r, x, side, a); } else { NearestOne(x, side, a); }
  }

  lemma NearestAbove(r: int, x: real, side: int, a: int)
    requires side >= 1 && side as real * (2.0 * x) == (2 * a) as real
    requires r >= 1 && (2 * r - 1) as real <= 2.0 * x < (2 * r + 1) as real
    ensures Nearest(r, a, side)
  {
    Times(side as real, 2.0 * x, (2 * r + 1) as real);
    TimesLeast(side as real, (2 * r - 1) as real, 2.0 * x);
    CastProduct(2 * r + 1, side);
    CastProduct(2 * r - 1, side);
  }

  lemma NearestOne(x: real, side: int, a: int)
    requires side >= 1 && side as real * (2.0 * x) == (2 * a) as real && 2.0 * x < 3.0
    ensures Nearest(1, a, side)
  {
    Times(side as real, 2.0 * x, 3.0);
    CastProduct(3, side);
  }

  lemma Times(c: real, x: real, y: real)
    requires c > 0.0 && x < y
    ensures c * x < c * y
  {
    assert c * (y - x) > 0.0;
  }

  lemma TimesLeast(c: real, x: real, y: real)
    requires c > 0.0 && x <= y
    ensures c * x <= c * y
  {
    assert c * (y - x) >= 0.0;
  }
}
