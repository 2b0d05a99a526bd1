/**
 Timeline output monitors: app/src/createTimelineOutputMonitorController.ts.

 A round-robin of readbacks on a shared 60 Hz slot clock.  Times are reals in milliseconds.  Each event
 carries the clock reading its code makes; an event that would turn the clock back does not happen.  A
 timer may fire at any moment once armed: `OnTime` says that it did not fire early.

 An entry is an object: `handle` is its identity, and `lineage` survives the replacement of an entry by
 one for the same output with another configuration.
 */
module OutputMonitor {
  import opened Prelude

  const INTERVAL: real := 1000.0 / 60.0
  const TOLERANCE: real := 0.0000001
  const START_SLOTS: nat := 2
  const MAX_AGE: real := 1000.0

  function Ceiling(x: real): int { -((-x).Floor) }
  function Round(x: real): int { (x + 0.5).Floor }

  function SlotTime(origin: real, slot: int): real { origin + slot as real * INTERVAL }

  function SlotAt(origin: real, now: real): (slot: int)
    ensures slot >= 0
  {
    var raw := ((now - origin + TOLERANCE) / INTERVAL).Floor;
    if raw < 0 then 0 else raw
  }

  datatype Output = Output(id: int, width: int, height: int, rest: string)

  /** `handle` and `generation` record the request a picture answers. */
  datatype Picture = Picture(width: nat, height: nat, content: nat, handle: nat, generation: nat)

  datatype Entry = Entry(key: Output, width: nat, height: nat, dueAt: Option<real>, dueSlot: int, errors: nat,
                         lastFrameAt: real, frame: Option<Picture>, handle: nat, lineage: nat)

  datatype Status = Starting | Live | Failed | Paused | DesktopRequired

  datatype Monitor = Monitor(status: Status, frame: Option<Picture>, busyDrops: nat)

  datatype Flight = Flight(id: int, handle: nat, generation: nat, width: nat, height: nat)

  datatype Packet = Packet(rgba: bool, program: bool, busy: bool, width: nat, height: nat, content: nat) | Rejected

  /** One request that was started. */
  datatype Start = Start(slot: int, at: real, id: int, lineage: nat)

  datatype State = State(origin: real, runtime: map<int, Entry>, states: map<int, Monitor>, order: seq<int>,
                         cursor: nat, generation: nat, epoch: Option<int>, active: bool, disposed: bool, inFlight: bool,
                         timer: Option<real>, nextStartSlot: int,
                         clock: real, outstanding: seq<Flight>, nextHandle: nat, nextLineage: nat, starts: seq<Start>)

  datatype Event =
    | RunNext(now: real)
    | Reply(k: nat, packet: Packet, now: real)
    | Expire(now: real)
    | Reconcile(outputs: seq<Output>, epoch: int, available: bool, wanted: bool, now: real)
    | Retry(now: real)
    | Dispose(now: real)

  function Init(origin: real): State {
    State(origin, map[], map[], [], 0, 0, None, false, false, false, None, 0, origin, [], 0, 0, [])
  }

  // ---- presentation size ----

  function Scale(width: int, height: int): real
    requires width >= 1 && height >= 1
  {
    Min(1.0, Min(320.0 / width as real, 180.0 / height as real))
  }

  /** Fits the picture into 320 by 180 without enlarging it. */
  function MonitorSize(width: int, height: int): Option<(nat, nat)> {
    if width > MAX_SAFE_INTEGER || height > MAX_SAFE_INTEGER || width < 1 || height < 1 then None
    else
      var scale := Scale(width, height);
      Some((Presented(width, scale), Presented(height, scale)))
  }

  function Presented(n: int, scale: real): nat { AtLeastOne(Round(n as real * scale)) }

  function AtLeastOne(n: int): nat { if n < 1 then 1 else n }

  // ---- timers ----

  /** The earliest time at which an entry may be started, if ever. */
  function ReadyAt(origin: real, e: Entry): Option<real> {
    if e.dueAt.None? then None else Some(Max(e.dueAt.value, SlotTime(origin, e.dueSlot)))
  }

  function Earlier(a: Option<real>, b: Option<real>): Option<real> {
    if a.None? then b else if b.None? then a else Some(Min(a.value, b.value))
  }

  /** The minimum over the runtime entries; `KeysMatch` says that the order lists all of them. */
  function EarliestReady(origin: real, runtime: map<int, Entry>, order: seq<int>): Option<real>
    decreases |order|
  {
    if order == [] then None
    else
      var front, id := EarliestReady(origin, runtime, order[..|order| - 1]), order[|order| - 1];
      if id in runtime then Earlier(front, ReadyAt(origin, runtime[id])) else front
  }

  function Schedule(s: State): State {
    s.(timer :=
       if s.disposed || !s.active || s.inFlight then None
       else
         var due := EarliestReady(s.origin, s.runtime, s.order);
         if due.None? then None
         else
           var delay := Ceiling(Max(SlotTime(s.origin, s.nextStartSlot), due.value) - s.clock);
           Some(s.clock + (if delay < 0 then 0 else delay) as real))
  }

  // ---- selection ----

  predicate Eligible(e: Entry, slot: int, now: real) {
    e.dueAt.Some? && e.dueAt.value <= now && e.dueSlot <= slot
  }

  predicate EligibleId(s: State, id: int, slot: int, now: real) {
    id in s.runtime && Eligible(s.runtime[id], slot, now)
  }

  /** The first eligible position at or after `offset` places past the cursor. */
  function Select(s: State, slot: int, now: real, offset: nat): (r: Option<nat>)
    ensures r.Some? ==> r.value < |s.order|
    decreases |s.order| - offset
  {
    if offset >= |s.order| then None
    else
      var index := (s.cursor + offset) % |s.order|;
      if EligibleId(s, s.order[index], slot, now) then Some(index) else Select(s, slot, now, offset + 1)
  }

  function Begin(s: State, id: int, slot: int): State
    requires id in s.runtime
  {
    var e := s.runtime[id];
    s.(inFlight := true, nextStartSlot := slot + 1,
       runtime := s.runtime[id := e.(dueSlot := slot + START_SLOTS)],
       outstanding := s.outstanding + [Flight(id, e.handle, s.generation, e.width, e.height)],
       starts := s.starts + [Start(slot, s.clock, id, e.lineage)])
  }

  lemma SelectedIsEligible(s: State, slot: int, now: real, offset: nat)
    ensures Select(s, slot, now, offset).Some? ==> EligibleId(s, s.order[Select(s, slot, now, offset).value], slot, now)
    decreases |s.order| - offset
  {
    if offset < |s.order| && !EligibleId(s, s.order[(s.cursor + offset) % |s.order|], slot, now) {
      SelectedIsEligible(s, slot, now, offset + 1);
    }
  }

  function RunNextAt(s: State): State {
    var t := s.(timer := None);
    if t.disposed || !t.active || t.inFlight then t
    else
      var slot := SlotAt(t.origin, t.clock);
      var index := Select(t, slot, t.clock, 0);
      if index.None? then Schedule(t)
      else
        SelectedIsEligible(t, slot, t.clock, 0);
        var moved := t.(cursor := (index.value + 1) % |t.order|);
        if slot < t.nextStartSlot then Schedule(moved) else Begin(moved, t.order[index.value], slot)
  }

  // ---- replies ----

  predicate Current(s: State, f: Flight) {
    && !s.disposed && s.active && s.generation == f.generation
    && f.id in s.runtime && s.runtime[f.id].handle == f.handle
  }

  function Publish(states: map<int, Monitor>, id: int, update: Monitor -> Monitor): map<int, Monitor> {
    if id in states then states[id := update(states[id])] else states
  }

  function Backoff(errors: nat): real
    requires errors > 0
  {
    Min(4000.0, 250.0 * (if errors == 1 then 1.0 else if errors == 2 then 2.0 else if errors == 3 then 4.0
                         else if errors == 4 then 8.0 else 16.0))
  }

  function Fail(s: State, id: int): State
    requires id in s.runtime
  {
    var e := s.runtime[id];
    s.(runtime := s.runtime[id := e.(errors := e.errors + 1, dueAt := Some(s.clock + Backoff(e.errors + 1)),
                                     frame := None)],
       states := Publish(s.states, id, (m: Monitor) => m.(status := Failed, frame := None)))
  }

  function Busy(s: State, id: int): State
    requires id in s.runtime
  {
    var e := s.runtime[id];
    s.(states := Publish(s.states, id, (m: Monitor) =>
         Monitor(if e.frame.Some? then Live else if m.status == Failed then Failed else Starting, e.frame,
                 m.busyDrops + 1)))
  }

  function Show(s: State, f: Flight, p: Packet): State
    requires f.id in s.runtime && p.Packet?
  {
    var picture := Picture(p.width, p.height, p.content, f.handle, f.generation);
    s.(runtime := s.runtime[f.id := s.runtime[f.id].(frame := Some(picture), lastFrameAt := s.clock, errors := 0)],
       states := Publish(s.states, f.id, (m: Monitor) => m.(status := Live, frame := Some(picture))))
  }

  function Answer(s: State, f: Flight, p: Packet): State {
    if !Current(s, f) then s
    else if p.Rejected? || !p.rgba || !p.program then Fail(s, f.id)
    else if p.busy then Busy(s, f.id)
    else if p.width != s.runtime[f.id].width || p.height != s.runtime[f.id].height then Fail(s, f.id)
    else Show(s, f, p)
  }

  function ReplyTo(s: State, k: nat, p: Packet): State
    requires k < |s.outstanding|
  {
    var t := Answer(s.(outstanding := s.outstanding[..k] + s.outstanding[k + 1..]), s.outstanding[k], p);
    Schedule(t.(inFlight := false))
  }

  predicate Expired(e: Entry, now: real) { e.frame.Some? && now >= e.lastFrameAt + MAX_AGE }

  function ExpireAll(s: State): State {
    s.(runtime := map id | id in s.runtime ::
         if Expired(s.runtime[id], s.clock) then s.runtime[id].(frame := None, lastFrameAt := 0.0) else s.runtime[id],
       states := map id | id in s.states ::
         if id in s.runtime && Expired(s.runtime[id], s.clock) then s.states[id].(status := Failed, frame := None)
         else s.states[id])
  }

  // ---- reconciliation with the authored outputs ----

  function ClearEpoch(s: State, epoch: int): State {
    if s.epoch == Some(epoch) then s
    else s.(generation := s.generation + 1, epoch := Some(epoch), runtime := map[])
  }

  function DueNow(e: Entry): Entry {
    if e.dueAt.Some? then e.(dueAt := Some(0.0)) else e
  }

  function Activate(s: State, active: bool): State {
    if s.active == active then s
    else s.(generation := s.generation + 1, active := active,
            runtime := map id | id in s.runtime :: DueNow(s.runtime[id].(frame := None, lastFrameAt := 0.0)))
  }

  function Ids(outputs: seq<Output>): (r: seq<int>)
    ensures |r| == |outputs| && forall i :: 0 <= i < |r| ==> r[i] == outputs[i].id
    decreases |outputs|
  {
    if outputs == [] then [] else Ids(outputs[..|outputs| - 1]) + [outputs[|outputs| - 1].id]
  }

  function Reorder(s: State, ids: seq<int>): State {
    s.(runtime := map id | id in s.runtime && id in ids :: s.runtime[id],
       order := ids, cursor := if s.cursor >= |ids| then 0 else s.cursor)
  }

  const EMPTY: Monitor := Monitor(Starting, None, 0)

  function EntryFor(s: State, o: Output): Entry {
    if o.id in s.runtime && s.runtime[o.id].key == o then s.runtime[o.id]
    else
      var size := MonitorSize(o.width, o.height);
      Entry(o, if size.Some? then size.value.0 else 0, if size.Some? then size.value.1 else 0,
            if size.Some? then Some(0.0) else None,
            if o.id in s.runtime then s.runtime[o.id].dueSlot else 0, 0, 0.0, None, s.nextHandle,
            if o.id in s.runtime then s.runtime[o.id].lineage else s.nextLineage)
  }

  function MonitorFor(e: Entry, before: Monitor, active: bool, available: bool): Monitor {
    if e.width == 0 || e.height == 0 then before.(status := Failed, frame := None)
    else if !active then before.(status := if available then Paused else DesktopRequired, frame := None)
    else if e.frame.None? && before.status != Failed then before.(status := Starting, frame := None)
    else before
  }

  /** Places one output; `s.states` is the map being rebuilt from `previous`. */
  function Place(s: State, o: Output, previous: map<int, Monitor>, available: bool): State {
    var e := EntryFor(s, o);
    var kept := o.id in s.runtime && s.runtime[o.id].key == o;
    var before := if kept && o.id in previous then previous[o.id] else EMPTY;
    s.(runtime := s.runtime[o.id := e], states := s.states[o.id := MonitorFor(e, before, s.active, available)],
       nextHandle := if kept then s.nextHandle else s.nextHandle + 1,
       nextLineage := if o.id in s.runtime then s.nextLineage else s.nextLineage + 1)
  }

  function PlaceAll(s: State, outputs: seq<Output>, available: bool): State
    decreases |outputs|
  {
    if outputs == [] then s.(states := map[])
    else Place(PlaceAll(s, outputs[..|outputs| - 1], available), outputs[|outputs| - 1], s.states, available)
  }

  function ReconcileWith(s: State, outputs: seq<Output>, epoch: int, available: bool, wanted: bool): State {
    Schedule(PlaceAll(Reorder(Activate(ClearEpoch(s, epoch), available && wanted), Ids(outputs)), outputs, available))
  }

  function RetryAll(s: State): State {
    Schedule(s.(runtime := map id | id in s.runtime :: DueNow(s.runtime[id].(errors := 0))))
  }

  // ---- the machine ----

  predicate Fits(s: State, e: Event) {
    && s.clock <= e.now
    && (e.RunNext? ==> s.timer.Some?)
    && (e.Reply? ==> e.k < |s.outstanding|)
    && (e.Reconcile? ==> !s.disposed)
  }

  function Step(s: State, e: Event): State {
    if !Fits(s, e) then s
    else
      var t := s.(clock := e.now);
      match e
      case RunNext(_) => RunNextAt(t)
      case Reply(k, packet, _) => ReplyTo(t, k, packet)
      case Expire(_) => ExpireAll(t)
      case Reconcile(outputs, epoch, available, wanted, _) => ReconcileWith(t, outputs, epoch, available, wanted)
      case Retry(_) => RetryAll(t)
      case Dispose(_) => t.(disposed := true, generation := t.generation + 1, timer := None, runtime := map[],
                            states := map[])
  }

  function Run(s: State, events: seq<Event>): State
    decreases |events|
  {
    if events == [] then s
    else Step(Run(s, events[..|events| - 1]), events[|events| - 1])
  }

  // ---- slots ----

  lemma SlotAtIsMonotone(origin: real, a: real, b: real)
    requires a <= b
    ensures SlotAt(origin, a) <= SlotAt(origin, b)
  {
    assert (a - origin + TOLERANCE) / INTERVAL <= (b - origin + TOLERANCE) / INTERVAL;
  }

  lemma SlotReached(origin: real, slot: int, now: real)
    requires SlotTime(origin, slot) <= now
    ensures slot <= SlotAt(origin, now)
  {
    assert slot as real <= (now - origin + TOLERANCE) / INTERVAL;
  }

  predicate StartOk(s: State, x: Start) {
    x.slot == SlotAt(s.origin, x.at) && x.slot < s.nextStartSlot && x.at <= s.clock
  }

  predicate Ascending(starts: seq<Start>) {
    forall i, j :: 0 <= i < j < |starts| ==> starts[i].slot < starts[j].slot && starts[i].at <= starts[j].at
  }

  predicate Spaced(starts: seq<Start>) {
    forall i, j :: 0 <= i < j < |starts| && starts[i].id == starts[j].id && starts[i].lineage == starts[j].lineage ==>
      starts[i].slot + START_SLOTS <= starts[j].slot
  }

  /** No living entry may start again less than two slots after an earlier start of its lineage. */
  predicate GapKept(s: State, x: Start) {
    && x.lineage < s.nextLineage
    && (x.id in s.runtime && s.runtime[x.id].lineage == x.lineage ==> x.slot + START_SLOTS <= s.runtime[x.id].dueSlot)
  }

  predicate EntryOk(s: State, e: Entry) {
    e.handle < s.nextHandle && e.lineage < s.nextLineage && (e.dueAt.Some? <==> e.width > 0 && e.height > 0)
  }

  predicate EntriesOk(s: State) { forall id :: id in s.runtime ==> EntryOk(s, s.runtime[id]) }

  predicate StartsOk(s: State) {
    && Ascending(s.starts) && Spaced(s.starts)
    && (forall x :: x in s.starts ==> StartOk(s, x))
    && (forall x :: x in s.starts ==> GapKept(s, x))
  }

  /** A request belongs to an entry of its size that can be due. */
  predicate FlightOk(s: State, f: Flight) {
    && f.handle < s.nextHandle
    && (f.id in s.runtime && s.runtime[f.id].handle == f.handle ==>
        s.runtime[f.id].dueAt.Some? && s.runtime[f.id].width == f.width && s.runtime[f.id].height == f.height)
  }

  predicate FlightsOk(s: State) {
    && |s.outstanding| == (if s.inFlight then 1 else 0)
    && (forall f :: f in s.outstanding ==> FlightOk(s, f))
  }

  predicate KeysOk(s: State) {
    && (forall id :: id in s.runtime ==> id in s.order)
    && (s.cursor < |s.order| || s.cursor == 0)
  }

  predicate Scheduling(s: State) {
    EntriesOk(s) && StartsOk(s) && FlightsOk(s) && KeysOk(s)
  }

  lemma AppendStart(s: State, id: int, slot: int)
    requires Scheduling(s) && id in s.runtime
    requires slot == SlotAt(s.origin, s.clock) && s.nextStartSlot <= slot && s.runtime[id].dueSlot <= slot
    ensures Ascending(Begin(s, id, slot).starts) && Spaced(Begin(s, id, slot).starts)
  {
    var x := Start(slot, s.clock, id, s.runtime[id].lineage);
    forall i | 0 <= i < |s.starts| ensures StartOk(s, s.starts[i]) && GapKept(s, s.starts[i]) {
      assert s.starts[i] in s.starts;
    }
  }

  lemma BeginKeeps(s: State, id: int, slot: int)
    requires Scheduling(s) && id in s.runtime && !s.inFlight && s.runtime[id].dueAt.Some?
    requires slot == SlotAt(s.origin, s.clock) && s.nextStartSlot <= slot && s.runtime[id].dueSlot <= slot
    ensures Scheduling(Begin(s, id, slot))
  {
    AppendStart(s, id, slot);
    var t := Begin(s, id, slot);
    var e := s.runtime[id];
    forall x | x in t.starts ensures StartOk(t, x) && GapKept(t, x) {
      assert x in s.starts || x == Start(slot, s.clock, id, e.lineage);
      assert x in s.starts ==> StartOk(s, x) && GapKept(s, x);
    }
    assert s.outstanding == [];
    forall f | f in t.outstanding ensures FlightOk(t, f) {
      assert f == Flight(id, e.handle, s.generation, e.width, e.height);
    }
    assert EntryOk(s, e);
    forall i | i in t.runtime ensures EntryOk(t, t.runtime[i]) {
      assert i in s.runtime && EntryOk(s, s.runtime[i]);
    }
  }

  /** The same scheduling state with another clock reading, timer, cursor or display. */
  lemma SchedulingFrame(s: State, t: State)
    requires Scheduling(s)
    requires t == s.(clock := t.clock, timer := t.timer, cursor := t.cursor, states := t.states)
    requires s.clock <= t.clock && (t.cursor < |t.order| || t.cursor == 0)
    ensures Scheduling(t)
  {
    forall x | x in t.starts ensures StartOk(t, x) && GapKept(t, x) {
      assert StartOk(s, x) && GapKept(s, x);
    }
    forall f | f in t.outstanding ensures FlightOk(t, f) {
      assert FlightOk(s, f);
    }
    forall id | id in t.runtime ensures EntryOk(t, t.runtime[id]) {
      assert EntryOk(s, s.runtime[id]);
    }
  }

  lemma RunNextKeeps(s: State)
    requires Scheduling(s)
    ensures Scheduling(RunNextAt(s))
  {
    var t := s.(timer := None);
    SchedulingFrame(s, t);
    if !(t.disposed || !t.active || t.inFlight) {
      var slot := SlotAt(t.origin, t.clock);
      var index := Select(t, slot, t.clock, 0);
      if index.None? {
        SchedulingFrame(t, Schedule(t));
      } else {
        SelectedIsEligible(t, slot, t.clock, 0);
        var moved := t.(cursor := (index.value + 1) % |t.order|);
        SchedulingFrame(t, moved);
        if slot < t.nextStartSlot {
          SchedulingFrame(moved, Schedule(moved));
        } else {
          BeginKeeps(moved, t.order[index.value], slot);
        }
      }
    }
  }

  /** Entries may change anything but their due slot, size, identity and whether they can be due. */
  predicate SameEntry(e: Entry, f: Entry) {
    && e.dueSlot == f.dueSlot && e.handle == f.handle && e.lineage == f.lineage
    && e.width == f.width && e.height == f.height && (e.dueAt.Some? <==> f.dueAt.Some?)
  }

  /** What retained entries and counters that only grow preserve. */
  predicate Retained(s: State, t: State) {
    && t.origin == s.origin && t.starts == s.starts && t.nextStartSlot == s.nextStartSlot && s.clock <= t.clock
    && t.nextHandle == s.nextHandle && t.nextLineage == s.nextLineage
    && (forall id :: id in t.runtime ==> id in s.runtime && SameEntry(s.runtime[id], t.runtime[id]))
  }

  lemma RetainedKeeps(s: State, t: State)
    requires Retained(s, t) && Scheduling(s) && KeysOk(t)
    requires |t.outstanding| == (if t.inFlight then 1 else 0) && forall f :: f in t.outstanding ==> f in s.outstanding
    ensures Scheduling(t)
  {
    forall x | x in t.starts ensures StartOk(t, x) && GapKept(t, x) {
      assert StartOk(s, x) && GapKept(s, x);
    }
    forall f | f in t.outstanding ensures FlightOk(t, f) {
      assert FlightOk(s, f);
    }
    forall id | id in t.runtime ensures EntryOk(t, t.runtime[id]) {
      assert EntryOk(s, s.runtime[id]);
    }
  }

  lemma AnswerRetains(s: State, f: Flight, p: Packet)
    requires FlightOk(s, f)
    ensures Retained(s, Answer(s, f, p))
    ensures var t := Answer(s, f, p);
            t == s.(runtime := t.runtime, states := t.states) && t.runtime.Keys == s.runtime.Keys
  {
  }

  lemma ReplyKeeps(s: State, k: nat, p: Packet)
    requires Scheduling(s) && k < |s.outstanding|
    ensures Scheduling(ReplyTo(s, k, p))
  {
    assert s.outstanding[k] in s.outstanding;
    var u := s.(outstanding := s.outstanding[..k] + s.outstanding[k + 1..]);
    assert u.outstanding == [];
    AnswerRetains(u, s.outstanding[k], p);
    var t := Answer(u, s.outstanding[k], p);
    RetainedKeeps(s, Schedule(t.(inFlight := false)));
  }

  // ---- reconciliation ----

  lemma ReorderRetains(s: State, epoch: int, active: bool, ids: seq<int>)
    requires Scheduling(s)
    ensures Scheduling(Reorder(Activate(ClearEpoch(s, epoch), active), ids))
  {
    RetainedKeeps(s, Reorder(Activate(ClearEpoch(s, epoch), active), ids));
  }

  lemma MonitorSizeIsPositive(o: Output)
    ensures MonitorSize(o.width, o.height).Some? ==>
      MonitorSize(o.width, o.height).value.0 > 0 && MonitorSize(o.width, o.height).value.1 > 0
  {
  }

  /** An entry for another configuration keeps the due slot of the one it replaces. */
  lemma EntryForInherits(s: State, o: Output)
    requires EntriesOk(s)
    ensures var e := EntryFor(s, o);
            && (o.id in s.runtime ==> e.dueSlot == s.runtime[o.id].dueSlot && e.lineage == s.runtime[o.id].lineage)
            && (o.id !in s.runtime ==> e.lineage == s.nextLineage)
            && (e.handle == s.nextHandle || (o.id in s.runtime && e == s.runtime[o.id]))
            && (e.dueAt.Some? <==> e.width > 0 && e.height > 0)
  {
    assert o.id in s.runtime ==> EntryOk(s, s.runtime[o.id]);
    MonitorSizeIsPositive(o);
  }

  lemma PlaceKeeps(s: State, o: Output, previous: map<int, Monitor>, available: bool)
    requires Scheduling(s) && o.id in s.order
    ensures Scheduling(Place(s, o, previous, available))
  {
    EntryForInherits(s, o);
    var t := Place(s, o, previous, available);
    forall x | x in t.starts ensures StartOk(t, x) && GapKept(t, x) {
      assert StartOk(s, x) && GapKept(s, x);
    }
    forall f | f in t.outstanding ensures FlightOk(t, f) {
      assert FlightOk(s, f);
    }
    forall id | id in t.runtime ensures EntryOk(t, t.runtime[id]) {
      assert id in s.runtime ==> EntryOk(s, s.runtime[id]);
    }
  }

  lemma {:induction false} PlaceAllKeeps(s: State, outputs: seq<Output>, available: bool)
    requires Scheduling(s) && forall o :: o in outputs ==> o.id in s.order
    ensures var t := PlaceAll(s, outputs, available);
            && Scheduling(t)
            && t == s.(runtime := t.runtime, states := t.states, nextHandle := t.nextHandle,
                       nextLineage := t.nextLineage)
    decreases |outputs|
  {
    if outputs == [] {
      SchedulingFrame(s, s.(states := map[]));
    } else {
      var front, o := outputs[..|outputs| - 1], outputs[|outputs| - 1];
      assert forall x :: x in front ==> x in outputs;
      assert o in outputs;
      PlaceAllKeeps(s, front, available);
      PlaceKeeps(PlaceAll(s, front, available), o, s.states, available);
    }
  }

  lemma IdsCover(outputs: seq<Output>)
    ensures forall o :: o in outputs ==> o.id in Ids(outputs)
  {
    forall o | o in outputs ensures o.id in Ids(outputs) {
      var i :| 0 <= i < |outputs| && outputs[i] == o;
      assert Ids(outputs)[i] == o.id;
    }
  }

  lemma ReconcileKeeps(s: State, outputs: seq<Output>, epoch: int, available: bool, wanted: bool)
    requires Scheduling(s)
    ensures Scheduling(ReconcileWith(s, outputs, epoch, available, wanted))
  {
    var t := Reorder(Activate(ClearEpoch(s, epoch), available && wanted), Ids(outputs));
    ReorderRetains(s, epoch, available && wanted, Ids(outputs));
    IdsCover(outputs);
    PlaceAllKeeps(t, outputs, available);
    var u := PlaceAll(t, outputs, available);
    SchedulingFrame(u, Schedule(u));
  }

  lemma SchedulingStep(s: State, e: Event)
    requires Scheduling(s)
    ensures Scheduling(Step(s, e))
  {
    if Fits(s, e) {
      var t := s.(clock := e.now);
      SchedulingFrame(s, t);
      match e
      case RunNext(_) => RunNextKeeps(t);
      case Reply(k, packet, _) => ReplyKeeps(t, k, packet);
      case Expire(_) => RetainedKeeps(t, ExpireAll(t));
      case Reconcile(outputs, epoch, available, wanted, _) => ReconcileKeeps(t, outputs, epoch, available, wanted);
      case Retry(_) => RetainedKeeps(t, RetryAll(t));
      case Dispose(_) => RetainedKeeps(t, Step(s, e));
    }
  }

  lemma {:induction false} EveryRunSchedules(origin: real, events: seq<Event>)
    ensures Scheduling(Run(Init(origin), events))
    decreases |events|
  {
    if events != [] {
      EveryRunSchedules(origin, events[..|events| - 1]);
      SchedulingStep(Run(Init(origin), events[..|events| - 1]), events[|events| - 1]);
    }
  }

  // ---- what every run promises about starts ----

  /** There is never more than one readback outstanding. */
  lemma AtMostOneReadback(origin: real, events: seq<Event>)
    ensures var s := Run(Init(origin), events);
            |s.outstanding| <= 1 && (s.inFlight <==> |s.outstanding| == 1)
  {
    EveryRunSchedules(origin, events);
  }

  /** Each request takes the slot its time falls into, and no slot is used twice, now or by a later catch-up. */
  lemma OneStartPerSlot(origin: real, events: seq<Event>, i: nat, j: nat)
    requires i < j < |Run(Init(origin), events).starts|
    ensures var starts := Run(Init(origin), events).starts;
            && starts[i].slot < starts[j].slot
            && starts[i].slot == SlotAt(origin, starts[i].at) && starts[j].slot == SlotAt(origin, starts[j].at)
  {
    EveryRunSchedules(origin, events);
    OriginIsFixed(origin, events);
    var s := Run(Init(origin), events);
    assert s.starts[i] in s.starts && s.starts[j] in s.starts;
    assert StartOk(s, s.starts[i]) && StartOk(s, s.starts[j]);
  }

  lemma {:induction false} OriginIsFixed(origin: real, events: seq<Event>)
    ensures Run(Init(origin), events).origin == origin
    decreases |events|
  {
    if events != [] {
      OriginIsFixed(origin, events[..|events| - 1]);
      StepKeepsOrigin(Run(Init(origin), events[..|events| - 1]), events[|events| - 1]);
    }
  }

  lemma StepKeepsOrigin(s: State, e: Event)
    ensures Step(s, e).origin == s.origin
  {
    if Fits(s, e) && e.Reconcile? {
      PlaceAllFrame(Reorder(Activate(ClearEpoch(s.(clock := e.now), e.epoch), e.available && e.wanted), Ids(e.outputs)),
                    e.outputs, e.available);
    }
  }

  lemma PlaceNext(s: State, outputs: seq<Output>, k: nat, available: bool)
    requires k < |outputs|
    ensures PlaceAll(s, outputs[..k + 1], available)
            == Place(PlaceAll(s, outputs[..k], available), outputs[k], s.states, available)
  {
    assert outputs[..k + 1][..k] == outputs[..k];
  }

  lemma {:induction false} PlaceAllFrame(s: State, outputs: seq<Output>, available: bool)
    ensures var t := PlaceAll(s, outputs, available);
            t == s.(runtime := t.runtime, states := t.states, nextHandle := t.nextHandle, nextLineage := t.nextLineage)
    decreases |outputs|
  {
    if outputs != [] { PlaceAllFrame(s, outputs[..|outputs| - 1], available); }
  }

  function StartsBetween(starts: seq<Start>, t1: real, t2: real): nat
    decreases |starts|
  {
    if starts == [] then 0
    else
      var x := starts[|starts| - 1];
      StartsBetween(starts[..|starts| - 1], t1, t2) + if t1 <= x.at <= t2 then 1 else 0
  }

  /** Starts in a window are at most its slots, bounded by the last of them. */
  lemma {:induction false} WindowCount(origin: real, starts: seq<Start>, t1: real, t2: real)
    requires Ascending(starts) && t1 <= t2 && forall x :: x in starts ==> x.slot == SlotAt(origin, x.at)
    ensures StartsBetween(starts, t1, t2) <= SlotAt(origin, t2) - SlotAt(origin, t1) + 1
    ensures starts != [] && StartsBetween(starts, t1, t2) > 0 ==>
              StartsBetween(starts, t1, t2) <= starts[|starts| - 1].slot - SlotAt(origin, t1) + 1
    decreases |starts|
  {
    SlotAtIsMonotone(origin, t1, t2);
    if starts != [] {
      var front, x := starts[..|starts| - 1], starts[|starts| - 1];
      assert x in starts;
      WindowCount(origin, front, t1, t2);
      if t1 <= x.at { SlotAtIsMonotone(origin, t1, x.at); }
      if x.at <= t2 { SlotAtIsMonotone(origin, x.at, t2); }
      if front != [] {
        assert front[|front| - 1].slot < x.slot;
      }
    }
  }

  /** No window of time sees more requests than it has slots: missed slots are never made up for. */
  lemma StartsFitTheWindow(origin: real, events: seq<Event>, t1: real, t2: real)
    requires t1 <= t2
    ensures StartsBetween(Run(Init(origin), events).starts, t1, t2) <= SlotAt(origin, t2) - SlotAt(origin, t1) + 1
  {
    EveryRunSchedules(origin, events);
    OriginIsFixed(origin, events);
    var s := Run(Init(origin), events);
    forall x | x in s.starts ensures x.slot == SlotAt(origin, x.at) {
      assert StartOk(s, x);
    }
    WindowCount(origin, s.starts, t1, t2);
  }

  /** Starts of one output are two slots apart unless its entry was dropped (lineage changed) in between. */
  lemma StartsTwoSlotsApart(origin: real, events: seq<Event>, i: nat, j: nat)
    requires i < j < |Run(Init(origin), events).starts|
    requires Run(Init(origin), events).starts[i].id == Run(Init(origin), events).starts[j].id
    requires Run(Init(origin), events).starts[i].lineage == Run(Init(origin), events).starts[j].lineage
    ensures Run(Init(origin), events).starts[i].slot + 2 <= Run(Init(origin), events).starts[j].slot
  {
    EveryRunSchedules(origin, events);
  }

  /**
   A reconciliation to the same project keeps the lineage of every output it still lists, whatever its new
   configuration.
   */
  lemma {:induction false} LineageSurvivesReconfiguration(s: State, e: Event, id: int)
    requires Scheduling(s) && e.Reconcile? && Fits(s, e) && s.epoch == Some(e.epoch)
    requires id in s.runtime && id in Ids(e.outputs)
    ensures id in Step(s, e).runtime && Step(s, e).runtime[id].lineage == s.runtime[id].lineage
    ensures Step(s, e).runtime[id].dueSlot == s.runtime[id].dueSlot
  {
    var t := Reorder(Activate(ClearEpoch(s.(clock := e.now), e.epoch), e.available && e.wanted), Ids(e.outputs));
    SchedulingFrame(s, s.(clock := e.now));
    ReorderRetains(s.(clock := e.now), e.epoch, e.available && e.wanted, Ids(e.outputs));
    assert t.runtime[id].lineage == s.runtime[id].lineage;
    IdsCover(e.outputs);
    PlaceAllInherits(t, e.outputs, e.available, id);
  }

  lemma {:induction false} PlaceAllInherits(s: State, outputs: seq<Output>, available: bool, id: int)
    requires Scheduling(s) && (forall o :: o in outputs ==> o.id in s.order) && id in s.runtime
    ensures var t := PlaceAll(s, outputs, available);
            id in t.runtime && t.runtime[id].lineage == s.runtime[id].lineage
              && t.runtime[id].dueSlot == s.runtime[id].dueSlot
    decreases |outputs|
  {
    if outputs != [] {
      var front, o := outputs[..|outputs| - 1], outputs[|outputs| - 1];
      assert forall x :: x in front ==> x in outputs;
      PlaceAllInherits(s, front, available, id);
      PlaceAllKeeps(s, front, available);
      EntryForInherits(PlaceAll(s, front, available), o);
    }
  }

  /** A reconciliation that stays in the project and still lists output id. */
  predicate Keeps(s: State, e: Event, id: int) {
    e.Reconcile? ==> s.epoch == Some(e.epoch) && id in Ids(e.outputs)
  }

  /** The entry of id, if any, is of lineage l. */
  predicate HasLineage(s: State, id: int, l: nat) { id in s.runtime && s.runtime[id].lineage == l }

  lemma {:induction false} PlaceAllLineage(s: State, outputs: seq<Output>, available: bool, id: int, l: nat)
    requires Scheduling(s) && (forall o :: o in outputs ==> o.id in s.order) && l < s.nextLineage
    ensures HasLineage(PlaceAll(s, outputs, available), id, l) <==> HasLineage(s, id, l)
    ensures l < PlaceAll(s, outputs, available).nextLineage
    decreases |outputs|
  {
    if outputs != [] {
      var front, o := outputs[..|outputs| - 1], outputs[|outputs| - 1];
      assert forall x :: x in front ==> x in outputs;
      PlaceAllLineage(s, front, available, id, l);
      PlaceAllKeeps(s, front, available);
      EntryForInherits(PlaceAll(s, front, available), o);
    }
  }

  lemma ReorderLineage(s: State, epoch: int, active: bool, ids: seq<int>, id: int, l: nat)
    ensures HasLineage(Reorder(Activate(ClearEpoch(s, epoch), active), ids), id, l)
            <==> HasLineage(s, id, l) && s.epoch == Some(epoch) && id in ids
  {
  }

  /** A reconciliation keeps the lineage of an output if and only if it stays in the project and lists it. */
  lemma LineageKeptIffListed(s: State, e: Event, id: int)
    requires Scheduling(s) && e.Reconcile? && Fits(s, e) && id in s.runtime
    ensures HasLineage(Step(s, e), id, s.runtime[id].lineage) <==> Keeps(s, e, id)
  {
    ReconcileLineage(s, e, id, s.runtime[id].lineage);
  }

  lemma ReconcileLineage(s: State, e: Event, id: int, l: nat)
    requires Scheduling(s) && e.Reconcile? && Fits(s, e) && (l < s.nextLineage || HasLineage(s, id, l))
    ensures HasLineage(Step(s, e), id, l) <==> HasLineage(s, id, l) && Keeps(s, e, id)
    ensures l < Step(s, e).nextLineage
  {
    assert HasLineage(s, id, l) ==> EntryOk(s, s.runtime[id]);
    var u := s.(clock := e.now);
    var t := Reorder(Activate(ClearEpoch(u, e.epoch), e.available && e.wanted), Ids(e.outputs));
    SchedulingFrame(s, u);
    ReorderRetains(u, e.epoch, e.available && e.wanted, Ids(e.outputs));
    ReorderLineage(u, e.epoch, e.available && e.wanted, Ids(e.outputs), id, l);
    IdsCover(e.outputs);
    PlaceAllLineage(t, e.outputs, e.available, id, l);
  }

  lemma RunNextLineage(s: State, id: int, l: nat)
    ensures HasLineage(RunNextAt(s), id, l) <==> HasLineage(s, id, l)
    ensures RunNextAt(s).nextLineage == s.nextLineage
  {
    var t := s.(timer := None);
    if !(t.disposed || !t.active || t.inFlight) { SelectedIsEligible(t, SlotAt(t.origin, t.clock), t.clock, 0); }
  }

  lemma ReplyLineage(s: State, k: nat, p: Packet, id: int, l: nat)
    requires Scheduling(s) && k < |s.outstanding|
    ensures HasLineage(ReplyTo(s, k, p), id, l) <==> HasLineage(s, id, l)
    ensures ReplyTo(s, k, p).nextLineage == s.nextLineage
  {
    var u := s.(outstanding := s.outstanding[..k] + s.outstanding[k + 1..]);
    assert s.outstanding[k] in s.outstanding;
    assert FlightOk(s, s.outstanding[k]);
    assert FlightOk(u, s.outstanding[k]);
    AnswerRetains(u, s.outstanding[k], p);
  }

  /** Any event but the disposal keeps or loses a lineage exactly as Keeps says, and none ever returns. */
  lemma LineageStep(s: State, e: Event, id: int, l: nat)
    requires Scheduling(s) && Fits(s, e) && l < s.nextLineage
    ensures l < Step(s, e).nextLineage
    ensures HasLineage(Step(s, e), id, l) ==> HasLineage(s, id, l) && Keeps(s, e, id)
    ensures HasLineage(s, id, l) && Keeps(s, e, id) && !e.Dispose? ==> HasLineage(Step(s, e), id, l)
  {
    var t := s.(clock := e.now);
    SchedulingFrame(s, t);
    match e
    case RunNext(_) => RunNextLineage(t, id, l);
    case Reply(k, packet, _) => ReplyLineage(t, k, packet, id, l);
    case Expire(_) =>
    case Reconcile(_, _, _, _, _) => ReconcileLineage(s, e, id, l);
    case Retry(_) =>
    case Dispose(_) =>
  }

  lemma DisposedStays(s: State, e: Event)
    ensures s.disposed ==> Step(s, e).disposed
    ensures Fits(s, e) && e.Dispose? ==> Step(s, e).disposed
  {
    if Fits(s, e) && e.Reply? { ReplyKeepsDisposed(s.(clock := e.now), e.k, e.packet); }
    if Fits(s, e) && e.RunNext? { RunNextKeepsDisposed(s.(clock := e.now)); }
  }

  lemma ReplyKeepsDisposed(s: State, k: nat, p: Packet)
    requires k < |s.outstanding|
    ensures ReplyTo(s, k, p).disposed == s.disposed
  {
  }

  lemma RunNextKeepsDisposed(s: State)
    ensures RunNextAt(s).disposed == s.disposed
  {
  }

  /** Every event from i up to j that happens keeps output id. */
  ghost predicate KeptBetween(origin: real, events: seq<Event>, i: nat, j: nat, id: int)
    requires i <= j <= |events|
  {
    forall k :: i <= k < j ==> KeptAt(origin, events, k, id)
  }

  lemma RunStep(origin: real, events: seq<Event>, k: nat)
    requires k < |events|
    ensures Run(Init(origin), events[..k + 1]) == Step(Run(Init(origin), events[..k]), events[k])
  {
    assert events[..k + 1][..k] == events[..k];
  }

  /** What each step keeps true stays true. */
  lemma {:induction false} StaysTrue(bs: seq<bool>, i: nat, j: nat)
    requires i <= j < |bs| && bs[i] && forall k :: i <= k < j && bs[k] ==> bs[k + 1]
    ensures bs[j]
    decreases j
  {
    if i < j { StaysTrue(bs, i, j - 1); }
  }

  lemma {:induction false} LastsWhile(has: seq<bool>, kept: seq<bool>, i: nat, j: nat)
    requires i <= j < |has| && j <= |kept| && has[i]
    requires forall k :: i <= k < j ==> (has[k + 1] <==> has[k] && kept[k])
    ensures has[j] <==> forall k :: i <= k < j ==> kept[k]
    decreases j
  {
    if i < j { LastsWhile(has, kept, i, j - 1); }
  }

  lemma DisposedNext(origin: real, events: seq<Event>, k: nat)
    requires k < |events|
    ensures Run(Init(origin), events[..k]).disposed ==> Run(Init(origin), events[..k + 1]).disposed
  {
    RunStep(origin, events, k);
    DisposedStays(Run(Init(origin), events[..k]), events[k]);
  }

  lemma NotDisposedBefore(origin: real, events: seq<Event>, i: nat, j: nat)
    requires i <= j <= |events| && !Run(Init(origin), events[..j]).disposed
    ensures !Run(Init(origin), events[..i]).disposed
  {
    var bs := seq(|events| + 1, k requires 0 <= k <= |events| => Run(Init(origin), events[..k]).disposed);
    forall k | i <= k < j && bs[k] ensures bs[k + 1] {
      DisposedNext(origin, events, k);
    }
    if bs[i] { StaysTrue(bs, i, j); }
  }

  lemma LineageKnownNext(origin: real, events: seq<Event>, k: nat, l: nat)
    requires k < |events| && KnownAt(origin, events, k, l)
    ensures KnownAt(origin, events, k + 1, l)
  {
    RunStep(origin, events, k);
    EveryRunSchedules(origin, events[..k]);
    var s, e := Run(Init(origin), events[..k]), events[k];
    if Fits(s, e) { LineageStep(s, e, 0, l); }
  }

  predicate KnownAt(origin: real, events: seq<Event>, k: nat, l: nat)
    requires k <= |events|
  {
    l < Run(Init(origin), events[..k]).nextLineage
  }

  /** A lineage given out is never given out again. */
  lemma LineageStaysKnown(origin: real, events: seq<Event>, i: nat, j: nat, l: nat)
    requires i <= j <= |events| && KnownAt(origin, events, i, l)
    ensures KnownAt(origin, events, j, l)
  {
    var bs := seq(|events| + 1, k requires 0 <= k <= |events| => KnownAt(origin, events, k, l));
    forall k | i <= k < j && bs[k] ensures bs[k + 1] {
      LineageKnownNext(origin, events, k, l);
    }
    StaysTrue(bs, i, j);
  }

  predicate HasAt(origin: real, events: seq<Event>, k: nat, id: int, l: nat)
    requires k <= |events|
  {
    HasLineage(Run(Init(origin), events[..k]), id, l)
  }

  predicate KeptAt(origin: real, events: seq<Event>, k: nat, id: int)
    requires k < |events|
  {
    Fits(Run(Init(origin), events[..k]), events[k]) ==> Keeps(Run(Init(origin), events[..k]), events[k], id)
  }

  lemma LineageAtStep(origin: real, events: seq<Event>, k: nat, id: int, l: nat)
    requires k < |events| && l < Run(Init(origin), events[..k]).nextLineage
             && !Run(Init(origin), events[..k + 1]).disposed
    ensures HasAt(origin, events, k + 1, id, l) <==> HasAt(origin, events, k, id, l) && KeptAt(origin, events, k, id)
  {
    RunStep(origin, events, k);
    EveryRunSchedules(origin, events[..k]);
    LineageNext(Run(Init(origin), events[..k]), events[k], id, l);
  }

  /**
   From a state with lineage l of id to a later one not disposed of, l is still there if and only if all that happened
   kept id.
   */
  lemma LineageLastsIffKept(origin: real, events: seq<Event>, i: nat, j: nat, id: int, l: nat)
    requires i <= j <= |events| && HasAt(origin, events, i, id, l)
    requires !Run(Init(origin), events[..j]).disposed
    ensures HasAt(origin, events, j, id, l) <==> KeptBetween(origin, events, i, j, id)
  {
    var has := seq(|events| + 1, k requires 0 <= k <= |events| => HasAt(origin, events, k, id, l));
    var kept := seq(|events|, k requires 0 <= k < |events| => KeptAt(origin, events, k, id));
    KnownLineage(origin, events, i, id, l);
    forall k | i <= k < j ensures has[k + 1] <==> has[k] && kept[k] {
      LineageAtStepBetween(origin, events, i, k, j, id, l);
    }
    LastsWhile(has, kept, i, j);
    forall k | i <= k < j ensures kept[k] <==> KeptAt(origin, events, k, id) {
    }
  }

  lemma LineageAtStepBetween(origin: real, events: seq<Event>, i: nat, k: nat, j: nat, id: int, l: nat)
    requires i <= k < j <= |events| && l < Run(Init(origin), events[..i]).nextLineage
    requires !Run(Init(origin), events[..j]).disposed
    ensures HasAt(origin, events, k + 1, id, l) <==> HasAt(origin, events, k, id, l) && KeptAt(origin, events, k, id)
  {
    LineageStaysKnown(origin, events, i, k, l);
    NotDisposedBefore(origin, events, k + 1, j);
    LineageAtStep(origin, events, k, id, l);
  }

  lemma KnownLineage(origin: real, events: seq<Event>, i: nat, id: int, l: nat)
    requires i <= |events| && HasAt(origin, events, i, id, l)
    ensures l < Run(Init(origin), events[..i]).nextLineage
  {
    EveryRunSchedules(origin, events[..i]);
    assert EntryOk(Run(Init(origin), events[..i]), Run(Init(origin), events[..i]).runtime[id]);
  }

  lemma LineageNext(s: State, e: Event, id: int, l: nat)
    requires Scheduling(s) && l < s.nextLineage && !Step(s, e).disposed
    ensures l < Step(s, e).nextLineage
    ensures HasLineage(Step(s, e), id, l) <==> HasLineage(s, id, l) && (Fits(s, e) ==> Keeps(s, e, id))
  {
    if Fits(s, e) {
      LineageStep(s, e, id, l);
      DisposedStays(s, e);
    }
  }

  /** Event k adds exactly one start, of output id, in the slot its time falls into. */
  predicate StartsAt(origin: real, events: seq<Event>, k: nat, id: int) {
    && k < |events|
    && var s, t := Run(Init(origin), events[..k]), Run(Init(origin), events[..k + 1]);
       && |t.starts| == |s.starts| + 1 && t.starts[..|s.starts|] == s.starts
       && t.starts[|s.starts|].id == id && t.starts[|s.starts|].slot == SlotAt(origin, events[k].now)
  }

  /** A start is of the entry's lineage and leaves it due two slots later. */
  lemma StartedEntry(s: State, e: Event)
    requires Scheduling(s) && |Step(s, e).starts| == |s.starts| + 1
    ensures var t := Step(s, e);
            var x := t.starts[|s.starts|];
            && e.RunNext? && Fits(s, e) && !s.disposed && !t.disposed
            && HasLineage(s, x.id, x.lineage) && HasLineage(t, x.id, x.lineage)
            && s.runtime[x.id].dueSlot <= x.slot && x in t.starts
  {
    if !e.RunNext? { OtherStepsKeepTurns(s, e); }
    if e.RunNext? && Fits(s, e) && Waiting(s) {
      SelectedIsEligible(s.(timer := None, clock := e.now), SlotAt(s.origin, e.now), e.now, 0);
    }
  }

  predicate Extends(a: seq<Start>, b: seq<Start>) { |a| <= |b| && b[..|a|] == a }

  lemma ExtendsFurther(a: seq<Start>, b: seq<Start>, c: seq<Start>)
    requires Extends(a, b) && Extends(b, c)
    ensures Extends(a, c)
  {
    assert c[..|a|] == c[..|b|][..|a|];
  }

  lemma {:induction false} ExtendsAll(logs: seq<seq<Start>>, i: nat, j: nat)
    requires i <= j < |logs| && forall k :: i <= k < j ==> Extends(logs[k], logs[k + 1])
    ensures Extends(logs[i], logs[j])
    decreases j
  {
    if i < j {
      ExtendsAll(logs, i, j - 1);
      ExtendsFurther(logs[i], logs[j - 1], logs[j]);
    }
  }

  lemma StartsGrowNext(origin: real, events: seq<Event>, k: nat)
    requires k < |events|
    ensures Extends(Run(Init(origin), events[..k]).starts, Run(Init(origin), events[..k + 1]).starts)
  {
    RunStep(origin, events, k);
    EveryRunSchedules(origin, events[..k]);
    StepGrowsStarts(Run(Init(origin), events[..k]), events[k]);
  }

  lemma StartsOnlyGrow(origin: real, events: seq<Event>, i: nat, j: nat)
    requires i <= j <= |events|
    ensures Extends(Run(Init(origin), events[..i]).starts, Run(Init(origin), events[..j]).starts)
  {
    var logs := seq(|events| + 1, k requires 0 <= k <= |events| => Run(Init(origin), events[..k]).starts);
    forall k | i <= k < j ensures Extends(logs[k], logs[k + 1]) {
      StartsGrowNext(origin, events, k);
    }
    ExtendsAll(logs, i, j);
  }

  lemma StepGrowsStarts(s: State, e: Event)
    requires Scheduling(s)
    ensures Extends(s.starts, Step(s, e).starts)
  {
    if !e.RunNext? { OtherStepsKeepTurns(s, e); }
  }

  /**
   Two starts of one output are of one entry's lineage if and only if every reconciliation between them
   stayed in the project and listed the output; and then they are at least two slots apart.
   */
  lemma StartsApartWhileListed(origin: real, events: seq<Event>, i: nat, j: nat, id: int)
    requires i < j && StartsAt(origin, events, i, id) && StartsAt(origin, events, j, id)
    ensures KeptBetween(origin, events, i + 1, j, id)
            <==> LineageAt(origin, events, i) == LineageAt(origin, events, j)
    ensures KeptBetween(origin, events, i + 1, j, id) ==>
              SlotAt(origin, events[i].now) + 2 <= SlotAt(origin, events[j].now)
  {
    var s, t := Run(Init(origin), events[..i + 1]), Run(Init(origin), events[..j]);
    var l := LineageAt(origin, events, i);
    StartAt(origin, events, i, id);
    StartAt(origin, events, j, id);
    LineageLastsIffKept(origin, events, i + 1, j, id, l);
    if HasLineage(t, id, l) {
      StartsOnlyGrow(origin, events, i + 1, j);
      EveryRunSchedules(origin, events[..j]);
      var x := s.starts[|Run(Init(origin), events[..i]).starts|];
      assert x == t.starts[..|s.starts|][|Run(Init(origin), events[..i]).starts|];
      assert x in t.starts && GapKept(t, x);
    }
  }

  /** The lineage of the start event k makes, zero if it makes none. */
  function LineageAt(origin: real, events: seq<Event>, k: nat): nat
    requires k < |events|
  {
    var n, t := |Run(Init(origin), events[..k]).starts|, Run(Init(origin), events[..k + 1]).starts;
    if n < |t| then t[n].lineage else 0
  }

  lemma StartAt(origin: real, events: seq<Event>, k: nat, id: int)
    requires StartsAt(origin, events, k, id)
    ensures var s, t := Run(Init(origin), events[..k]), Run(Init(origin), events[..k + 1]);
            && !s.disposed && HasLineage(s, id, LineageAt(origin, events, k))
               && HasLineage(t, id, LineageAt(origin, events, k))
            && s.runtime[id].dueSlot <= SlotAt(origin, events[k].now)
  {
    RunStep(origin, events, k);
    EveryRunSchedules(origin, events[..k]);
    StartedEntry(Run(Init(origin), events[..k]), events[k]);
  }

  /**
   So starts closer than two slots need a reconciliation between them that dropped the output or changed the project.
   */
  lemma CloseStartsNeedADrop(origin: real, events: seq<Event>, i: nat, j: nat, id: int) returns (k: nat)
    requires i < j && StartsAt(origin, events, i, id) && StartsAt(origin, events, j, id)
    requires SlotAt(origin, events[j].now) < SlotAt(origin, events[i].now) + 2
    ensures i < k < j && events[k].Reconcile? && Fits(Run(Init(origin), events[..k]), events[k])
    ensures Run(Init(origin), events[..k]).epoch != Some(events[k].epoch) || id !in Ids(events[k].outputs)
  {
    StartsApartWhileListed(origin, events, i, j, id);
    k :| i < k < j && !KeptAt(origin, events, k, id);
  }

  // ---- the timer: no lost wake-up ----

  predicate Waiting(s: State) { !s.disposed && s.active && !s.inFlight }

  /** The timer stands exactly when something can become ready, never early, and at most one millisecond late. */
  predicate Armed(s: State) {
    if !Waiting(s) then s.timer.None?
    else
      var due := EarliestReady(s.origin, s.runtime, s.order);
      && (s.timer.Some? <==> due.Some?)
      && (due.Some? ==>
          var ready := Max(SlotTime(s.origin, s.nextStartSlot), due.value);
          ready <= s.timer.value <= Max(s.clock, ready + 1.0))
  }

  lemma ScheduleArms(s: State)
    ensures Armed(Schedule(s))
  {
  }

  lemma {:induction false} ReadySame(origin: real, a: map<int, Entry>, b: map<int, Entry>, order: seq<int>)
    requires a.Keys == b.Keys
    requires forall id :: id in a ==> ReadyAt(origin, a[id]) == ReadyAt(origin, b[id])
    ensures EarliestReady(origin, a, order) == EarliestReady(origin, b, order)
    decreases |order|
  {
    if order != [] { ReadySame(origin, a, b, order[..|order| - 1]); }
  }

  lemma ArmedStep(s: State, e: Event)
    requires Scheduling(s) && Armed(s)
    ensures Armed(Step(s, e))
  {
    if Fits(s, e) {
      var t := s.(clock := e.now);
      assert Armed(t);
      match e
      case RunNext(_) => RunNextArms(t);
      case Reply(k, packet, _) => ScheduleArms(Answer(t.(outstanding := t.outstanding[..k] + t.outstanding[k + 1..]),
                                                      t.outstanding[k], packet).(inFlight := false));
      case Expire(_) => ReadySame(t.origin, t.runtime, ExpireAll(t).runtime, t.order);
      case Reconcile(outputs, epoch, available, wanted, _) =>
        ScheduleArms(PlaceAll(Reorder(Activate(ClearEpoch(t, epoch), available && wanted), Ids(outputs)), outputs,
                              available));
      case Retry(_) =>
        ScheduleArms(t.(runtime := map id | id in t.runtime :: DueNow(t.runtime[id].(errors := 0))));
      case Dispose(_) =>
    }
  }

  lemma RunNextArms(s: State)
    ensures Armed(RunNextAt(s))
  {
    var t := s.(timer := None);
    if !(t.disposed || !t.active || t.inFlight) {
      var slot := SlotAt(t.origin, t.clock);
      var index := Select(t, slot, t.clock, 0);
      if index.None? {
        ScheduleArms(t);
      } else if slot < t.nextStartSlot {
        ScheduleArms(t.(cursor := (index.value + 1) % |t.order|));
      }
    }
  }

  lemma {:induction false} EveryRunArms(origin: real, events: seq<Event>)
    ensures Armed(Run(Init(origin), events))
    decreases |events|
  {
    if events != [] {
      EveryRunArms(origin, events[..|events| - 1]);
      EveryRunSchedules(origin, events[..|events| - 1]);
      ArmedStep(Run(Init(origin), events[..|events| - 1]), events[|events| - 1]);
    }
  }

  lemma {:induction false} EarliestIsOneOfThem(origin: real, runtime: map<int, Entry>, order: seq<int>) returns (k: nat)
    requires EarliestReady(origin, runtime, order).Some?
    ensures k < |order| && order[k] in runtime
            && ReadyAt(origin, runtime[order[k]]) == EarliestReady(origin, runtime, order)
    decreases |order|
  {
    var front, id := order[..|order| - 1], order[|order| - 1];
    if id in runtime && ReadyAt(origin, runtime[id]) == EarliestReady(origin, runtime, order) {
      k := |order| - 1;
    } else {
      k := EarliestIsOneOfThem(origin, runtime, front);
    }
  }

  lemma {:induction false} EarliestIsLeast(origin: real, runtime: map<int, Entry>, order: seq<int>, id: int)
    requires id in runtime && id in order && runtime[id].dueAt.Some?
    ensures EarliestReady(origin, runtime, order).Some?
    ensures EarliestReady(origin, runtime, order).value <= ReadyAt(origin, runtime[id]).value
    decreases |order|
  {
    if order[|order| - 1] != id { EarliestIsLeast(origin, runtime, order[..|order| - 1], id); }
  }

  /** The timer stands, no more than a millisecond after the moment entry `id` could be started. */
  predicate ArmedInTime(s: State, id: int)
    requires id in s.runtime && s.runtime[id].dueAt.Some?
  {
    && s.timer.Some?
    && s.timer.value <= Max(s.clock,
                            1.0 + Max(SlotTime(s.origin, s.nextStartSlot), ReadyAt(s.origin, s.runtime[id]).value))
  }

  lemma ArmedSoonEnough(s: State, id: int)
    requires KeysOk(s) && Armed(s) && Waiting(s) && id in s.runtime && s.runtime[id].dueAt.Some?
    ensures ArmedInTime(s, id)
  {
    EarliestIsLeast(s.origin, s.runtime, s.order, id);
  }

  /** While any output can ever be due, an idle active monitor has its timer armed. */
  lemma NeverLeftWithoutATimer(origin: real, events: seq<Event>, id: int)
    requires Waiting(Run(Init(origin), events))
    requires id in Run(Init(origin), events).runtime && Run(Init(origin), events).runtime[id].dueAt.Some?
    ensures ArmedInTime(Run(Init(origin), events), id)
  {
    EveryRunSchedules(origin, events);
    EveryRunArms(origin, events);
    ArmedSoonEnough(Run(Init(origin), events), id);
  }

  // ---- round robin ----

  lemma ModOnce(a: nat, b: nat, n: nat)
    requires a < n && b < n
    ensures (a + b) % n == if a + b < n then a + b else a + b - n
  {
    if a + b < n {
      SmallMod(a + b, n);
    } else {
      SmallMod(a + b - n, n);
      assert (a + b - n + n) % n == (a + b - n) % n by { AddModulus(a + b - n, n); }
    }
  }

  lemma SmallMod(a: nat, n: nat)
    requires a < n
    ensures a % n == a
  {
  }

  lemma AddModulus(a: nat, n: nat)
    requires a < n
    ensures (a + n) % n == a
  {
    assert (a + n) / n == 1;
  }

  /** How many places past the cursor position p lies. */
  function Distance(s: State, p: nat): (d: nat)
    requires p < |s.order| && s.cursor < |s.order|
    ensures d < |s.order|
  {
    if p >= s.cursor then p - s.cursor else p + |s.order| - s.cursor
  }

  /** The selected position is no further from the cursor than any eligible one. */
  lemma {:induction false} SelectsNearest(s: State, slot: int, now: real, offset: nat, p: nat)
    requires p < |s.order| && s.cursor < |s.order| && EligibleId(s, s.order[p], slot, now) && offset <= Distance(s, p)
    ensures var r := Select(s, slot, now, offset); r.Some? && offset <= Distance(s, r.value) <= Distance(s, p)
    decreases |s.order| - offset
  {
    ModOnce(s.cursor, offset, |s.order|);
    var index := (s.cursor + offset) % |s.order|;
    assert Distance(s, index) == offset;
    if !EligibleId(s, s.order[index], slot, now) {
      SelectsNearest(s, slot, now, offset + 1, p);
    }
  }

  predicate OnTime(s: State, e: Event) {
    e.RunNext? ==> s.timer.Some? && s.timer.value <= e.now
  }

  /** A timer that did not fire early finds a slot to use and an output to serve. */
  lemma OnTimeTimerFindsWork(s: State, now: real)
    requires Scheduling(s) && Armed(s) && s.timer.Some? && s.timer.value <= now && s.clock <= now
    ensures s.nextStartSlot <= SlotAt(s.origin, now)
    ensures exists p :: 0 <= p < |s.order| && EligibleId(s, s.order[p], SlotAt(s.origin, now), now)
  {
    var due := EarliestReady(s.origin, s.runtime, s.order);
    var p := EarliestIsOneOfThem(s.origin, s.runtime, s.order);
    SlotReached(s.origin, s.nextStartSlot, now);
    SlotReached(s.origin, s.runtime[s.order[p]].dueSlot, now);
    assert EligibleId(s, s.order[p], SlotAt(s.origin, now), now);
  }

  /** So each on-time firing starts exactly one request. */
  lemma OnTimeTimerStarts(origin: real, events: seq<Event>, now: real)
    requires var s := Run(Init(origin), events); s.timer.Some? && s.timer.value <= now && s.clock <= now
    ensures |Step(Run(Init(origin), events), RunNext(now)).starts| == |Run(Init(origin), events).starts| + 1
  {
    EveryRunSchedules(origin, events);
    EveryRunArms(origin, events);
    var s := Run(Init(origin), events);
    OnTimeTimerFindsWork(s, now);
    var p :| 0 <= p < |s.order| && EligibleId(s, s.order[p], SlotAt(s.origin, now), now);
    SelectsNearest(s.(timer := None, clock := now), SlotAt(s.origin, now), now, 0, p);
  }

  /** The position a firing of the timer selects, if the event is one and finds an eligible output. */
  function Selected(s: State, e: Event): (r: Option<nat>)
    ensures r.Some? ==> r.value < |s.order|
  {
    if e.RunNext? && Fits(s, e) && Waiting(s) then
      Select(s.(timer := None, clock := e.now), SlotAt(s.origin, e.now), e.now, 0)
    else None
  }

  /** What one selecting firing does to the distance of an eligible position, whether or not it starts anything. */
  lemma SelectionComesCloser(s: State, now: real, p: nat)
    requires Scheduling(s) && Armed(s) && Fits(s, RunNext(now))
    requires p < |s.order| && EligibleId(s, s.order[p], SlotAt(s.origin, now), now)
    ensures Selected(s, RunNext(now)).Some?
    ensures var t := Step(s, RunNext(now));
            && t.order == s.order && t.cursor < |t.order|
            && (s.order[Selected(s, RunNext(now)).value] == s.order[p] || Distance(t, p) < Distance(s, p))
  {
    var t := s.(timer := None, clock := now);
    SelectsNearest(t, SlotAt(s.origin, now), now, 0, p);
    var index := Selected(s, RunNext(now)).value;
    NextCursor(index, |s.order|);
    assert Step(s, RunNext(now)).cursor == (index + 1) % |s.order|;
  }

  lemma NextCursor(index: nat, n: nat)
    requires index < n
    ensures (index + 1) % n == if index + 1 == n then 0 else index + 1
  {
    if n > 1 { ModOnce(index, 1, n); }
  }

  /** From prefix `from` on, the order stays and position p is eligible at every firing; timers may be early. */
  ghost predicate EligibleThroughout(origin: real, events: seq<Event>, from: nat, order: seq<int>, p: nat)
    requires from <= |events| && p < |order|
  {
    forall k :: from <= k <= |events| ==> EligibleWhenFired(origin, events, k, order, p)
  }

  ghost predicate EligibleWhenFired(origin: real, events: seq<Event>, k: nat, order: seq<int>, p: nat)
    requires k <= |events| && p < |order|
  {
    var s := Run(Init(origin), events[..k]);
    && s.order == order
    && (k < |events| && Fits(s, events[k]) && events[k].RunNext? ==>
        EligibleId(s, order[p], SlotAt(s.origin, events[k].now), events[k].now))
  }

  /** Event k is a firing that selects output id. */
  predicate SelectsAt(origin: real, events: seq<Event>, k: nat, id: int) {
    && k < |events|
    && var s := Run(Init(origin), events[..k]);
       Selected(s, events[k]).Some? && s.order[Selected(s, events[k]).value] == id
  }

  ghost predicate SelectedSince(origin: real, events: seq<Event>, from: nat, id: int) {
    exists k: nat :: from <= k && SelectsAt(origin, events, k, id)
  }

  /** How many firings from `from` on select an output. */
  function Turns(origin: real, events: seq<Event>, from: nat): nat
    decreases |events|
  {
    if |events| <= from then 0
    else
      var front := events[..|events| - 1];
      Turns(origin, front, from) + if Selected(Run(Init(origin), front), events[|events| - 1]).Some? then 1 else 0
  }

  lemma OtherStepsKeepTurns(s: State, e: Event)
    requires Scheduling(s) && !e.RunNext?
    ensures Step(s, e).starts == s.starts && Step(s, e).nextStartSlot == s.nextStartSlot
    ensures Step(s, e).order == s.order && s.order != [] ==> Step(s, e).cursor == s.cursor
  {
    if Fits(s, e) {
      var t := s.(clock := e.now);
      match e
      case RunNext(_) =>
      case Reply(k, packet, _) => AnswerRetainsTurns(t, k, packet);
      case Expire(_) =>
      case Reconcile(outputs, epoch, available, wanted, _) =>
        ReconcileRetainsTurns(t, outputs, epoch, available, wanted);
      case Retry(_) =>
      case Dispose(_) =>
    }
  }

  lemma ReconcileRetainsTurns(s: State, outputs: seq<Output>, epoch: int, available: bool, wanted: bool)
    requires KeysOk(s)
    ensures var t := ReconcileWith(s, outputs, epoch, available, wanted);
            && t.starts == s.starts && t.nextStartSlot == s.nextStartSlot
            && (t.order == s.order && s.order != [] ==> t.cursor == s.cursor)
  {
    PlaceAllFrame(Reorder(Activate(ClearEpoch(s, epoch), available && wanted), Ids(outputs)), outputs, available);
  }

  lemma AnswerRetainsTurns(s: State, k: nat, p: Packet)
    requires k < |s.outstanding|
    ensures var t := ReplyTo(s, k, p);
            t.starts == s.starts && t.order == s.order && t.cursor == s.cursor && t.nextStartSlot == s.nextStartSlot
  {
  }

  /** Since `from`, output order[p] was selected, or each turn brought it a place closer. */
  ghost predicate TurnKept(origin: real, events: seq<Event>, from: nat, order: seq<int>, p: nat)
    requires from <= |events| && p < |order|
  {
    var s, t := Run(Init(origin), events[..from]), Run(Init(origin), events);
    && s.order == order == t.order && s.cursor < |order| && t.cursor < |order|
    && (SelectedSince(origin, events, from, order[p]) || Turns(origin, events, from) + Distance(t, p) <= Distance(s, p))
  }

  lemma {:induction false} EligibleTurn(origin: real, events: seq<Event>, from: nat, order: seq<int>, p: nat)
    requires from <= |events| && p < |order| && EligibleThroughout(origin, events, from, order, p)
    ensures TurnKept(origin, events, from, order, p)
    decreases |events|
  {
    if from < |events| {
      EligibleBefore(origin, events, from, order, p);
      EligibleTurn(origin, events[..|events| - 1], from, order, p);
      NextTurn(origin, events, from, order, p);
    } else {
      assert events[..from] == events;
      assert EligibleWhenFired(origin, events, from, order, p);
      EveryRunSchedules(origin, events);
    }
  }

  lemma EligibleBefore(origin: real, events: seq<Event>, from: nat, order: seq<int>, p: nat)
    requires from < |events| && p < |order| && EligibleThroughout(origin, events, from, order, p)
    ensures EligibleThroughout(origin, events[..|events| - 1], from, order, p)
  {
    var front := events[..|events| - 1];
    forall k | from <= k <= |front| ensures EligibleWhenFired(origin, front, k, order, p) {
      assert EligibleWhenFired(origin, events, k, order, p);
      assert front[..k] == events[..k];
    }
  }

  /** A firing with position p eligible, or another event that keeps the order. */
  predicate TurnsInOrder(s: State, e: Event, p: nat)
    requires p < |s.order|
  {
    && Step(s, e).order == s.order
    && (Fits(s, e) && e.RunNext? ==> EligibleId(s, s.order[p], SlotAt(s.origin, e.now), e.now))
  }

  lemma LastEligible(origin: real, events: seq<Event>, from: nat, order: seq<int>, p: nat)
    requires from < |events| && p < |order| && EligibleThroughout(origin, events, from, order, p)
    ensures var front := events[..|events| - 1];
            && Run(Init(origin), front).order == order
            && TurnsInOrder(Run(Init(origin), front), events[|events| - 1], p)
            && Run(Init(origin), events) == Step(Run(Init(origin), front), events[|events| - 1])
  {
    assert EligibleWhenFired(origin, events, |events| - 1, order, p)
           && EligibleWhenFired(origin, events, |events|, order, p);
    assert events[..|events|] == events;
  }

  /** One more event selects the position, brings it closer by its one turn, or is no turn at all. */
  lemma TurnStep(s: State, e: Event, p: nat)
    requires Scheduling(s) && Armed(s) && p < |s.order| && s.cursor < |s.order| && TurnsInOrder(s, e, p)
    ensures var t, turn := Step(s, e), Selected(s, e);
            && t.cursor < |t.order|
            && (turn.None? ==> Distance(t, p) == Distance(s, p))
            && (turn.Some? ==> s.order[turn.value] == s.order[p] || Distance(t, p) < Distance(s, p))
  {
    if e.RunNext? {
      if Fits(s, e) { SelectionComesCloser(s, e.now, p); }
    } else {
      OtherStepsKeepTurns(s, e);
    }
  }

  lemma NextTurn(origin: real, events: seq<Event>, from: nat, order: seq<int>, p: nat)
    requires from < |events| && p < |order| && EligibleThroughout(origin, events, from, order, p)
    requires TurnKept(origin, events[..|events| - 1], from, order, p)
    ensures TurnKept(origin, events, from, order, p)
  {
    var front := events[..|events| - 1];
    assert front[..from] == events[..from];
    LastEligible(origin, events, from, order, p);
    EveryRunSchedules(origin, front);
    EveryRunArms(origin, front);
    TurnStep(Run(Init(origin), front), events[|events| - 1], p);
    SelectedStill(origin, events, from, order[p]);
  }

  lemma SelectedStill(origin: real, events: seq<Event>, from: nat, id: int)
    requires from < |events|
    ensures var front := events[..|events| - 1];
            && (SelectedSince(origin, front, from, id) ==> SelectedSince(origin, events, from, id))
            && (SelectsAt(origin, events, |front|, id) ==> SelectedSince(origin, events, from, id))
  {
    var front := events[..|events| - 1];
    if SelectedSince(origin, front, from, id) {
      var k: nat :| from <= k && SelectsAt(origin, front, k, id);
      assert front[..k] == events[..k];
      assert SelectsAt(origin, events, k, id);
    }
  }

  /** Whatever the timer does, an output eligible at every firing is selected within |order| selecting firings. */
  lemma SelectedWithinOneRound(origin: real, events: seq<Event>, from: nat, order: seq<int>, p: nat)
    requires from <= |events| && p < |order| && EligibleThroughout(origin, events, from, order, p)
    requires Turns(origin, events, from) >= |order|
    ensures SelectedSince(origin, events, from, order[p])
  {
    EligibleTurn(origin, events, from, order, p);
  }

  // ---- when a selection starts a request ----

  /** The slots used so far end just below the next one to use. */
  predicate NextSlotOk(s: State) {
    s.nextStartSlot == if s.starts == [] then 0 else s.starts[|s.starts| - 1].slot + 1
  }

  lemma NextSlotStep(s: State, e: Event)
    requires Scheduling(s) && NextSlotOk(s)
    ensures NextSlotOk(Step(s, e))
  {
    if !e.RunNext? { OtherStepsKeepTurns(s, e); }
  }

  lemma {:induction false} EveryRunUsesSlots(origin: real, events: seq<Event>)
    ensures NextSlotOk(Run(Init(origin), events))
    decreases |events|
  {
    if events != [] {
      EveryRunUsesSlots(origin, events[..|events| - 1]);
      EveryRunSchedules(origin, events[..|events| - 1]);
      NextSlotStep(Run(Init(origin), events[..|events| - 1]), events[|events| - 1]);
    }
  }

  /** No request was started in the slot a time falls into. */
  predicate SlotUnused(s: State, now: real) {
    forall x :: x in s.starts ==> x.slot != SlotAt(s.origin, now)
  }

  lemma SlotUnusedIff(s: State, now: real)
    requires StartsOk(s) && NextSlotOk(s) && s.clock <= now
    ensures SlotUnused(s, now) <==> s.nextStartSlot <= SlotAt(s.origin, now)
  {
    forall x | x in s.starts ensures x.slot <= SlotAt(s.origin, now) && x.slot < s.nextStartSlot {
      assert StartOk(s, x);
      SlotAtIsMonotone(s.origin, x.at, now);
    }
    if s.starts != [] {
      var last := s.starts[|s.starts| - 1];
      assert last in s.starts;
    }
  }

  lemma SelectionStarts(s: State, e: Event)
    requires StartsOk(s) && NextSlotOk(s) && Selected(s, e).Some?
    ensures var t, id, slot := Step(s, e), s.order[Selected(s, e).value], SlotAt(s.origin, e.now);
            if SlotUnused(s, e.now) then
              id in s.runtime && t.starts == s.starts + [Start(slot, e.now, id, s.runtime[id].lineage)]
            else t.starts == s.starts
  {
    SlotUnusedIff(s, e.now);
    SelectedIsEligible(s.(timer := None, clock := e.now), SlotAt(s.origin, e.now), e.now, 0);
  }

  /**
   In any run, a selection starts its output if and only if no request was started in its slot; otherwise nothing
   starts.
   */
  lemma SelectionStartsIffSlotUnused(origin: real, events: seq<Event>, k: nat, id: int)
    requires SelectsAt(origin, events, k, id)
    ensures StartsAt(origin, events, k, id) <==> SlotUnused(Run(Init(origin), events[..k]), events[k].now)
    ensures !SlotUnused(Run(Init(origin), events[..k]), events[k].now) ==>
              Run(Init(origin), events[..k + 1]).starts == Run(Init(origin), events[..k]).starts
  {
    EveryRunSchedules(origin, events[..k]);
    EveryRunUsesSlots(origin, events[..k]);
    OriginIsFixed(origin, events[..k]);
    assert events[..k + 1][..k] == events[..k];
    SelectionStarts(Run(Init(origin), events[..k]), events[k]);
  }

  /** A firing that is not early always finds its slot unused. */
  lemma OnTimeFindsSlotUnused(origin: real, events: seq<Event>, e: Event)
    requires e.RunNext? && Fits(Run(Init(origin), events), e) && OnTime(Run(Init(origin), events), e)
    ensures SlotUnused(Run(Init(origin), events), e.now)
  {
    EveryRunSchedules(origin, events);
    EveryRunArms(origin, events);
    EveryRunUsesSlots(origin, events);
    OnTimeTimerFindsWork(Run(Init(origin), events), e.now);
    SlotUnusedIff(Run(Init(origin), events), e.now);
  }

  /**
   Within |order| selecting firings an output eligible at every firing is selected, and that firing starts
   it if and only if its slot is still unused, which every firing that is not early finds it.
   */
  lemma ServedWithinOneRound(origin: real, events: seq<Event>, from: nat, order: seq<int>, p: nat) returns (k: nat)
    requires from <= |events| && p < |order| && EligibleThroughout(origin, events, from, order, p)
    requires Turns(origin, events, from) >= |order|
    ensures from <= k && SelectsAt(origin, events, k, order[p])
    ensures StartsAt(origin, events, k, order[p]) <==> SlotUnused(Run(Init(origin), events[..k]), events[k].now)
    ensures OnTime(Run(Init(origin), events[..k]), events[k]) ==> StartsAt(origin, events, k, order[p])
  {
    SelectedWithinOneRound(origin, events, from, order, p);
    k :| from <= k && SelectsAt(origin, events, k, order[p]);
    SelectionStartsIffSlotUnused(origin, events, k, order[p]);
    if OnTime(Run(Init(origin), events[..k]), events[k]) { OnTimeFindsSlotUnused(origin, events[..k], events[k]); }
  }

  // ---- what is shown ----

  /** A picture was requested by the present entry, in the present generation, at the present size. */
  predicate PictureOk(s: State, e: Entry) {
    e.frame.Some? ==>
      && s.active && e.dueAt.Some? && e.frame.value.handle == e.handle && e.frame.value.generation == s.generation
      && e.frame.value.width == e.width && e.frame.value.height == e.height
  }

  predicate Shows(m: Monitor, e: Entry) {
    m.frame == e.frame && (m.status == Failed ==> m.frame.None?)
  }

  predicate DisplayOk(s: State) {
    && s.states.Keys == s.runtime.Keys
    && forall id :: id in s.runtime ==> PictureOk(s, s.runtime[id]) && Shows(s.states[id], s.runtime[id])
  }

  lemma FailShows(s: State, id: int)
    requires DisplayOk(s) && id in s.runtime
    ensures DisplayOk(Fail(s, id))
  {
    var t := Fail(s, id);
    forall i | i in t.runtime ensures PictureOk(t, t.runtime[i]) && Shows(t.states[i], t.runtime[i]) {
      assert PictureOk(s, s.runtime[i]) && Shows(s.states[i], s.runtime[i]);
    }
  }

  lemma BusyShows(s: State, id: int)
    requires DisplayOk(s) && id in s.runtime
    ensures DisplayOk(Busy(s, id))
  {
    var t := Busy(s, id);
    forall i | i in t.runtime ensures PictureOk(t, t.runtime[i]) && Shows(t.states[i], t.runtime[i]) {
      assert PictureOk(s, s.runtime[i]) && Shows(s.states[i], s.runtime[i]);
    }
  }

  lemma ShowShows(s: State, f: Flight, p: Packet)
    requires DisplayOk(s) && FlightOk(s, f) && Current(s, f) && p.Packet?
    requires p.width == s.runtime[f.id].width && p.height == s.runtime[f.id].height
    ensures DisplayOk(Show(s, f, p))
  {
    var t := Show(s, f, p);
    forall i | i in t.runtime ensures PictureOk(t, t.runtime[i]) && Shows(t.states[i], t.runtime[i]) {
      assert PictureOk(s, s.runtime[i]) && Shows(s.states[i], s.runtime[i]);
    }
  }

  lemma AnswerShows(s: State, f: Flight, p: Packet)
    requires DisplayOk(s) && FlightOk(s, f)
    ensures DisplayOk(Answer(s, f, p))
  {
    if Current(s, f) {
      FailShows(s, f.id);
      BusyShows(s, f.id);
      if p.Packet? && p.width == s.runtime[f.id].width && p.height == s.runtime[f.id].height { ShowShows(s, f, p); }
    }
  }

  /** While the outputs are placed: each picture still kept is the one shown before. */
  predicate Backed(s: State, previous: map<int, Monitor>) {
    && (forall id :: id in s.runtime ==> BackedEntry(s, id, previous))
    && (forall id :: id in previous ==> (previous[id].status == Failed ==> previous[id].frame.None?))
  }

  predicate BackedEntry(s: State, id: int, previous: map<int, Monitor>)
    requires id in s.runtime
  {
    var e := s.runtime[id];
    PictureOk(s, e) && (e.frame.Some? ==> id in previous && previous[id].frame == e.frame)
  }

  predicate PlacedShow(s: State) {
    forall id :: id in s.states ==> id in s.runtime && Shows(s.states[id], s.runtime[id])
  }

  lemma ReorderBacks(s: State, epoch: int, active: bool, ids: seq<int>)
    requires DisplayOk(s)
    ensures Backed(Reorder(Activate(ClearEpoch(s, epoch), active), ids), s.states)
  {
    var t := Reorder(Activate(ClearEpoch(s, epoch), active), ids);
    forall id | id in t.runtime ensures BackedEntry(t, id, s.states) {
      assert PictureOk(s, s.runtime[id]) && Shows(s.states[id], s.runtime[id]);
    }
    forall id | id in s.states && s.states[id].status == Failed ensures s.states[id].frame.None? {
      assert Shows(s.states[id], s.runtime[id]);
    }
  }

  lemma PlaceShows(s: State, o: Output, previous: map<int, Monitor>, available: bool)
    requires Backed(s, previous) && PlacedShow(s) && EntriesOk(s)
    ensures Backed(Place(s, o, previous, available), previous) && PlacedShow(Place(s, o, previous, available))
  {
    var t := Place(s, o, previous, available);
    if o.id in s.runtime { assert BackedEntry(s, o.id, previous) && EntryOk(s, s.runtime[o.id]); }
    EntryForInherits(s, o);
    assert PlacedEntryShows(s, o, previous, available);
    forall id | id in t.runtime ensures BackedEntry(t, id, previous) {
      assert id != o.id ==> BackedEntry(s, id, previous);
    }
    forall id | id in t.states ensures id in t.runtime && Shows(t.states[id], t.runtime[id]) {
      assert id != o.id ==> id in s.states && Shows(s.states[id], s.runtime[id]);
    }
  }

  predicate PlacedEntryShows(s: State, o: Output, previous: map<int, Monitor>, available: bool) {
    var t := Place(s, o, previous, available);
    o.id in t.runtime && o.id in t.states && Shows(t.states[o.id], t.runtime[o.id])
  }

  lemma {:induction false} PlaceAllShows(s: State, outputs: seq<Output>, available: bool)
    requires Scheduling(s) && Backed(s, s.states) && forall o :: o in outputs ==> o.id in s.order
    ensures var t := PlaceAll(s, outputs, available);
            Backed(t, s.states) && PlacedShow(t)
    decreases |outputs|
  {
    if outputs == [] {
      NothingPlacedYet(s);
    } else {
      var front, o := outputs[..|outputs| - 1], outputs[|outputs| - 1];
      assert forall x :: x in front ==> x in outputs;
      PlaceAllShows(s, front, available);
      PlaceAllKeeps(s, front, available);
      PlaceShows(PlaceAll(s, front, available), o, s.states, available);
    }
  }

  lemma {:induction false} PlaceAllCovers(s: State, outputs: seq<Output>, available: bool)
    ensures forall o :: o in outputs ==> o.id in PlaceAll(s, outputs, available).states
    decreases |outputs|
  {
    if outputs != [] {
      PlaceAllCovers(s, outputs[..|outputs| - 1], available);
      assert forall o :: o in outputs ==> o in outputs[..|outputs| - 1] || o == outputs[|outputs| - 1];
    }
  }

  lemma NothingPlacedYet(s: State)
    requires Backed(s, s.states)
    ensures Backed(s.(states := map[]), s.states) && PlacedShow(s.(states := map[]))
  {
    forall id | id in s.runtime ensures BackedEntry(s.(states := map[]), id, s.states) {
      assert BackedEntry(s, id, s.states);
    }
  }

  lemma ReconcileShows(s: State, outputs: seq<Output>, epoch: int, available: bool, wanted: bool)
    requires Scheduling(s) && DisplayOk(s)
    ensures DisplayOk(ReconcileWith(s, outputs, epoch, available, wanted))
  {
    var t := Reorder(Activate(ClearEpoch(s, epoch), available && wanted), Ids(outputs));
    ReorderRetains(s, epoch, available && wanted, Ids(outputs));
    ReorderBacks(s, epoch, available && wanted, Ids(outputs));
    IdsCover(outputs);
    PlaceAllKeeps(t, outputs, available);
    PlaceAllShows(t, outputs, available);
    PlaceAllCovers(t, outputs, available);
    var u := PlaceAll(t, outputs, available);
    assert forall id :: id in t.order ==> id in u.states by {
      forall id | id in t.order ensures id in u.states {
        var i :| 0 <= i < |outputs| && Ids(outputs)[i] == id;
        assert outputs[i] in outputs;
      }
    }
    AllPlacedShows(u, s.states);
    DisplayFrame(u, Schedule(u));
  }

  lemma AllPlacedShows(s: State, previous: map<int, Monitor>)
    requires Backed(s, previous) && PlacedShow(s) && KeysOk(s) && forall id :: id in s.order ==> id in s.states
    ensures DisplayOk(s)
  {
    assert s.states.Keys == s.runtime.Keys by {
      assert forall id :: id in s.runtime ==> id in s.states;
      assert forall id :: id in s.states ==> id in s.runtime;
    }
    forall id | id in s.runtime ensures PictureOk(s, s.runtime[id]) && Shows(s.states[id], s.runtime[id]) {
      assert BackedEntry(s, id, previous);
    }
  }

  lemma RunNextShows(s: State)
    requires DisplayOk(s)
    ensures DisplayOk(RunNextAt(s))
  {
    DisplayFrame(s, RunNextAt(s)) by {
      RunNextSameShow(s);
    }
  }

  lemma RunNextSameShow(s: State)
    requires s.states.Keys == s.runtime.Keys
    ensures var t := RunNextAt(s);
            && t.active == s.active && t.generation == s.generation && t.runtime.Keys == s.runtime.Keys
               && t.states == s.states
            && forall id :: id in t.runtime ==> SameShow(s.runtime[id], s.states[id], t.runtime[id], t.states[id])
  {
    var t := s.(timer := None);
    if !(t.disposed || !t.active || t.inFlight) {
      SelectedIsEligible(t, SlotAt(t.origin, t.clock), t.clock, 0);
    }
  }

  /** The same display with other scheduling details. */
  lemma DisplayFrame(s: State, t: State)
    requires DisplayOk(s) && t.states.Keys == t.runtime.Keys
    requires t.active == s.active && t.generation == s.generation && t.runtime.Keys <= s.runtime.Keys
    requires forall id :: id in t.runtime ==> SameShow(s.runtime[id], s.states[id], t.runtime[id], t.states[id])
    ensures DisplayOk(t)
  {
    forall id | id in t.runtime ensures PictureOk(t, t.runtime[id]) && Shows(t.states[id], t.runtime[id]) {
      assert SameShow(s.runtime[id], s.states[id], t.runtime[id], t.states[id]);
      assert PictureOk(s, s.runtime[id]) && Shows(s.states[id], s.runtime[id]);
    }
  }

  predicate SameShow(d: Entry, m: Monitor, e: Entry, n: Monitor) {
    && e.handle == d.handle && e.width == d.width && e.height == d.height && (d.dueAt.Some? <==> e.dueAt.Some?)
    && ((e.frame == d.frame && n == m) || (e.frame.None? && n.frame.None?))
  }

  lemma DisplayStep(s: State, e: Event)
    requires Scheduling(s) && DisplayOk(s)
    ensures DisplayOk(Step(s, e))
  {
    if Fits(s, e) {
      var t := s.(clock := e.now);
      DisplayFrame(s, t);
      SchedulingFrame(s, t);
      match e
      case RunNext(_) => RunNextShows(t);
      case Reply(k, packet, _) => ReplyShows(t, k, packet);
      case Expire(_) => DisplayFrame(t, ExpireAll(t));
      case Reconcile(outputs, epoch, available, wanted, _) => ReconcileShows(t, outputs, epoch, available, wanted);
      case Retry(_) => DisplayFrame(t, RetryAll(t));
      case Dispose(_) =>
    }
  }

  lemma ReplyShows(s: State, k: nat, p: Packet)
    requires Scheduling(s) && DisplayOk(s) && k < |s.outstanding|
    ensures DisplayOk(ReplyTo(s, k, p))
  {
    var u := s.(outstanding := s.outstanding[..k] + s.outstanding[k + 1..]);
    assert s.outstanding[k] in s.outstanding;
    assert FlightOk(s, s.outstanding[k]);
    DisplayFrame(s, u);
    AnswerShows(u, s.outstanding[k], p);
    var t := Answer(u, s.outstanding[k], p);
    DisplayFrame(t, Schedule(t.(inFlight := false)));
  }

  /**
   Whatever is shown for an output was read back for its present configuration, size, activation and
   project; a monitor in error shows nothing.
   */
  lemma {:induction false} ShownPictureIsCurrent(origin: real, events: seq<Event>)
    ensures DisplayOk(Run(Init(origin), events))
    decreases |events|
  {
    if events != [] {
      ShownPictureIsCurrent(origin, events[..|events| - 1]);
      EveryRunSchedules(origin, events[..|events| - 1]);
      DisplayStep(Run(Init(origin), events[..|events| - 1]), events[|events| - 1]);
    }
  }

  /** A reply to a retired request only ends it: no entry and no monitor changes. */
  lemma RetiredReplyChangesNothing(s: State, k: nat, p: Packet)
    requires k < |s.outstanding| && !Current(s, s.outstanding[k])
    ensures ReplyTo(s, k, p).runtime == s.runtime && ReplyTo(s, k, p).states == s.states
    ensures !ReplyTo(s, k, p).inFlight
  {
  }

  lemma BackoffBounds(errors: nat)
    requires errors > 0
    ensures 250.0 <= Backoff(errors) <= 4000.0
    ensures Backoff(1) == 250.0
    ensures Backoff(errors + 1) == Min(4000.0, 2.0 * Backoff(errors))
  {
  }

  /**
   A failed output shows nothing and waits: a quarter of a second at least, four seconds at most, twice as long each
   time.
   */
  lemma FailureWaits(s: State, id: int, now: real)
    requires id in s.runtime && id in s.states
    ensures var t := Fail(s, id);
            && t.runtime[id].frame.None? && t.states[id].frame.None? && t.states[id].status == Failed
            && t.runtime[id].errors == s.runtime[id].errors + 1
            && (now < s.clock + 250.0 ==> forall slot :: !Eligible(t.runtime[id], slot, now))
            && (now >= s.clock + 4000.0 ==>
                forall slot :: slot >= s.runtime[id].dueSlot ==> Eligible(t.runtime[id], slot, now))
  {
    BackoffBounds(s.runtime[id].errors + 1);
  }

  // ---- how long a failure holds an output back ----

  /**
   The events that make a waiting output due at once: a retry, or a reconciliation that drops, reconfigures or
   (de)activates it.
   */
  predicate Hastens(s: State, e: Event, id: int)
    requires id in s.runtime
  {
    || e.Retry?
    || (e.Reconcile? && (!Keeps(s, e, id) || s.active != (e.available && e.wanted) || Reconfigures(s, e.outputs, id)))
  }

  predicate Reconfigures(s: State, outputs: seq<Output>, id: int)
    requires id in s.runtime
  {
    exists o :: o in outputs && o.id == id && o != s.runtime[id].key
  }

  /** Not due before t, with no request of its own outstanding; or t has passed. */
  predicate HeldUntil(s: State, id: int, t: real) {
    || s.disposed || t <= s.clock
    || (id in s.runtime && s.runtime[id].dueAt.Some? && t <= s.runtime[id].dueAt.value
        && NoRequest(s, id))
  }

  predicate NoRequest(s: State, id: int) { forall f :: f in s.outstanding ==> f.id != id }

  lemma {:induction false} PlaceAllSameEntry(s: State, outputs: seq<Output>, available: bool, id: int)
    requires id in s.runtime && !Reconfigures(s, outputs, id)
    ensures var t := PlaceAll(s, outputs, available); id in t.runtime && t.runtime[id] == s.runtime[id]
    decreases |outputs|
  {
    if outputs != [] {
      var front, o := outputs[..|outputs| - 1], outputs[|outputs| - 1];
      assert o in outputs && forall x :: x in front ==> x in outputs;
      PlaceAllSameEntry(s, front, available, id);
    }
  }

  lemma ReconcileHolds(s: State, e: Event, id: int)
    requires e.Reconcile? && Fits(s, e) && id in s.runtime && !Hastens(s, e, id)
    ensures var t := Step(s, e);
            id in t.runtime && t.runtime[id] == s.runtime[id] && t.outstanding == s.outstanding && t.clock == e.now
  {
    var u := s.(clock := e.now);
    var r := Reorder(Activate(ClearEpoch(u, e.epoch), e.available && e.wanted), Ids(e.outputs));
    assert r.runtime[id] == s.runtime[id];
    PlaceAllSameEntry(r, e.outputs, e.available, id);
    PlaceAllFrame(r, e.outputs, e.available);
  }

  lemma RunNextHolds(s: State, id: int, t: real)
    requires Scheduling(s) && HeldUntil(s, id, t)
    ensures HeldUntil(RunNextAt(s), id, t)
  {
    var u := s.(timer := None);
    if !(u.disposed || !u.active || u.inFlight) {
      SelectedIsEligible(u, SlotAt(u.origin, u.clock), u.clock, 0);
    }
  }

  lemma ReplyHolds(s: State, k: nat, p: Packet, id: int, t: real)
    requires Scheduling(s) && HeldUntil(s, id, t) && k < |s.outstanding|
    ensures HeldUntil(ReplyTo(s, k, p), id, t)
  {
    assert s.outstanding[k] in s.outstanding;
    if s.disposed || t <= s.clock {
      ReplyKeepsDisposed(s, k, p);
      ReplyKeepsClock(s, k, p);
    } else {
      AnswerKeepsOthers(s.(outstanding := s.outstanding[..k] + s.outstanding[k + 1..]), s.outstanding[k], p, id);
    }
  }

  lemma AnswerKeepsOthers(s: State, f: Flight, p: Packet, id: int)
    requires id in s.runtime && f.id != id
    ensures var t := Answer(s, f, p); id in t.runtime && t.runtime[id] == s.runtime[id]
    ensures Answer(s, f, p).disposed == s.disposed && Answer(s, f, p).clock == s.clock
  {
  }

  lemma HeldStep(s: State, e: Event, id: int, t: real)
    requires Scheduling(s) && HeldUntil(s, id, t) && (Fits(s, e) && id in s.runtime ==> !Hastens(s, e, id))
    ensures HeldUntil(Step(s, e), id, t)
  {
    DisposedStays(s, e);
    if Fits(s, e) && !s.disposed && e.now < t {
      var u := s.(clock := e.now);
      SchedulingFrame(s, u);
      match e
      case RunNext(_) => RunNextHolds(u, id, t);
      case Reply(k, packet, _) => ReplyHolds(u, k, packet, id, t);
      case Expire(_) =>
      case Reconcile(_, _, _, _, _) => ReconcileHolds(s, e, id);
      case Retry(_) =>
      case Dispose(_) =>
    } else {
      StepTellsTime(s, e);
    }
  }

  lemma StepTellsTime(s: State, e: Event)
    ensures Step(s, e).clock == if Fits(s, e) then e.now else s.clock
  {
    if Fits(s, e) && e.Reconcile? {
      PlaceAllFrame(Reorder(Activate(ClearEpoch(s.(clock := e.now), e.epoch), e.available && e.wanted), Ids(e.outputs)),
                    e.outputs, e.available);
    }
    if Fits(s, e) && e.Reply? { ReplyKeepsClock(s.(clock := e.now), e.k, e.packet); }
    if Fits(s, e) && e.RunNext? { RunNextKeepsClock(s.(clock := e.now)); }
  }

  lemma ReplyKeepsClock(s: State, k: nat, p: Packet)
    requires k < |s.outstanding|
    ensures ReplyTo(s, k, p).clock == s.clock
  {
  }

  lemma RunNextKeepsClock(s: State)
    ensures RunNextAt(s).clock == s.clock
  {
  }

  /** Event i is a reply that counts another failure of output id. */
  predicate FailsAt(origin: real, events: seq<Event>, i: nat, id: int) {
    && i < |events| && events[i].Reply?
    && var s, t := Run(Init(origin), events[..i]), Run(Init(origin), events[..i + 1]);
       id in s.runtime && id in t.runtime && t.runtime[id].errors == s.runtime[id].errors + 1
  }

  /** When the failure event i of output id lets it be tried again. */
  function TriedAgainAt(origin: real, events: seq<Event>, i: nat, id: int): real
    requires FailsAt(origin, events, i, id)
  {
    events[i].now + Backoff(Run(Init(origin), events[..i + 1]).runtime[id].errors)
  }

  lemma FailureHolds(s: State, e: Event, id: int)
    requires Scheduling(s) && e.Reply? && id in s.runtime && id in Step(s, e).runtime
    requires Step(s, e).runtime[id].errors == s.runtime[id].errors + 1
    ensures var t := Step(s, e);
            && Fits(s, e) && !t.disposed
            && HeldUntil(t, id, e.now + Backoff(t.runtime[id].errors))
  {
    assert Fits(s, e);
    var u := s.(clock := e.now);
    var f := u.outstanding[e.k];
    var w := u.(outstanding := u.outstanding[..e.k] + u.outstanding[e.k + 1..]);
    assert w.outstanding == [];
    AnswerCountsFailure(w, f, e.packet, id);
  }

  lemma AnswerCountsFailure(s: State, f: Flight, p: Packet, id: int)
    requires id in s.runtime && id in Answer(s, f, p).runtime
    requires Answer(s, f, p).runtime[id].errors == s.runtime[id].errors + 1
    ensures !s.disposed && f.id == id && Answer(s, f, p) == Fail(s, id)
  {
  }

  /** Every event from i up to j that happens leaves output id waiting, as long as it is there. */
  ghost predicate NotHastened(origin: real, events: seq<Event>, i: nat, j: nat, id: int)
    requires i <= j <= |events|
  {
    forall k :: i <= k < j ==> !HastensAt(origin, events, k, id)
  }

  predicate HastensAt(origin: real, events: seq<Event>, k: nat, id: int)
    requires k < |events|
  {
    var s := Run(Init(origin), events[..k]);
    id in s.runtime && Fits(s, events[k]) && Hastens(s, events[k], id)
  }

  predicate HeldAt(origin: real, events: seq<Event>, k: nat, id: int, t: real)
    requires k <= |events|
  {
    HeldUntil(Run(Init(origin), events[..k]), id, t)
  }

  lemma HeldNext(origin: real, events: seq<Event>, k: nat, id: int, t: real)
    requires k < |events| && HeldAt(origin, events, k, id, t) && !HastensAt(origin, events, k, id)
    ensures HeldAt(origin, events, k + 1, id, t)
  {
    EveryRunSchedules(origin, events[..k]);
    RunStep(origin, events, k);
    HeldStep(Run(Init(origin), events[..k]), events[k], id, t);
  }

  lemma HeldWhile(origin: real, events: seq<Event>, i: nat, j: nat, id: int, t: real)
    requires i <= j <= |events| && HeldAt(origin, events, i, id, t) && NotHastened(origin, events, i, j, id)
    ensures HeldAt(origin, events, j, id, t)
  {
    var bs := seq(|events| + 1, k requires 0 <= k <= |events| => HeldAt(origin, events, k, id, t));
    forall k | i <= k < j && bs[k] ensures bs[k + 1] {
      assert !HastensAt(origin, events, k, id);
      HeldNext(origin, events, k, id, t);
    }
    StaysTrue(bs, i, j);
  }

  /**
   After a failure an output is not started again before its back-off has passed, unless an event in
   between hastened it.
   */
  lemma FailureWaitsUnlessHastened(origin: real, events: seq<Event>, i: nat, j: nat, id: int)
    requires i < j && FailsAt(origin, events, i, id) && StartsAt(origin, events, j, id)
    requires events[j].now < TriedAgainAt(origin, events, i, id)
    ensures !NotHastened(origin, events, i + 1, j, id)
  {
    var s := Run(Init(origin), events[..j]);
    var t := TriedAgainAt(origin, events, i, id);
    EveryRunSchedules(origin, events[..i]);
    RunStep(origin, events, i);
    FailureHolds(Run(Init(origin), events[..i]), events[i], id);
    if NotHastened(origin, events, i + 1, j, id) {
      HeldWhile(origin, events, i + 1, j, id, t);
      EveryRunSchedules(origin, events[..j]);
      RunStep(origin, events, j);
      StartedWhenDue(s, events[j], id);
    }
  }

  lemma StartedWhenDue(s: State, e: Event, id: int)
    requires Scheduling(s) && |Step(s, e).starts| == |s.starts| + 1 && Step(s, e).starts[|s.starts|].id == id
    ensures !s.disposed && s.clock <= e.now && id in s.runtime
    ensures s.runtime[id].dueAt.Some? && s.runtime[id].dueAt.value <= e.now
  {
    StartedEntry(s, e);
    SelectedIsEligible(s.(timer := None, clock := e.now), SlotAt(s.origin, e.now), e.now, 0);
  }

  /** Due at once, not due at all (no usable size), or gone. */
  predicate NoLongerHeld(s: State, id: int) {
    id in s.runtime ==> s.runtime[id].dueAt.None? || s.runtime[id].dueAt == Some(0.0)
  }

  lemma {:induction false} PlaceAllReleases(s: State, outputs: seq<Output>, available: bool, id: int)
    requires NoLongerHeld(s, id) || (id in s.runtime && Reconfigures(s, outputs, id))
    ensures NoLongerHeld(PlaceAll(s, outputs, available), id)
    decreases |outputs|
  {
    if outputs != [] {
      var front, o := outputs[..|outputs| - 1], outputs[|outputs| - 1];
      assert forall x :: x in outputs ==> x in front || x == o;
      if NoLongerHeld(s, id) || Reconfigures(s, front, id) {
        PlaceAllReleases(s, front, available, id);
      } else {
        PlaceAllSameEntry(s, front, available, id);
      }
    }
  }

  lemma ReorderReleases(s: State, epoch: int, active: bool, outputs: seq<Output>, id: int)
    requires id in s.runtime
    requires s.epoch != Some(epoch) || id !in Ids(outputs) || s.active != active || Reconfigures(s, outputs, id)
    ensures var r := Reorder(Activate(ClearEpoch(s, epoch), active), Ids(outputs));
            NoLongerHeld(r, id) || (id in r.runtime && Reconfigures(r, outputs, id))
  {
    var r := Reorder(Activate(ClearEpoch(s, epoch), active), Ids(outputs));
    if id in r.runtime && s.active == active {
      assert r.runtime[id] == s.runtime[id];
      var o :| o in outputs && o.id == id && o != s.runtime[id].key;
      assert Reconfigures(r, outputs, id);
    }
  }

  /**
   Those events are exactly the ones that end the wait: after one the output is due at once, has no size, or is gone.
   */
  lemma HastenedIsReleased(s: State, e: Event, id: int)
    requires id in s.runtime && Fits(s, e) && Hastens(s, e, id)
    ensures NoLongerHeld(Step(s, e), id)
  {
    if e.Reconcile? {
      var r := Reorder(Activate(ClearEpoch(s.(clock := e.now), e.epoch), e.available && e.wanted), Ids(e.outputs));
      ReorderReleases(s.(clock := e.now), e.epoch, e.available && e.wanted, e.outputs, id);
      PlaceAllReleases(r, e.outputs, e.available, id);
    }
  }

  // ---- presentation size ----

  /** The presentation fits 320 by 180 and never exceeds the authored size. */
  lemma MonitorSizeFits(width: int, height: int)
    ensures MonitorSize(width, height).Some? <==> 1 <= width <= MAX_SAFE_INTEGER && 1 <= height <= MAX_SAFE_INTEGER
    ensures MonitorSize(width, height).Some? ==>
              && 1 <= MonitorSize(width, height).value.0 <= 320 && MonitorSize(width, height).value.0 <= width
              && 1 <= MonitorSize(width, height).value.1 <= 180 && MonitorSize(width, height).value.1 <= height
  {
    if MonitorSize(width, height).Some? {
      PresentedFits(width, height);
    }
  }

  lemma PresentedFits(width: int, height: int)
    requires width >= 1 && height >= 1
    ensures 1 <= Presented(width, Scale(width, height)) <= 320 && Presented(width, Scale(width, height)) <= width
    ensures 1 <= Presented(height, Scale(width, height)) <= 180 && Presented(height, Scale(width, height)) <= height
  {
    ScaleFits(width, height);
    ScaledFits(width, 320, Scale(width, height));
    ScaledFits(height, 180, Scale(width, height));
  }

  lemma ScaleFits(width: int, height: int)
    requires width >= 1 && height >= 1
    ensures 0.0 <= Scale(width, height) <= 1.0
    ensures width as real * Scale(width, height) <= 320.0 && height as real * Scale(width, height) <= 180.0
  {
    Quotient(320.0, width);
    Quotient(180.0, height);
    Multiply(Scale(width, height), 320.0 / width as real, width as real);
    Multiply(Scale(width, height), 180.0 / height as real, height as real);
  }

  lemma Quotient(a: real, n: int)
    requires a > 0.0 && n >= 1
    ensures a / n as real > 0.0 && n as real * (a / n as real) == a
  {
  }

  lemma ScaledFits(n: int, limit: int, scale: real)
    requires n >= 1 && limit >= 1 && 0.0 <= scale <= 1.0 && n as real * scale <= limit as real
    ensures 1 <= Presented(n, scale) <= limit && Presented(n, scale) <= n
  {
    var x := n as real * scale;
    Multiply(scale, 1.0, n as real);
    assert x <= n as real;
    RoundFits(x, n);
    RoundFits(x, limit);
  }

  lemma RoundFits(x: real, n: int)
    requires x <= n as real && n >= 1
    ensures AtLeastOne(Round(x)) <= n
  {
  }

  lemma Multiply(a: real, b: real, c: real)
    requires a <= b && c >= 0.0
    ensures c * a <= c * b
  {
    assert c * (b - a) >= 0.0;
  }

  // ---- a dropped entry forgets its spacing ----

  lemma ScheduleOne(s: State, id: int)
    requires s.order == [id] && id in s.runtime && Waiting(s) && s.runtime[id].dueAt.Some?
    ensures var delay := Ceiling(Max(SlotTime(s.origin, s.nextStartSlot),
                                     ReadyAt(s.origin, s.runtime[id]).value) - s.clock);
            Schedule(s) == s.(timer := Some(s.clock + (if delay < 0 then 0 else delay) as real))
  {
    assert s.order[..0] == [];
    assert EarliestReady(s.origin, s.runtime, []) == None;
  }

  lemma RunNextOne(s: State, id: int)
    requires s.order == [id] && s.cursor == 0 && id in s.runtime && Waiting(s)
    requires Eligible(s.runtime[id], SlotAt(s.origin, s.clock), s.clock) && s.nextStartSlot <= SlotAt(s.origin, s.clock)
    ensures RunNextAt(s) == Begin(s.(timer := None), id, SlotAt(s.origin, s.clock))
  {
  }

  lemma PlaceOne(s: State, o: Output)
    requires s.runtime == map[] && !s.disposed && MonitorSize(o.width, o.height) == Some((o.width, o.height))
             && o.width > 0 && o.height > 0
    ensures var t := PlaceAll(s, [o], true);
            && t == s.(runtime := t.runtime, states := t.states, nextHandle := t.nextHandle,
                       nextLineage := s.nextLineage + 1)
            && t.runtime == map[o.id := Entry(o, o.width, o.height, Some(0.0), 0, 0, 0.0, None, s.nextHandle,
                                              s.nextLineage)]
  {
    assert [o][..0] == [];
    assert PlaceAll(s, [], true) == s.(states := map[]);
  }

  /** Listing one output at a moment nothing is listed. */
  lemma ListOne(u: State, s: State, o: Output)
    requires s == Activate(ClearEpoch(u, 1), true)
    requires s.runtime == map[] && !s.disposed && !s.inFlight && s.cursor == 0
    requires MonitorSize(o.width, o.height) == Some((o.width, o.height)) && o.width > 0 && o.height > 0
    ensures var t := ReconcileWith(u, [o], 1, true, true);
            var delay := Ceiling(Max(SlotTime(s.origin, s.nextStartSlot), Max(0.0, SlotTime(s.origin, 0))) - s.clock);
            && t == s.(runtime := t.runtime, states := t.states, nextHandle := t.nextHandle,
                       nextLineage := s.nextLineage + 1,
                       order := [o.id], timer := Some(s.clock + (if delay < 0 then 0 else delay) as real))
            && t.runtime == map[o.id := Entry(o, o.width, o.height, Some(0.0), 0, 0, 0.0, None, s.nextHandle,
                                              s.nextLineage)]
  {
    assert Ids([o]) == [o.id];
    var r := Reorder(s, [o.id]);
    assert r.runtime == map[];
    PlaceOne(r, o);
    ScheduleOne(PlaceAll(r, [o], true), o.id);
  }

  lemma RunTwo(s: State, a: Event, b: Event)
    ensures Run(s, [a, b]) == Step(Step(s, a), b)
  {
    RunOne(s, a);
    assert [a, b][..1] == [a];
  }

  lemma ListNothing(s: State)
    requires !s.disposed && s.epoch == Some(1) && s.active
    ensures ReconcileWith(s, [], 1, true, true)
            == s.(runtime := map[], states := map[], order := [], cursor := 0, timer := None)
  {
    assert Ids([]) == [];
    assert Reorder(s, []).runtime == map[];
    assert EarliestReady(s.origin, map[], []) == None;
  }

  /** From a state in which output o was just started in slot 0, dropping it and listing it again. */
  lemma DropAndList(s: State, o: Output)
    requires s.origin == 0.0 && s.clock == 0.0 && Waiting(s) && s.epoch == Some(1) && s.nextStartSlot == 1
    requires MonitorSize(o.width, o.height) == Some((o.width, o.height)) && o.width > 0 && o.height > 0
    ensures var t := Run(s, [Reconcile([], 1, true, true, 0.0), Reconcile([o], 1, true, true, 0.0)]);
            && t == s.(runtime := t.runtime, states := t.states, nextHandle := t.nextHandle,
                       nextLineage := s.nextLineage + 1, order := [o.id], cursor := 0, timer := Some(17.0))
            && t.runtime == map[o.id := Entry(o, o.width, o.height, Some(0.0), 0, 0, 0.0, None, s.nextHandle,
                                              s.nextLineage)]
  {
    RunTwo(s, Reconcile([], 1, true, true, 0.0), Reconcile([o], 1, true, true, 0.0));
    ListNothing(s);
    var a := s.(runtime := map[], states := map[], order := [], cursor := 0, timer := None);
    ListOne(a, a, o);
    assert SlotTime(0.0, 1) == 1000.0 / 60.0;
    assert Ceiling(1000.0 / 60.0) == 17;
  }

  lemma StartAgain(s: State, id: int)
    requires s.origin == 0.0 && s.clock <= 17.0 && Waiting(s) && s.timer.Some? && s.nextStartSlot == 1
    requires s.order == [id] && s.cursor == 0 && id in s.runtime && s.runtime[id].dueAt == Some(0.0)
             && s.runtime[id].dueSlot == 0
    ensures Step(s, RunNext(17.0)).starts == s.starts + [Start(1, 17.0, id, s.runtime[id].lineage)]
  {
    assert SlotAt(0.0, 17.0) == 1;
    RunNextOne(s.(clock := 17.0), id);
  }

  lemma ListFirst(o: Output)
    requires MonitorSize(o.width, o.height) == Some((o.width, o.height)) && o.width > 0 && o.height > 0
    ensures var t := Run(Init(0.0), [Reconcile([o], 1, true, true, 0.0)]);
            && t == Init(0.0).(generation := 2, epoch := Some(1), active := true, runtime := t.runtime,
                               states := t.states,
                               nextHandle := t.nextHandle, nextLineage := 1, order := [o.id], timer := Some(0.0))
            && t.runtime == map[o.id := Entry(o, o.width, o.height, Some(0.0), 0, 0, 0.0, None, 0, 0)]
  {
    FirstReconcile(o);
    var i := Init(0.0).(generation := 2, epoch := Some(1), active := true);
    ActivatesFirst();
    ListOne(Init(0.0), i, o);
    assert Ceiling(0.0) == 0 && SlotTime(0.0, 0) == 0.0;
  }

  lemma FirstReconcile(o: Output)
    ensures Run(Init(0.0), [Reconcile([o], 1, true, true, 0.0)]) == ReconcileWith(Init(0.0), [o], 1, true, true)
  {
    RunOne(Init(0.0), Reconcile([o], 1, true, true, 0.0));
    assert Init(0.0).(clock := 0.0) == Init(0.0);
  }

  lemma ActivatesFirst()
    ensures Activate(ClearEpoch(Init(0.0), 1), true) == Init(0.0).(generation := 2, epoch := Some(1), active := true)
  {
  }

  lemma RunOne(s: State, a: Event)
    ensures Run(s, [a]) == Step(s, a)
  {
    assert [a][..0] == [];
    assert Run(s, []) == s;
  }

  lemma StartAndReply(s: State, o: Output, p: Packet)
    requires s.origin == 0.0 && s.clock == 0.0 && Waiting(s) && s.nextStartSlot == 0 && s.timer == Some(0.0)
    requires s.order == [o.id] && s.cursor == 0 && s.outstanding == []
    requires o.id in s.runtime && s.runtime[o.id].dueAt == Some(0.0) && s.runtime[o.id].dueSlot == 0
    ensures var t := Run(s, [RunNext(0.0), Reply(0, p, 0.0)]);
            && t == s.(runtime := t.runtime, states := t.states, timer := t.timer, starts := t.starts,
                       nextStartSlot := 1)
            && t.starts == s.starts + [Start(0, 0.0, o.id, s.runtime[o.id].lineage)]
  {
    RunTwo(s, RunNext(0.0), Reply(0, p, 0.0));
    assert SlotAt(0.0, 0.0) == 0;
    RunNextOne(s, o.id);
    var a := Begin(s.(timer := None), o.id, 0);
    assert a.outstanding[..0] + a.outstanding[1..] == [];
    AnswerRetainsOthers(a.(outstanding := []), a.outstanding[0], p);
  }

  lemma AnswerRetainsOthers(s: State, f: Flight, p: Packet)
    ensures var t := Answer(s, f, p); t == s.(runtime := t.runtime, states := t.states)
  {
  }

  /** Removing an output and listing it again lets it start in the very next slot. */
  lemma DroppedOutputRestartsAtOnce(o: Output, p: Packet)
    requires MonitorSize(o.width, o.height) == Some((o.width, o.height))
    ensures var listed := Run(Init(0.0), [Reconcile([o], 1, true, true, 0.0)]);
            var started := Run(listed, [RunNext(0.0), Reply(0, p, 0.0)]);
            var again := Run(started, [Reconcile([], 1, true, true, 0.0), Reconcile([o], 1, true, true, 0.0)]);
            Step(again, RunNext(17.0)).starts == [Start(0, 0.0, o.id, 0), Start(1, 17.0, o.id, 1)]
  {
    MonitorSizeFits(o.width, o.height);
    ListFirst(o);
    var listed := Run(Init(0.0), [Reconcile([o], 1, true, true, 0.0)]);
    StartAndReply(listed, o, p);
    var started := Run(listed, [RunNext(0.0), Reply(0, p, 0.0)]);
    DropAndList(started, o);
    StartAgain(Run(started, [Reconcile([], 1, true, true, 0.0), Reconcile([o], 1, true, true, 0.0)]), o.id);
  }

  // ---- an early timer spends a turn ----

  function NewEntry(o: Output, handle: nat, lineage: nat): Entry
    requires o.width > 0 && o.height > 0
  {
    Entry(o, o.width, o.height, Some(0.0), 0, 0, 0.0, None, handle, lineage)
  }

  /** A size that is shown as it is. */
  predicate Fitting(o: Output) {
    o.width > 0 && o.height > 0 && MonitorSize(o.width, o.height) == Some((o.width, o.height))
  }

  lemma PlaceNew(s: State, o: Output, previous: map<int, Monitor>, available: bool)
    requires o.id !in s.runtime && Fitting(o)
    ensures var t := Place(s, o, previous, available);
            t == s.(runtime := s.runtime[o.id := NewEntry(o, s.nextHandle, s.nextLineage)], states := t.states,
                    nextHandle := s.nextHandle + 1, nextLineage := s.nextLineage + 1)
  {
  }

  predicate Distinct(a: Output, b: Output, c: Output) {
    Fitting(a) && Fitting(b) && Fitting(c) && a.id != b.id && a.id != c.id && b.id != c.id
  }

  lemma PlaceThree(s: State, a: Output, b: Output, c: Output)
    requires s.runtime == map[] && Distinct(a, b, c) && s.nextHandle == s.nextLineage == 0
    ensures var t := PlaceAll(s, [a, b, c], true);
            && t == s.(runtime := t.runtime, states := t.states, nextHandle := 3, nextLineage := 3)
            && t.runtime == map[a.id := NewEntry(a, 0, 0), b.id := NewEntry(b, 1, 1), c.id := NewEntry(c, 2, 2)]
  {
    assert [a, b, c][..2] == [a, b] && [a, b][..1] == [a] && [a][..0] == [];
    var s0 := s.(states := map[]);
    assert PlaceAll(s, [], true) == s0;
    PlaceNew(s0, a, s.states, true);
    var s1 := PlaceAll(s, [a], true);
    PlaceNew(s1, b, s.states, true);
    PlaceNew(PlaceAll(s, [a, b], true), c, s.states, true);
  }

  /** Three outputs in order, all idle, the last two free to start at once. */
  predicate Three(s: State, a: int, b: int, c: int) {
    && s.origin == 0.0 && Waiting(s) && s.order == [a, b, c] && s.cursor < 3
    && a in s.runtime && b in s.runtime && c in s.runtime && a != b && a != c && b != c
    && s.runtime[b].dueAt == s.runtime[c].dueAt == Some(0.0) && s.runtime[b].dueSlot == s.runtime[c].dueSlot == 0
    && s.outstanding == []
  }

  lemma ListThree(a: Output, b: Output, c: Output)
    requires Distinct(a, b, c)
    ensures var s := Run(Init(0.0), [Reconcile([a, b, c], 1, true, true, 0.0)]);
            && Three(s, a.id, b.id, c.id) && s.clock == 0.0 && s.cursor == 0 && s.nextStartSlot == 0 && s.starts == []
            && s.runtime[a.id] == NewEntry(a, 0, 0) && s.runtime[c.id].lineage == 2
  {
    var e := Reconcile([a, b, c], 1, true, true, 0.0);
    RunOne(Init(0.0), e);
    assert Init(0.0).(clock := 0.0) == Init(0.0);
    ActivatesFirst();
    var i := Init(0.0).(generation := 2, epoch := Some(1), active := true);
    assert Ids([a, b, c]) == [a.id, b.id, c.id];
    var r := Reorder(i, [a.id, b.id, c.id]);
    assert r.runtime == map[];
    PlaceThree(r, a, b, c);
  }

  /** A firing whose first candidate is eligible. */
  lemma RunNextAtCursor(s: State)
    requires Waiting(s) && s.cursor < |s.order|
    requires EligibleId(s, s.order[s.cursor], SlotAt(s.origin, s.clock), s.clock)
    ensures var slot, id := SlotAt(s.origin, s.clock), s.order[s.cursor];
            var moved := s.(timer := None, cursor := if s.cursor + 1 == |s.order| then 0 else s.cursor + 1);
            RunNextAt(s) == if slot < s.nextStartSlot then Schedule(moved) else Begin(moved, id, slot)
  {
    NextCursor(s.cursor, |s.order|);
    SmallMod(s.cursor, |s.order|);
    assert (s.cursor + 0) % |s.order| == s.cursor;
    assert Select(s.(timer := None), SlotAt(s.origin, s.clock), s.clock, 0) == Some(s.cursor);
  }

  const BUSY: Packet := Packet(true, true, true, 0, 0, 0)

  /** With the next start in slot 1, the timer is armed for the first whole millisecond after its beginning. */
  lemma ArmsForSlotOne(s: State, a: int, b: int, c: int)
    requires Three(s, a, b, c) && !s.inFlight && s.nextStartSlot == 1 && (s.clock == 0.0 || s.clock == 16.66)
    ensures Schedule(s).timer == Some(if s.clock == 0.0 then 17.0 else 17.66)
  {
    assert s.order[1] == b;
    EarliestIsLeast(s.origin, s.runtime, s.order, b);
    var wait := SlotTime(0.0, 1) - s.clock;
    assert Ceiling(wait) == if s.clock == 0.0 then 17 else 1;
  }

  lemma StartFirst(s: State, a: int, b: int, c: int)
    requires Three(s, a, b, c) && s.clock == 0.0 && s.cursor == 0 && s.nextStartSlot == 0 && s.timer.Some?
    requires s.runtime[a].dueAt == Some(0.0) && s.runtime[a].dueSlot == 0
    ensures var t := Step(Step(s, RunNext(0.0)), Reply(0, BUSY, 0.0));
            && Three(t, a, b, c) && t.clock == 0.0 && t.cursor == 1 && t.nextStartSlot == 1 && t.timer == Some(17.0)
            && t.runtime[b] == s.runtime[b] && t.runtime[c] == s.runtime[c]
            && t.starts == s.starts + [Start(0, 0.0, a, s.runtime[a].lineage)]
  {
    assert SlotAt(0.0, 0.0) == 0;
    RunNextAtCursor(s);
    var m := Step(s, RunNext(0.0));
    assert m.outstanding[..0] + m.outstanding[1..] == [];
    AnswerRetainsOthers(m.(outstanding := []), m.outstanding[0], BUSY);
    ArmsForSlotOne(Step(m, Reply(0, BUSY, 0.0)), a, b, c);
  }

  lemma SpendTurn(s: State, a: int, b: int, c: int)
    requires Three(s, a, b, c) && s.clock == 0.0 && s.cursor == 1 && s.nextStartSlot == 1 && s.timer.Some?
    ensures Step(s, RunNext(16.66)) == s.(clock := 16.66, cursor := 2, timer := Some(17.66))
    ensures Selected(s, RunNext(16.66)) == Some(1)
  {
    assert SlotAt(0.0, 16.66) == 0;
    RunNextAtCursor(s.(clock := 16.66));
    ArmsForSlotOne(s.(clock := 16.66, cursor := 2, timer := None), a, b, c);
    assert Step(s, RunNext(16.66)).cursor == 2;
    SmallMod(1, 3);
  }

  lemma StartLast(s: State, a: int, b: int, c: int)
    requires Three(s, a, b, c) && s.clock <= 17.66 && s.cursor == 2 && s.nextStartSlot == 1 && s.timer.Some?
    ensures Step(s, RunNext(17.66)).starts == s.starts + [Start(1, 17.66, c, s.runtime[c].lineage)]
    ensures EligibleId(s, b, SlotAt(0.0, 17.66), 17.66)
  {
    assert SlotAt(0.0, 17.66) == 1;
    RunNextAtCursor(s.(clock := 17.66));
  }

  function EarlyRun(a: Output, b: Output, c: Output, k: nat): seq<Event>
    requires k <= 5
  {
    [Reconcile([a, b, c], 1, true, true, 0.0), RunNext(0.0), Reply(0, BUSY, 0.0), RunNext(16.66), RunNext(17.66)][..k]
  }

  lemma EarlyRunStep(a: Output, b: Output, c: Output, k: nat)
    requires k < 5
    ensures var e := EarlyRun(a, b, c, 5)[k];
            Run(Init(0.0), EarlyRun(a, b, c, k + 1)) == Step(Run(Init(0.0), EarlyRun(a, b, c, k)), e)
  {
    assert EarlyRun(a, b, c, k + 1)[..k] == EarlyRun(a, b, c, k);
  }

  lemma TimerStands(events: seq<Event>, a: int, b: int, c: int)
    requires Three(Run(Init(0.0), events), a, b, c)
    ensures Run(Init(0.0), events).timer.Some?
  {
    NeverLeftWithoutATimer(0.0, events, b);
  }

  lemma AfterFirst(a: Output, b: Output, c: Output)
    requires Distinct(a, b, c)
    ensures var s := Run(Init(0.0), EarlyRun(a, b, c, 3));
            && Three(s, a.id, b.id, c.id) && s.clock == 0.0 && s.cursor == 1 && s.nextStartSlot == 1
            && s.timer == Some(17.0)
            && s.starts == [Start(0, 0.0, a.id, 0)] && s.runtime[c.id].lineage == 2
  {
    assert EarlyRun(a, b, c, 1) == [Reconcile([a, b, c], 1, true, true, 0.0)];
    ListThree(a, b, c);
    TimerStands(EarlyRun(a, b, c, 1), a.id, b.id, c.id);
    EarlyRunStep(a, b, c, 1);
    EarlyRunStep(a, b, c, 2);
    StartFirst(Run(Init(0.0), EarlyRun(a, b, c, 1)), a.id, b.id, c.id);
  }

  lemma AfterLost(a: Output, b: Output, c: Output)
    requires Distinct(a, b, c)
    ensures var s, t := Run(Init(0.0), EarlyRun(a, b, c, 3)), Run(Init(0.0), EarlyRun(a, b, c, 4));
            && s.timer == Some(17.0) && t == s.(clock := 16.66, cursor := 2, timer := Some(17.66))
            && Selected(s, RunNext(16.66)) == Some(1) && s.order == [a.id, b.id, c.id]
            && Three(t, a.id, b.id, c.id) && t.nextStartSlot == 1
            && t.starts == [Start(0, 0.0, a.id, 0)] && t.runtime[c.id].lineage == 2
  {
    AfterFirst(a, b, c);
    EarlyRunStep(a, b, c, 3);
    SpendTurn(Run(Init(0.0), EarlyRun(a, b, c, 3)), a.id, b.id, c.id);
  }

  /**
   Three outputs: the first is read back, then the timer armed for 17 ms fires a third of a millisecond early
   and selects the second, whose turn is lost because the slot is used; the next firing, on time, starts the
   third in its place.
   */
  lemma EarlyTimerLosesATurn(a: Output, b: Output, c: Output)
    requires Distinct(a, b, c)
    ensures Run(Init(0.0), EarlyRun(a, b, c, 3)).timer == Some(17.0) && EarlyRun(a, b, c, 5)[3] == RunNext(16.66)
    ensures SelectsAt(0.0, EarlyRun(a, b, c, 5), 3, b.id) && !StartsAt(0.0, EarlyRun(a, b, c, 5), 3, b.id)
    ensures var s := Run(Init(0.0), EarlyRun(a, b, c, 4));
            EligibleId(s, b.id, SlotAt(0.0, 17.66), 17.66) && Fits(s, RunNext(17.66)) && OnTime(s, RunNext(17.66))
    ensures Run(Init(0.0), EarlyRun(a, b, c, 5)).starts == [Start(0, 0.0, a.id, 0), Start(1, 17.66, c.id, 2)]
  {
    AfterLost(a, b, c);
    EarlyRunStep(a, b, c, 4);
    StartLast(Run(Init(0.0), EarlyRun(a, b, c, 4)), a.id, b.id, c.id);
    EarlyPrefixes(a, b, c);
  }

  lemma EarlyPrefixes(a: Output, b: Output, c: Output)
    ensures EarlyRun(a, b, c, 5)[..3] == EarlyRun(a, b, c, 3) && EarlyRun(a, b, c, 5)[..4] == EarlyRun(a, b, c, 4)
    ensures EarlyRun(a, b, c, 5)[3] == RunNext(16.66)
  {
  }

  // ---- the stateful object ----

  /** createTimelineOutputMonitorController. */
  class TimelineOutputMonitorController {
    var runtime: map<int, Entry>
    var states: map<int, Monitor>
    var order: seq<int>
    var cursor: nat
    var generation: nat
    var projectEpoch: Option<int>
    var active: bool
    var disposed: bool
    var inFlight: bool
    var timer: Option<real>
    const cadenceOrigin: real
    var nextStartSlot: int
    var now: real
    var awaited: seq<Flight>
    var nextHandle: nat
    var nextLineage: nat
    var starts: seq<Start>

    function View(): State
      reads this
    {
      State(cadenceOrigin, runtime, states, order, cursor, generation, projectEpoch, active, disposed, inFlight, timer,
            nextStartSlot, now, awaited, nextHandle, nextLineage, starts)
    }

    constructor (origin: real)
      ensures cadenceOrigin == origin && View() == Init(origin)
    {
      cadenceOrigin := origin;
      runtime, states, order, cursor, generation, projectEpoch := map[], map[], [], 0, 0, None;
      active, disposed, inFlight, timer, nextStartSlot, now := false, false, false, None, 0, origin;
      awaited, nextHandle, nextLineage, starts := [], 0, 0, [];
    }

    /** Clears the timer and arms it for the earliest entry. */
    method Arm()
      modifies this`timer
      ensures View() == Schedule(old(View()))
    {
      timer := None;
      if disposed || !active || inFlight { return; }
      var due: Option<real> := None;
      var k := 0;
      while k < |order|
        invariant 0 <= k <= |order| && timer == None
        invariant due == EarliestReady(cadenceOrigin, runtime, order[..k])
      {
        assert order[..k + 1][..k] == order[..k];
        if order[k] in runtime { due := Earlier(due, ReadyAt(cadenceOrigin, runtime[order[k]])); }
        k := k + 1;
      }
      assert order[..k] == order;
      if due.None? { return; }
      var delay := Ceiling(Max(SlotTime(cadenceOrigin, nextStartSlot), due.value) - now);
      timer := Some(now + (if delay < 0 then 0 else delay) as real);
    }

    /** The timer callback up to its await. */
    method TimerFired(at: real)
      requires Fits(View(), RunNext(at))
      modifies this
      ensures View() == Step(old(View()), RunNext(at))
    {
      ghost var s := View().(clock := at, timer := None);
      now, timer := at, None;
      assert View() == s;
      if !(disposed || !active || inFlight) {
        var slot := SlotAt(cadenceOrigin, now);
        var index := Choose(slot);
        if index.None? {
          Arm();
        } else {
          cursor := (index.value + 1) % |order|;
          if slot < nextStartSlot {
            Arm();
          } else {
            SelectedIsEligible(s, slot, now, 0);
            StartReadback(order[index.value], slot);
          }
        }
      }
    }

    method StartReadback(id: int, slot: int)
      requires id in runtime
      modifies this`inFlight, this`nextStartSlot, this`runtime, this`awaited, this`starts
      ensures View() == Begin(old(View()), id, slot)
    {
      inFlight := true;
      nextStartSlot := slot + 1;
      var entry := runtime[id];
      runtime := runtime[id := entry.(dueSlot := slot + START_SLOTS)];
      awaited := awaited + [Flight(id, entry.handle, generation, entry.width, entry.height)];
      starts := starts + [Start(slot, now, id, entry.lineage)];
    }

    /** The search from the cursor. */
    method Choose(slot: int) returns (index: Option<nat>)
      ensures index == Select(View(), slot, now, 0)
    {
      index := None;
      var offset := 0;
      while offset < |order|
        invariant 0 <= offset <= |order|
        invariant Select(View(), slot, now, 0) == Select(View(), slot, now, offset)
      {
        var candidate := (cursor + offset) % |order|;
        if order[candidate] in runtime && Eligible(runtime[order[candidate]], slot, now) {
          return Some(candidate);
        }
        offset := offset + 1;
      }
    }

    /** The continuation of the request at position k of those outstanding. */
    method ReplyArrived(k: nat, packet: Packet, at: real)
      requires Fits(View(), Reply(k, packet, at))
      modifies this
      ensures View() == Step(old(View()), Reply(k, packet, at))
    {
      var flight := awaited[k];
      now := at;
      awaited := awaited[..k] + awaited[k + 1..];
      Settle(flight, packet);
      inFlight := false;
      Arm();
    }

    method Settle(flight: Flight, packet: Packet)
      modifies this`runtime, this`states
      ensures View() == Answer(old(View()), flight, packet)
    {
      var id := flight.id;
      if disposed || !active || generation != flight.generation || id !in runtime
        || runtime[id].handle != flight.handle {
        return;
      }
      var entry := runtime[id];
      if packet.Rejected? || !packet.rgba || !packet.program
         || (!packet.busy && (packet.width != entry.width || packet.height != entry.height)) {
        runtime := runtime[id := entry.(errors := entry.errors + 1, dueAt := Some(now + Backoff(entry.errors + 1)),
                                        frame := None)];
        states := Publish(states, id, (m: Monitor) => m.(status := Failed, frame := None));
      } else if packet.busy {
        states := Publish(states, id, (m: Monitor) =>
                            Monitor(if entry.frame.Some? then Live else if m.status == Failed then Failed else Starting,
                                    entry.frame, m.busyDrops + 1));
      } else {
        var picture := Picture(packet.width, packet.height, packet.content, flight.handle, flight.generation);
        runtime := runtime[id := entry.(frame := Some(picture), lastFrameAt := now, errors := 0)];
        states := Publish(states, id, (m: Monitor) => m.(status := Live, frame := Some(picture)));
      }
    }

    method ExpireFrames(at: real)
      requires Fits(View(), Expire(at))
      modifies this
      ensures View() == Step(old(View()), Expire(at))
    {
      now := at;
      var t := map id | id in states ::
        if id in runtime && Expired(runtime[id], at) then states[id].(status := Failed, frame := None) else states[id];
      runtime := map id | id in runtime ::
        if Expired(runtime[id], at) then runtime[id].(frame := None, lastFrameAt := 0.0) else runtime[id];
      states := t;
    }

    /** The effect that follows the authored outputs. */
    method OutputsChanged(outputs: seq<Output>, epoch: int, available: bool, wanted: bool, at: real)
      requires Fits(View(), Reconcile(outputs, epoch, available, wanted, at))
      modifies this
      ensures View() == Step(old(View()), Reconcile(outputs, epoch, available, wanted, at))
    {
      now := at;
      FollowProject(epoch);
      FollowActivity(available && wanted);
      FollowOrder(Ids(outputs));
      PlaceOutputs(outputs, available);
      Arm();
    }

    method FollowProject(epoch: int)
      modifies this`generation, this`projectEpoch, this`runtime
      ensures View() == ClearEpoch(old(View()), epoch)
    {
      if projectEpoch != Some(epoch) {
        generation, projectEpoch, runtime := generation + 1, Some(epoch), map[];
      }
    }

    method FollowActivity(nextActive: bool)
      modifies this`generation, this`active, this`runtime
      ensures View() == Activate(old(View()), nextActive)
    {
      if active != nextActive {
        generation, active := generation + 1, nextActive;
        runtime := map id | id in runtime :: DueNow(runtime[id].(frame := None, lastFrameAt := 0.0));
      }
    }

    method FollowOrder(ids: seq<int>)
      modifies this`order, this`runtime, this`cursor
      ensures View() == Reorder(old(View()), ids)
    {
      order := ids;
      runtime := map id | id in runtime && id in order :: runtime[id];
      if cursor >= |order| { cursor := 0; }
    }

    /** The loop over the outputs, rebuilding the monitors from the previous ones. */
    method PlaceOutputs(outputs: seq<Output>, available: bool)
      modifies this`runtime, this`states, this`nextHandle, this`nextLineage
      ensures View() == PlaceAll(old(View()), outputs, available)
    {
      var previous := states;
      states := map[];
      var k := 0;
      while k < |outputs|
        invariant 0 <= k <= |outputs|
        invariant View() == PlaceAll(old(View()), outputs[..k], available)
      {
        ghost var placed := View();
        PlaceOutput(outputs[k], previous, available);
        PlaceNext(old(View()), outputs, k, available);
        assert View() == Place(placed, outputs[k], previous, available);
        k := k + 1;
      }
      assert outputs[..k] == outputs;
    }

    method PlaceOutput(output: Output, previous: map<int, Monitor>, available: bool)
      modifies this`runtime, this`states, this`nextHandle, this`nextLineage
      ensures View() == Place(old(View()), output, previous, available)
    {
      var id := output.id;
      var before := EMPTY;
      if id !in runtime || runtime[id].key != output {
        var entry := EntryFor(View(), output);
        nextHandle := nextHandle + 1;
        if id !in runtime { nextLineage := nextLineage + 1; }
        runtime := runtime[id := entry];
      } else {
        if id in previous { before := previous[id]; }
        assert runtime == runtime[id := runtime[id]];
      }
      states := states[id := MonitorFor(runtime[id], before, active, available)];
    }

    method RetryNow(at: real)
      requires Fits(View(), Retry(at))
      modifies this
      ensures View() == Step(old(View()), Retry(at))
    {
      now := at;
      runtime := map id | id in runtime :: DueNow(runtime[id].(errors := 0));
      Arm();
    }

    method CleanUp(at: real)
      requires Fits(View(), Dispose(at))
      modifies this
      ensures View() == Step(old(View()), Dispose(at))
    {
      now := at;
      disposed, generation, timer, runtime, states := true, generation + 1, None, map[], map[];
    }
  }
}
