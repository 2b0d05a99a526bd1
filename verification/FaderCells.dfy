/**
 The fader value controller of app/src/createFaderValueController.ts seen key by key: what one key shows is a small
 automaton of its own, and what becomes of a key's writes and promises follows from what was enqueued for it.
 */
module FaderCells {
  import opened Prelude
  import opened FaderValues

  // ---- what one key shows ----

  /** A plain value, or none yet; an optimistic one; or one received by MIDI until its deadline. */
  datatype Cell = Plain(shown: Option<real>) | Optimistic(value: real) | Projected(value: real, until: real)

  function Shown(c: Cell): Option<real> {
    match c
    case Plain(shown) => shown
    case Optimistic(value) => Some(value)
    case Projected(value, _) => Some(value)
  }

  function CellAt(s: State, key: string): Cell {
    if key in s.optimistic then Optimistic(s.optimistic[key])
    else if key in s.received then Projected(s.received[key].value, s.received[key].until)
    else Plain(if key in s.displayed then Some(s.displayed[key]) else None)
  }

  /** A snapshot value reaches a plain key, ends an agreeing pin, and outlives a projection at its deadline. */
  function SnapshotCell(c: Cell, x: real, now: real): Cell {
    match c
    case Plain(_) => Plain(Some(x))
    case Optimistic(value) => if value == x then Plain(Some(x)) else c
    case Projected(value, until) => if value == x || now >= until then Plain(Some(x)) else c
  }

  /** A value leaves its pin, still shown, if it is the one named. */
  function Unpinned(c: Cell, only: Option<real>): Cell {
    if c.Optimistic? && (only.None? || only.value == c.value) then Plain(Some(c.value)) else c
  }

  /** The cell of a key after an event; `live`: whether any write is; `failing`: the value of the key's live write. */
  function CellNext(c: Cell, e: Event, key: string, live: bool, failing: Option<real>): Cell {
    match e
    case Enqueue(k, value) => if k == key then Optimistic(value) else c
    case SetOptimistic(k, value) => if k == key then Optimistic(value) else c
    case ClearOptimistic(k, only) => if k == key then Unpinned(c, only) else c
    case WriteFails(k) => if k == key && failing.Some? then Unpinned(c, failing) else c
    case WriteOk(_) => c
    case Midi(incoming, now) => if !live && key in incoming then Projected(incoming[key], now + 200.0) else c
    case Snapshot(incoming, now) => if key in incoming then SnapshotCell(c, incoming[key], now) else c
    case ClearAll => Plain(Shown(c))
  }

  function Failing(s: State, key: string): Option<real> {
    if key in s.slots then Some(s.slots[key].flight.value) else None
  }

  /** The cell of a key after a run. */
  function CellOf(events: seq<Event>, key: string): Cell
    decreases |events|
  {
    if events == [] then Plain(None)
    else
      var front, e := events[..|events| - 1], events[|events| - 1];
      var s := Run(Init(), front);
      CellNext(CellOf(front, key), e, key, s.slots != map[], Failing(s, key))
  }

  /** Over every run each key shows exactly what its own automaton says, and is pinned or projected as it says. */
  lemma {:induction false} ShowsItsCell(events: seq<Event>, key: string)
    ensures var s := Run(Init(), events);
      && CellAt(s, key) == CellOf(events, key)
      && Shown(CellOf(events, key)) == if key in s.displayed then Some(s.displayed[key]) else None
    decreases |events|
  {
    DisplayIsCoherent(events);
    if events != [] {
      var front, e := events[..|events| - 1], events[|events| - 1];
      ShowsItsCell(front, key);
      DisplayIsCoherent(front);
      CellStep(Run(Init(), front), e, key);
    }
  }

  lemma CellStep(s: State, e: Event, key: string)
    requires Coherent(s)
    ensures CellAt(Step(s, e), key) == CellNext(CellAt(s, key), e, key, s.slots != map[], Failing(s, key))
  {
    match e
    case Snapshot(incoming, now) => CellAfterSnapshot(s, incoming, now, key);
    case Midi(_, _) =>
    case _ =>
  }

  lemma CellAfterSnapshot(s: State, incoming: map<string, real>, now: real, key: string)
    requires Coherent(s)
    ensures CellAt(SnapshotStep(s, incoming, now), key)
            == if key in incoming then SnapshotCell(CellAt(s, key), incoming[key], now) else CellAt(s, key)
  {
  }

  // ---- what becomes of a key's writes ----

  predicate Unsettled(s: State, id: nat, key: string) {
    OfKey(s, id, key) && id !in s.resolved && id !in s.rejected
  }

  ghost predicate Settles(before: set<nat>, after: set<nat>, s: State, key: string) {
    forall id :: id in after <==> id in before || Unsettled(s, id, key)
  }

  /**
   What one event does to the writes: an enqueue starts its write at once unless one of the key is live; a
   completed write is followed by the newest of its key or, being it, resolves every promise of the key; a
   failed one rejects them all and starts nothing.
   */
  ghost predicate WritesNext(s: State, e: Event, t: State) {
    match e
    case Enqueue(key, value) =>
      && t.enqueued == s.enqueued + [Request(key, value)]
      && t.executed == s.executed + (if key in s.slots then [] else [|s.enqueued| + 1])
      && Unmoved(s, t) && t.slots.Keys == s.slots.Keys + {key}
    case WriteOk(key) =>
      t.enqueued == s.enqueued &&
      if key !in s.slots then t.executed == s.executed && Unmoved(s, t) && t.slots == s.slots
      else
        var flight := s.slots[key].flight.id;
        && t.completed == s.completed + {flight} && t.failed == s.failed && t.rejected == s.rejected
        && if NewestOfKey(s, flight, key) then
             t.executed == s.executed && Settles(s.resolved, t.resolved, s, key) && t.slots == s.slots - {key}
           else Follows(s, t, key)
    case WriteFails(key) =>
      t.enqueued == s.enqueued && t.executed == s.executed &&
      if key !in s.slots then Unmoved(s, t) && t.slots == s.slots
      else
        && t.failed == s.failed + {s.slots[key].flight.id} && t.completed == s.completed && t.resolved == s.resolved
        && Settles(s.rejected, t.rejected, s, key) && t.slots == s.slots - {key}
    case _ => t.enqueued == s.enqueued && t.executed == s.executed && Unmoved(s, t) && t.slots == s.slots
  }

  predicate Unmoved(s: State, t: State) {
    t.completed == s.completed && t.failed == s.failed && t.resolved == s.resolved && t.rejected == s.rejected
  }

  /** The newest write of the key is started next. */
  ghost predicate Follows(s: State, t: State, key: string) {
    && t.resolved == s.resolved && t.slots.Keys == s.slots.Keys
    && exists newest: nat :: NewestOfKey(s, newest, key) && t.executed == s.executed + [newest]
  }

  lemma WritesFollow(events: seq<Event>, e: Event)
    ensures WritesNext(Run(Init(), events), e, Step(Run(Init(), events), e))
  {
    EveryRun(events);
    WritesStep(Run(Init(), events), e);
  }

  lemma WritesStep(s: State, e: Event)
    requires Inv(s)
    ensures WritesNext(s, e, Step(s, e))
  {
    match e
    case WriteOk(key) => if key in s.slots { CompletedNext(s, key); }
    case WriteFails(key) => if key in s.slots { FailedNext(s, key); }
    case _ =>
  }

  /** The promises a slot holds are those of its key that are not settled. */
  lemma HoldsTheUnsettled(s: State, key: string, id: nat)
    requires Inv(s) && key in s.slots
    ensures id in s.slots[key].waiters <==> Unsettled(s, id, key)
  {
    assert SlotInv(s, key);
    if Unsettled(s, id, key) { assert PromiseInv(s, id); }
  }

  lemma CompletedNext(s: State, key: string)
    requires Inv(s) && key in s.slots
    ensures WritesNext(s, WriteOk(key), WriteOkStep(s, key))
  {
    assert SlotInv(s, key);
    var slot, t := s.slots[key], WriteOkStep(s, key);
    forall id ensures id in slot.waiters <==> Unsettled(s, id, key) { HoldsTheUnsettled(s, key, id); }
    if slot.next.Some? {
      assert NewestOfKey(s, slot.next.value.id, key);
      NotNewest(s, slot.flight.id, slot.next.value.id, key);
    }
  }

  lemma NotNewest(s: State, older: nat, newer: nat, key: string)
    requires OfKey(s, newer, key) && older < newer
    ensures !NewestOfKey(s, older, key)
  {
    assert s.enqueued[newer - 1].key == key;
  }

  lemma FailedNext(s: State, key: string)
    requires Inv(s) && key in s.slots
    ensures WritesNext(s, WriteFails(key), WriteFailsStep(s, key))
  {
    forall id ensures id in s.slots[key].waiters <==> Unsettled(s, id, key) { HoldsTheUnsettled(s, key, id); }
  }
}
