/**
 The fader value controller of app/src/createFaderValueController.ts: one write slot per key,
 an optimistic value that hides lagging snapshots, and a short-lived MIDI projection.

 A slot is in the map exactly while its drain loop runs, so `running` is always true and the
 state between two awaits holds the write in flight.  An enqueued write is named by its position
 in `enqueued`, counted from one; the same number names its promise.
 */
module FaderValues {
  import opened Prelude

  const RECEIVED_MS: real := 200.0

  datatype Request = Request(key: string, value: real)
  datatype Pending = Pending(id: nat, value: real)
  datatype Slot = Slot(flight: Pending, next: Option<Pending>, waiters: seq<nat>)
  datatype Received = Received(value: real, until: real)

  datatype State = State(
    optimistic: map<string, real>,
    received: map<string, Received>,
    slots: map<string, Slot>,
    displayed: map<string, real>,
    enqueued: seq<Request>,       // what an observer has seen
    executed: seq<nat>,           // writes started, in order
    completed: set<nat>,
    failed: set<nat>,
    resolved: set<nat>,
    rejected: set<nat>)

  datatype Event =
    | Enqueue(key: string, value: real)
    | WriteOk(key: string)
    | WriteFails(key: string)
    | Midi(incoming: map<string, real>, now: real)
    | SetOptimistic(key: string, value: real)
    | ClearOptimistic(key: string, only: Option<real>)
    | Snapshot(incoming: map<string, real>, now: real)
    | ClearAll

  function Init(): State {
    State(map[], map[], map[], map[], [], [], {}, {}, {}, {})
  }

  // ---- the segments ----

  function SetOptimisticStep(s: State, key: string, value: real): State {
    s.(received := s.received - {key},
       optimistic := s.optimistic[key := value],
       displayed := s.displayed[key := value])
  }

  function EnqueueStep(s: State, key: string, value: real): State {
    var t := SetOptimisticStep(s, key, value);
    var id := |s.enqueued| + 1;
    var write := Pending(id, value);
    var u := t.(enqueued := s.enqueued + [Request(key, value)]);
    if key in s.slots then
      var slot := s.slots[key];
      u.(slots := s.slots[key := slot.(next := Some(write), waiters := slot.waiters + [id])])
    else
      u.(slots := s.slots[key := Slot(write, None, [id])], executed := s.executed + [id])
  }

  function ToSet(ids: seq<nat>): set<nat> {
    set id | id in ids
  }

  function WriteOkStep(s: State, key: string): State
    requires key in s.slots
  {
    var slot := s.slots[key];
    var t := s.(completed := s.completed + {slot.flight.id});
    match slot.next
    case None => t.(slots := s.slots - {key}, resolved := s.resolved + ToSet(slot.waiters))
    case Some(write) =>
      t.(slots := s.slots[key := slot.(flight := write, next := None)], executed := s.executed + [write.id])
  }

  function ClearStep(s: State, key: string, only: Option<real>): State {
    if only.None? || (key in s.optimistic && s.optimistic[key] == only.value)
    then s.(optimistic := s.optimistic - {key})
    else s
  }

  function WriteFailsStep(s: State, key: string): State
    requires key in s.slots
  {
    var slot := s.slots[key];
    ClearStep(s, key, Some(slot.flight.value)).(
      slots := s.slots - {key},
      failed := s.failed + {slot.flight.id},
      rejected := s.rejected + ToSet(slot.waiters))
  }

  function MidiStep(s: State, incoming: map<string, real>, now: real): State {
    if s.slots != map[] then s
    else s.(optimistic := s.optimistic - incoming.Keys,
            received := map k | k in s.received.Keys + incoming.Keys ::
                          if k in incoming then Received(incoming[k], now + RECEIVED_MS) else s.received[k],
            displayed := s.displayed + incoming)
  }

  /** The MIDI projection of a key still hides this snapshot. */
  predicate Hidden(s: State, key: string, value: real, now: real) {
    key in s.received && value != s.received[key].value && now < s.received[key].until
  }

  function SnapshotStep(s: State, incoming: map<string, real>, now: real): State {
    s.(received := map k | k in s.received && (k in incoming ==> Hidden(s, k, incoming[k], now)) :: s.received[k],
       optimistic := map k | k in s.optimistic
                       && (k in incoming ==> Hidden(s, k, incoming[k], now) || incoming[k] != s.optimistic[k])
                       :: s.optimistic[k],
       displayed := map k | k in s.displayed.Keys + (set j | j in incoming && !Hidden(s, j, incoming[j], now)) ::
                      if k in incoming && !Hidden(s, k, incoming[k], now)
                      then if k in s.optimistic then s.optimistic[k] else incoming[k]
                      else s.displayed[k])
  }

  function Step(s: State, e: Event): State {
    match e
    case Enqueue(key, value) => EnqueueStep(s, key, value)
    case WriteOk(key) => if key in s.slots then WriteOkStep(s, key) else s
    case WriteFails(key) => if key in s.slots then WriteFailsStep(s, key) else s
    case Midi(incoming, now) => MidiStep(s, incoming, now)
    case SetOptimistic(key, value) => SetOptimisticStep(s, key, value)
    case ClearOptimistic(key, only) => ClearStep(s, key, only)
    case Snapshot(incoming, now) => SnapshotStep(s, incoming, now)
    case ClearAll => s.(optimistic := map[], received := map[])
  }

  function Run(s: State, events: seq<Event>): State
    decreases |events|
  {
    if events == [] then s
    else Step(Run(s, events[..|events| - 1]), events[|events| - 1])
  }

  // ---- the display ----

  /** Every key shows its optimistic or its received value, and never has both. */
  predicate Coherent(s: State) {
    && s.optimistic.Keys !! s.received.Keys
    && (forall k :: k in s.optimistic ==> k in s.displayed && s.displayed[k] == s.optimistic[k])
    && (forall k :: k in s.received ==> k in s.displayed && s.displayed[k] == s.received[k].value)
  }

  lemma StepKeepsCoherent(s: State, e: Event)
    requires Coherent(s)
    ensures Coherent(Step(s, e))
  {
  }

  /** Over every interleaving the display agrees with the optimistic and received values. */
  lemma {:induction false} DisplayIsCoherent(events: seq<Event>)
    ensures Coherent(Run(Init(), events))
    decreases |events|
  {
    if events != [] {
      DisplayIsCoherent(events[..|events| - 1]);
      StepKeepsCoherent(Run(Init(), events[..|events| - 1]), events[|events| - 1]);
    }
  }

  /** A snapshot never repaints an optimistic key, nor a received one before its deadline. */
  lemma SnapshotNeverRepaints(s: State, incoming: map<string, real>, now: real, key: string)
    requires Coherent(s)
    requires key in s.optimistic || (key in s.received && now < s.received[key].until)
    ensures var t := Step(s, Snapshot(incoming, now));
      key in t.displayed && t.displayed[key] == s.displayed[key]
  {
  }

  /** Where nothing is pinned the snapshot's value is shown, and then nothing is pinned. */
  lemma SnapshotCatchesUp(s: State, incoming: map<string, real>, now: real, key: string)
    requires Coherent(s) && key in incoming
    requires !Hidden(s, key, incoming[key], now) && (key in s.optimistic ==> s.optimistic[key] == incoming[key])
    ensures var t := Step(s, Snapshot(incoming, now));
      && key in t.displayed && t.displayed[key] == incoming[key]
      && key !in t.optimistic && key !in t.received
  {
  }

  /** MIDI input changes nothing while any write is live, and otherwise shows every value it brings. */
  lemma MidiYieldsToWrites(s: State, incoming: map<string, real>, now: real)
    requires Coherent(s)
    ensures var t := Step(s, Midi(incoming, now));
      && (s.slots != map[] ==> t == s)
      && (s.slots == map[] ==> forall k :: k in incoming ==>
            k in t.displayed && t.displayed[k] == incoming[k] && k in t.received && k !in t.optimistic)
  {
  }

  // ---- the write slots ----

  predicate OfKey(s: State, id: nat, key: string) {
    1 <= id <= |s.enqueued| && s.enqueued[id - 1].key == key
  }

  predicate Carries(s: State, write: Pending, key: string) {
    1 <= write.id <= |s.enqueued| && s.enqueued[write.id - 1] == Request(key, write.value)
  }

  predicate NewestOfKey(s: State, id: nat, key: string) {
    OfKey(s, id, key) && forall i :: id <= i < |s.enqueued| ==> s.enqueued[i].key != key
  }

  predicate Increasing(ids: seq<nat>) {
    forall i, j :: 0 <= i < j < |ids| ==> ids[i] < ids[j]
  }

  function Newest(slot: Slot): nat {
    if slot.next.Some? then slot.next.value.id else slot.flight.id
  }

  predicate SlotInv(s: State, key: string)
    requires key in s.slots
  {
    var slot := s.slots[key];
    && Carries(s, slot.flight, key) && slot.flight.id in s.executed
    && slot.flight.id !in s.completed && slot.flight.id !in s.failed
    && (slot.next.Some? ==> Carries(s, slot.next.value, key) && slot.flight.id < slot.next.value.id)
    && NewestOfKey(s, Newest(slot), key)
    && slot.waiters != [] && Increasing(slot.waiters)
    && (forall id :: id in slot.waiters ==> OfKey(s, id, key) && id !in s.resolved && id !in s.rejected)
  }

  predicate SlotsInv(s: State) {
    forall key :: key in s.slots ==> SlotInv(s, key)
  }

  /** A started write is over unless it is the one its slot is waiting for. */
  predicate ExecutedInv(s: State) {
    forall id :: id in s.executed ==> ExecutedAt(s, id)
  }

  predicate ExecutedAt(s: State, id: nat) {
    && 1 <= id <= |s.enqueued|
    && var key := s.enqueued[id - 1].key;
       var over := id in s.completed || id in s.failed;
       if key in s.slots then id <= s.slots[key].flight.id && (over || id == s.slots[key].flight.id) else over
  }

  /** Writes to one key start in the order they were enqueued. */
  predicate InOrder(enqueued: seq<Request>, executed: seq<nat>) {
    forall i, j :: 0 <= i < j < |executed| && Alike(enqueued, executed[i], executed[j]) ==> executed[i] < executed[j]
  }

  predicate Alike(enqueued: seq<Request>, a: nat, b: nat) {
    1 <= a <= |enqueued| && 1 <= b <= |enqueued| && enqueued[a - 1].key == enqueued[b - 1].key
  }

  ghost predicate Served(s: State, id: nat) {
    exists m :: m in s.completed && id <= m && Alike(s.enqueued, id, m)
  }

  ghost predicate SettledInv(s: State) {
    && s.resolved !! s.rejected
    && (forall id :: id in s.resolved ==> Served(s, id))
    && (forall id :: id in s.rejected || id in s.completed || id in s.failed ==> 1 <= id <= |s.enqueued|)
    && s.completed !! s.failed
    && (forall id :: id in s.completed || id in s.failed ==> id in s.executed)
    && (forall id :: 1 <= id <= |s.enqueued| ==> PromiseInv(s, id))
  }

  /** Each promise is resolved, rejected, or held by the slot of its key. */
  predicate PromiseInv(s: State, id: nat)
    requires 1 <= id <= |s.enqueued|
  {
    var key := s.enqueued[id - 1].key;
    id in s.resolved || id in s.rejected || (key in s.slots && id in s.slots[key].waiters)
  }

  /** The newest write of a key without a slot has completed, unless its promise was rejected. */
  ghost predicate NewestInv(s: State) {
    forall id: nat, key :: NewestOfKey(s, id, key) && key !in s.slots ==> id in s.completed || id in s.rejected
  }

  ghost predicate Inv(s: State) {
    SlotsInv(s) && ExecutedInv(s) && InOrder(s.enqueued, s.executed) && SettledInv(s) && NewestInv(s)
  }

  lemma SameWritesSameInv(s: State, t: State)
    requires Inv(s)
    requires t.slots == s.slots && t.enqueued == s.enqueued && t.executed == s.executed
    requires t.completed == s.completed && t.failed == s.failed
    requires t.resolved == s.resolved && t.rejected == s.rejected
    ensures Inv(t)
  {
    assert forall key :: key in t.slots ==> SlotInv(s, key) ==> SlotInv(t, key);
    forall id | id in t.resolved ensures Served(t, id) {
      assert Served(s, id);
      var m :| m in s.completed && id <= m && Alike(s.enqueued, id, m);
      assert Alike(t.enqueued, id, m);
    }
    forall id | 1 <= id <= |t.enqueued| ensures PromiseInv(t, id) { assert PromiseInv(s, id); }
    forall id: nat, key | NewestOfKey(t, id, key) && key !in t.slots ensures id in t.completed || id in t.rejected {
      assert NewestOfKey(s, id, key);
    }
  }

  // An enqueue appends one request; older names keep their meaning.

  lemma FreshName(s: State)
    requires Inv(s)
    ensures var id := |s.enqueued| + 1;
      id !in s.completed && id !in s.failed && id !in s.rejected && id !in s.resolved && id !in s.executed
  {
    forall id | id in s.resolved ensures id <= |s.enqueued| { assert Served(s, id); }
  }

  lemma EnqueueKeepsSlots(s: State, key: string, value: real)
    requires Inv(s)
    ensures SlotsInv(EnqueueStep(s, key, value))
  {
    var t := EnqueueStep(s, key, value);
    FreshName(s);
    forall k | k in t.slots ensures SlotInv(t, k) {
      if k in s.slots {
        assert SlotInv(s, k);
        if k == key {
          EnqueueKeepsItsSlot(s, key, value);
        } else {
          EnqueueKeepsOtherSlot(s, key, value, k);
        }
      }
    }
  }

  lemma EnqueueKeepsOtherSlot(s: State, key: string, value: real, k: string)
    requires k in s.slots && SlotInv(s, k) && k != key
    ensures SlotInv(EnqueueStep(s, key, value), k)
  {
  }

  lemma EnqueueKeepsItsSlot(s: State, key: string, value: real)
    requires Inv(s) && key in s.slots && SlotInv(s, key)
    ensures SlotInv(EnqueueStep(s, key, value), key)
  {
    var t := EnqueueStep(s, key, value);
    var id := |s.enqueued| + 1;
    var old', now := s.slots[key], t.slots[key];
    FreshName(s);
    assert Increasing(now.waiters) by {
      forall i, j | 0 <= i < j < |now.waiters| ensures now.waiters[i] < now.waiters[j] {
        assert old'.waiters[i] in old'.waiters;
      }
    }
  }

  lemma InOrderGrows(enqueued: seq<Request>, more: Request, executed: seq<nat>)
    requires InOrder(enqueued, executed) && forall id :: id in executed ==> 1 <= id <= |enqueued|
    ensures InOrder(enqueued + [more], executed)
  {
    forall i, j | 0 <= i < j < |executed| && Alike(enqueued + [more], executed[i], executed[j])
      ensures executed[i] < executed[j]
    {
      assert executed[i] in executed && executed[j] in executed;
      assert Alike(enqueued, executed[i], executed[j]);
    }
  }

  lemma InOrderSnoc(enqueued: seq<Request>, executed: seq<nat>, id: nat)
    requires InOrder(enqueued, executed)
    requires forall d :: d in executed && Alike(enqueued, d, id) ==> d < id
    ensures InOrder(enqueued, executed + [id])
  {
    var more := executed + [id];
    forall i, j | 0 <= i < j < |more| && Alike(enqueued, more[i], more[j]) ensures more[i] < more[j] {
      assert more[i] in executed;
      if j < |executed| { assert Alike(enqueued, executed[i], executed[j]); }
    }
  }

  lemma EnqueueKeepsExecuted(s: State, key: string, value: real)
    requires Inv(s)
    ensures var t := EnqueueStep(s, key, value); ExecutedInv(t) && InOrder(t.enqueued, t.executed)
  {
    var t := EnqueueStep(s, key, value);
    InOrderGrows(s.enqueued, Request(key, value), s.executed);
    if key !in s.slots {
      InOrderSnoc(t.enqueued, s.executed, |s.enqueued| + 1);
    }
    FreshName(s);
    EnqueueKeepsExecutedInv(s, key, value);
  }

  lemma EnqueueKeepsExecutedInv(s: State, key: string, value: real)
    requires ExecutedInv(s)
    ensures ExecutedInv(EnqueueStep(s, key, value))
  {
  }

  lemma EnqueueKeepsSettled(s: State, key: string, value: real)
    requires Inv(s)
    ensures var t := EnqueueStep(s, key, value); SettledInv(t) && NewestInv(t)
  {
    var t := EnqueueStep(s, key, value);
    forall id | id in t.resolved ensures Served(t, id) {
      assert Served(s, id);
      var m :| m in s.completed && id <= m && Alike(s.enqueued, id, m);
      assert Alike(t.enqueued, id, m);
    }
    forall id | 1 <= id <= |t.enqueued| ensures PromiseInv(t, id) {
      if id <= |s.enqueued| { assert PromiseInv(s, id); }
    }
    forall id: nat, k | NewestOfKey(t, id, k) && k !in t.slots ensures id in t.completed || id in t.rejected {
      if id <= |s.enqueued| {
        assert forall i :: id <= i < |s.enqueued| ==> s.enqueued[i] == t.enqueued[i];
        assert NewestOfKey(s, id, k);
      }
    }
  }

  lemma EnqueueKeeps(s: State, key: string, value: real)
    requires Inv(s)
    ensures Inv(EnqueueStep(s, key, value))
  {
    EnqueueKeepsSlots(s, key, value);
    EnqueueKeepsExecuted(s, key, value);
    EnqueueKeepsSettled(s, key, value);
  }

  // A write settles: only the slot of its key moves.

  lemma OtherSlotsKept(s: State, t: State, key: string)
    requires Inv(s) && key in s.slots && t.enqueued == s.enqueued
    requires forall k :: k != key ==> (k in t.slots <==> k in s.slots)
    requires forall k :: k != key && k in s.slots ==> t.slots[k] == s.slots[k]
    requires forall id :: id in s.executed ==> id in t.executed
    requires t.completed + t.failed == s.completed + s.failed + {s.slots[key].flight.id}
    requires t.resolved + t.rejected <= s.resolved + s.rejected + ToSet(s.slots[key].waiters)
    ensures forall k :: k in t.slots && k != key ==> SlotInv(t, k)
  {
    forall k | k in t.slots && k != key ensures SlotInv(t, k) {
      assert SlotInv(s, k) && SlotInv(s, key);
      OtherSlotKept(s, t, key, k);
    }
  }

  lemma OtherSlotKept(s: State, t: State, key: string, k: string)
    requires key in s.slots && k in s.slots && k in t.slots && k != key && t.slots[k] == s.slots[k]
             && t.enqueued == s.enqueued
    requires SlotInv(s, k) && SlotInv(s, key)
    requires forall id :: id in s.executed ==> id in t.executed
    requires t.completed + t.failed == s.completed + s.failed + {s.slots[key].flight.id}
    requires t.resolved + t.rejected <= s.resolved + s.rejected + ToSet(s.slots[key].waiters)
    ensures SlotInv(t, k)
  {
    var slot := s.slots[k];
    forall id | id in slot.waiters ensures OfKey(t, id, k) && id !in t.resolved && id !in t.rejected {
      assert OfKey(s, id, k);
      assert id in s.slots[key].waiters ==> OfKey(s, id, key);
      assert id !in s.resolved + s.rejected + ToSet(s.slots[key].waiters);
      assert id !in t.resolved + t.rejected;
    }
    assert slot.flight.id !in s.completed + s.failed + {s.slots[key].flight.id};
    assert slot.flight.id !in t.completed + t.failed;
  }

  lemma WriteOkKeepsSlots(s: State, key: string)
    requires Inv(s) && key in s.slots
    ensures SlotsInv(WriteOkStep(s, key))
  {
    var t := WriteOkStep(s, key);
    OtherSlotsKept(s, t, key);
    if key in t.slots { WriteOkKeepsItsSlot(s, key); }
  }

  lemma WriteOkKeepsItsSlot(s: State, key: string)
    requires Inv(s) && key in s.slots && s.slots[key].next.Some?
    ensures SlotInv(WriteOkStep(s, key), key)
  {
    assert SlotInv(s, key);
    var id := s.slots[key].next.value.id;
    assert id in s.completed || id in s.failed ==> id in s.executed;
    assert id in s.executed ==> ExecutedAt(s, id);
  }

  lemma WriteOkKeepsExecuted(s: State, key: string)
    requires Inv(s) && key in s.slots
    ensures InOrder(WriteOkStep(s, key).enqueued, WriteOkStep(s, key).executed)
  {
    assert SlotInv(s, key);
    if s.slots[key].next.Some? {
      var id := s.slots[key].next.value.id;
      forall d | d in s.executed && Alike(s.enqueued, d, id) ensures d < id { }
      InOrderSnoc(s.enqueued, s.executed, id);
    }
  }

  lemma WriteOkKeepsExecutedInv(s: State, key: string)
    requires Inv(s) && key in s.slots
    ensures ExecutedInv(WriteOkStep(s, key))
  {
    assert SlotInv(s, key);
    var t := WriteOkStep(s, key);
    forall id | id in t.executed ensures ExecutedAt(t, id) {
      if id in s.executed { WriteOkKeepsExecutedAt(s, key, id); }
    }
  }

  lemma WriteOkKeepsExecutedAt(s: State, key: string, id: nat)
    requires key in s.slots && SlotInv(s, key) && ExecutedAt(s, id)
    ensures ExecutedAt(WriteOkStep(s, key), id)
  {
  }

  lemma WriteOkKeepsSettled(s: State, key: string)
    requires Inv(s) && key in s.slots
    ensures SettledInv(WriteOkStep(s, key))
  {
    var t := WriteOkStep(s, key);
    var slot := s.slots[key];
    assert SlotInv(s, key);
    forall id | id in t.resolved ensures Served(t, id) {
      if id in s.resolved {
        assert Served(s, id);
        var m :| m in s.completed && id <= m && Alike(s.enqueued, id, m);
        assert Alike(t.enqueued, id, m) && m in t.completed;
      } else {
        assert OfKey(s, id, key);
        assert NewestOfKey(s, slot.flight.id, key);
        assert slot.flight.id in t.completed && Alike(t.enqueued, id, slot.flight.id);
      }
    }
    forall id | 1 <= id <= |t.enqueued| ensures PromiseInv(t, id) { assert PromiseInv(s, id); }
  }

  lemma WriteOkKeepsNewest(s: State, key: string)
    requires Inv(s) && key in s.slots
    ensures NewestInv(WriteOkStep(s, key))
  {
    var t := WriteOkStep(s, key);
    assert SlotInv(s, key);
    forall id: nat, k | NewestOfKey(t, id, k) && k !in t.slots ensures id in t.completed || id in t.rejected {
      assert NewestOfKey(s, id, k);
      if k == key { OnlyOneNewest(s, id, s.slots[key].flight.id, key); }
    }
  }

  lemma OnlyOneNewest(s: State, a: nat, b: nat, key: string)
    requires NewestOfKey(s, a, key) && NewestOfKey(s, b, key)
    ensures a == b
  {
    assert s.enqueued[a - 1].key == key && s.enqueued[b - 1].key == key;
  }

  lemma WriteFailsKeepsSlots(s: State, key: string)
    requires Inv(s) && key in s.slots
    ensures var t := WriteFailsStep(s, key); SlotsInv(t) && InOrder(t.enqueued, t.executed)
  {
    OtherSlotsKept(s, WriteFailsStep(s, key), key);
  }

  lemma WriteFailsKeepsExecutedInv(s: State, key: string)
    requires Inv(s) && key in s.slots
    ensures ExecutedInv(WriteFailsStep(s, key))
  {
    assert SlotInv(s, key);
    var t := WriteFailsStep(s, key);
    forall id | id in t.executed ensures ExecutedAt(t, id) { assert ExecutedAt(s, id); }
  }

  lemma WriteFailsKeepsSettled(s: State, key: string)
    requires Inv(s) && key in s.slots
    ensures SettledInv(WriteFailsStep(s, key))
  {
    var t := WriteFailsStep(s, key);
    assert SlotInv(s, key);
    forall id | id in t.resolved ensures Served(t, id) {
      assert Served(s, id);
      var m :| m in s.completed && id <= m && Alike(s.enqueued, id, m);
      assert Alike(t.enqueued, id, m);
    }
    forall id | 1 <= id <= |t.enqueued| ensures PromiseInv(t, id) { assert PromiseInv(s, id); }
  }

  lemma WriteFailsKeepsNewest(s: State, key: string)
    requires Inv(s) && key in s.slots
    ensures NewestInv(WriteFailsStep(s, key))
  {
    var t := WriteFailsStep(s, key);
    assert SlotInv(s, key);
    forall id: nat, k | NewestOfKey(t, id, k) && k !in t.slots ensures id in t.completed || id in t.rejected {
      assert NewestOfKey(s, id, k);
      if k == key {
        assert PromiseInv(s, id);
        if id in s.resolved { ResolvedNewestCompleted(s, id, key); }
      }
    }
  }

  lemma ResolvedNewestCompleted(s: State, id: nat, key: string)
    requires Inv(s) && NewestOfKey(s, id, key) && id in s.resolved
    ensures id in s.completed
  {
    assert Served(s, id);
    var m :| m in s.completed && id <= m && Alike(s.enqueued, id, m);
    assert s.enqueued[m - 1].key == key;
  }

  lemma StepKeeps(s: State, e: Event)
    requires Inv(s)
    ensures Inv(Step(s, e))
  {
    if e.Enqueue? {
      EnqueueKeeps(s, e.key, e.value);
    } else if e.WriteOk? && e.key in s.slots {
      WriteOkKeepsSlots(s, e.key);
      WriteOkKeepsExecuted(s, e.key);
      WriteOkKeepsExecutedInv(s, e.key);
      WriteOkKeepsSettled(s, e.key);
      WriteOkKeepsNewest(s, e.key);
    } else if e.WriteFails? && e.key in s.slots {
      WriteFailsKeepsSlots(s, e.key);
      WriteFailsKeepsExecutedInv(s, e.key);
      WriteFailsKeepsSettled(s, e.key);
      WriteFailsKeepsNewest(s, e.key);
    } else {
      SameWritesSameInv(s, Step(s, e));
    }
  }

  lemma {:induction false} EveryRun(events: seq<Event>)
    ensures Inv(Run(Init(), events))
    decreases |events|
  {
    if events != [] {
      EveryRun(events[..|events| - 1]);
      StepKeeps(Run(Init(), events[..|events| - 1]), events[|events| - 1]);
    }
  }

  // ---- what the runs promise ----

  /**
   Per key, writes start in the order they were enqueued and at most one is unfinished; the
   write a slot is waiting for carries what was enqueued under its name.
   */
  lemma WritesAreSerialPerKey(events: seq<Event>)
    ensures var s := Run(Init(), events);
      && InOrder(s.enqueued, s.executed)
      && (forall a, b :: Unfinished(s, a) && Unfinished(s, b) && Alike(s.enqueued, a, b) ==> a == b)
      && (forall key :: key in s.slots ==>
          Unfinished(s, s.slots[key].flight.id) && Carries(s, s.slots[key].flight, key))
  {
    EveryRun(events);
    var s := Run(Init(), events);
    forall a, b | Unfinished(s, a) && Unfinished(s, b) && Alike(s.enqueued, a, b) ensures a == b {
      assert ExecutedAt(s, a) && ExecutedAt(s, b);
    }
    forall key | key in s.slots
      ensures Unfinished(s, s.slots[key].flight.id) && Carries(s, s.slots[key].flight, key)
    {
      assert SlotInv(s, key);
    }
  }

  predicate Unfinished(s: State, id: nat) {
    id in s.executed && id !in s.completed && id !in s.failed
  }

  /** Every promise is in exactly one place: resolved, rejected, or held by the slot of its key. */
  lemma PromisesSettleOnce(events: seq<Event>, id: nat)
    requires 1 <= id <= |Run(Init(), events).enqueued|
    ensures var s := Run(Init(), events);
      var key := s.enqueued[id - 1].key;
      var held := key in s.slots && id in s.slots[key].waiters;
      && (held || id in s.resolved || id in s.rejected)
      && !(held && id in s.resolved) && !(held && id in s.rejected) && !(id in s.resolved && id in s.rejected)
  {
    EveryRun(events);
    var s := Run(Init(), events);
    assert PromiseInv(s, id);
    assert forall key :: key in s.slots ==> SlotInv(s, key);
  }

  lemma SettledForGood(s: State, e: Event)
    ensures s.resolved <= Step(s, e).resolved && s.rejected <= Step(s, e).rejected
  {
  }

  /** A resolved promise means a write at least as new as its own, to the same key, completed. */
  lemma ResolvedIsServed(events: seq<Event>, id: nat)
    requires id in Run(Init(), events).resolved
    ensures Served(Run(Init(), events), id)
  {
    EveryRun(events);
  }

  /** Once a key is quiet its newest write has completed, unless that write's promise was rejected. */
  lemma NewestWriteWins(events: seq<Event>, id: nat, key: string)
    requires var s := Run(Init(), events); NewestOfKey(s, id, key) && key !in s.slots
    ensures var s := Run(Init(), events); id in s.completed || id in s.rejected
  {
    EveryRun(events);
  }

  lemma {:induction false} WithoutFailureNothingRejected(events: seq<Event>)
    requires forall e :: e in events ==> !e.WriteFails?
    ensures Run(Init(), events).rejected == {}
    decreases |events|
  {
    if events != [] {
      var front, last := events[..|events| - 1], events[|events| - 1];
      assert last in events && forall e :: e in front ==> e in events;
      WithoutFailureNothingRejected(front);
      OnlyFailuresReject(Run(Init(), front), last);
    }
  }

  lemma OnlyFailuresReject(s: State, e: Event)
    requires !e.WriteFails?
    ensures Step(s, e).rejected == s.rejected
  {
  }

  /** If no write fails, the last write of a quiet key that reached the engine is the last one enqueued. */
  lemma WithoutFailureLastExecutedIsLastEnqueued(events: seq<Event>, id: nat, key: string)
    requires forall e :: e in events ==> !e.WriteFails?
    requires var s := Run(Init(), events); NewestOfKey(s, id, key) && key !in s.slots
    ensures var s := Run(Init(), events);
      id in s.completed && forall m :: m in s.executed && OfKey(s, m, key) ==> m <= id
  {
    WithoutFailureNothingRejected(events);
    NewestWriteWins(events, id, key);
    var s := Run(Init(), events);
    forall m | m in s.executed && OfKey(s, m, key) ensures m <= id {
      assert s.enqueued[m - 1].key == key;
    }
  }

  // ---- pinned values ----

  predicate Pinned(s: State, key: string, value: real) {
    key in s.optimistic && s.optimistic[key] == value
  }

  /** Exactly the segments that end the pin of `value` on `key`. */
  predicate Releases(s: State, e: Event, key: string, value: real) {
    match e
    case Enqueue(k, v) => k == key && v != value
    case SetOptimistic(k, v) => k == key && v != value
    case ClearOptimistic(k, only) => k == key && (only.None? || only.value == value)
    case ClearAll => true
    case Midi(incoming, _) => s.slots == map[] && key in incoming
    case Snapshot(incoming, _) => key in incoming && incoming[key] == value
    case WriteFails(k) => k == key && key in s.slots && s.slots[key].flight.value == value
    case WriteOk(_) => false
  }

  lemma PinEndsExactlyWhenReleased(s: State, e: Event, key: string, value: real)
    requires Coherent(s) && Pinned(s, key, value)
    ensures !Pinned(Step(s, e), key, value) <==> Releases(s, e, key, value)
  {
  }

  ghost predicate NeverReleased(s: State, events: seq<Event>, key: string, value: real) {
    forall i :: 0 <= i < |events| ==> !Releases(Run(s, events[..i]), events[i], key, value)
  }

  /** An unreleased pin keeps the key's displayed value through any run. */
  lemma {:induction false} PinHoldsTheDisplay(s: State, events: seq<Event>, key: string, value: real)
    requires Coherent(s) && Pinned(s, key, value) && NeverReleased(s, events, key, value)
    ensures var t := Run(s, events);
      Coherent(t) && Pinned(t, key, value) && key in t.displayed && t.displayed[key] == value
    decreases |events|
  {
    if events != [] {
      var n := |events| - 1;
      var front := events[..n];
      forall i | 0 <= i < n ensures !Releases(Run(s, front[..i]), front[i], key, value) {
        assert front[..i] == events[..i] && front[i] == events[i];
      }
      PinHoldsTheDisplay(s, front, key, value);
      PinEndsExactlyWhenReleased(Run(s, front), events[n], key, value);
      StepKeepsCoherent(Run(s, front), events[n]);
    }
  }

  /**
   A failed write drops a queued newer write, and leaves that write's optimistic value pinned
   with no write behind it if and only if the two values differ.
   */
  lemma FailureDropsQueuedWrite(s: State, key: string)
    requires Inv(s) && key in s.slots && s.slots[key].next.Some? && Pinned(s, key, s.slots[key].next.value.value)
    ensures var slot := s.slots[key];
      var t := Step(s, WriteFails(key));
      && key !in t.slots && slot.next.value.id in t.rejected && slot.next.value.id !in t.executed
      && (Pinned(t, key, slot.next.value.value) <==> slot.next.value.value != slot.flight.value)
  {
    assert SlotInv(s, key);
    var slot := s.slots[key];
    var id := slot.next.value.id;
    assert ExecutedInv(s);
    assert id in s.executed ==> ExecutedAt(s, id);
    assert PromiseInv(s, id);
    if id in s.resolved {
      ResolvedNewestCompleted(s, id, key);
    }
    assert id !in s.rejected ==> id in slot.waiters;
  }

  /**
   One failure in a two-write burst: the second promise is rejected unsent, and its value stays pinned without a
   write.
   */
  lemma FailedBurstLeavesAPin()
    ensures var s := Run(Init(), [Enqueue("k", 1.0), Enqueue("k", 2.0), WriteFails("k")]);
      && Pinned(s, "k", 2.0) && s.displayed["k"] == 2.0 && s.slots == map[]
      && s.executed == [1] && s.rejected == {1, 2} && s.resolved == {}
  {
    var a, b, c := Enqueue("k", 1.0), Enqueue("k", 2.0), WriteFails("k");
    assert [a, b, c][..2] == [a, b] && [a, b][..1] == [a] && [a][..0] == [];
    assert Run(Init(), []) == Init();
    var s1 := Step(Init(), a);
    assert s1.slots == map["k" := Slot(Pending(1, 1.0), None, [1])];
    assert Run(Init(), [a]) == s1;
    var s2 := Step(s1, b);
    assert [1] + [2] == [1, 2] && s2.slots["k"] == Slot(Pending(1, 1.0), Some(Pending(2, 2.0)), [1, 2]);
    assert s2.slots == map["k" := Slot(Pending(1, 1.0), Some(Pending(2, 2.0)), [1, 2])];
    assert Run(Init(), [a, b]) == s2;
    assert ToSet([1, 2]) == {1, 2};
  }

  // ---- pins left without a write ----

  /** v is pinned, no write of the key is live, and its newest write was rejected. */
  ghost predicate Dangling(s: State, key: string, v: real) {
    Pinned(s, key, v) && key !in s.slots && exists n :: NewestOfKey(s, n, key) && n in s.rejected
  }

  /** The failure of another value drops a queued write of v that is pinned. */
  predicate Drops(s: State, e: Event, key: string, v: real) {
    && e == WriteFails(key) && key in s.slots && Pinned(s, key, v)
    && s.slots[key].next.Some? && s.slots[key].next.value.value == v && s.slots[key].flight.value != v
  }

  /** Neither released nor enqueued again. */
  predicate LeavesDangling(s: State, e: Event, key: string, v: real) {
    !Releases(s, e, key, v) && !(e.Enqueue? && e.key == key)
  }

  /** A pin is the value of the newest write, when nothing else sets it. */
  ghost predicate PinIsNewest(s: State, key: string) {
    key in s.optimistic ==> exists n :: NewestOfKey(s, n, key) && s.enqueued[n - 1].value == s.optimistic[key]
  }

  predicate Sets(e: Event, key: string) { e.SetOptimistic? && e.key == key }

  lemma PinIsNewestStep(s: State, e: Event, key: string)
    requires PinIsNewest(s, key) && !Sets(e, key)
    ensures PinIsNewest(Step(s, e), key)
  {
    var t := Step(s, e);
    if e.Enqueue? && e.key == key {
      assert NewestOfKey(t, |t.enqueued|, key);
    } else if key in t.optimistic {
      assert t.optimistic[key] == s.optimistic[key];
      var n :| NewestOfKey(s, n, key) && s.enqueued[n - 1].value == s.optimistic[key];
      assert NewestOfKey(t, n, key);
    }
  }

  lemma DanglingAfterFailure(s: State, key: string, v: real)
    requires Inv(s) && NewestHeld(s) && PinIsNewest(s, key) && key in s.slots
    ensures Dangling(Step(s, WriteFails(key)), key, v) <==> Drops(s, WriteFails(key), key, v)
  {
    var t, slot := Step(s, WriteFails(key)), s.slots[key];
    assert SlotInv(s, key);
    var n := Newest(slot);
    assert NewestOfKey(s, n, key) && NewestOfKey(t, n, key);
    NewestWaits(s, key);
    assert n in t.rejected;
    if Pinned(s, key, v) {
      var m :| NewestOfKey(s, m, key) && s.enqueued[m - 1].value == v;
      OnlyOneNewest(s, m, n, key);
    }
  }

  /** The promise of a key's newest write is held by its slot. */
  predicate NewestHeld(s: State) {
    forall key :: key in s.slots ==> Newest(s.slots[key]) in s.slots[key].waiters
  }

  lemma NewestHeldStep(s: State, e: Event)
    requires NewestHeld(s)
    ensures NewestHeld(Step(s, e))
  {
  }

  lemma NewestWaits(s: State, key: string)
    requires Inv(s) && NewestHeld(s) && key in s.slots
    ensures Newest(s.slots[key]) in s.slots[key].waiters && Newest(s.slots[key]) !in s.rejected
  {
    assert SlotInv(s, key);
  }

  lemma DanglingAfterSuccess(s: State, key: string, v: real)
    requires Inv(s) && NewestHeld(s) && key in s.slots
    ensures !Dangling(Step(s, WriteOk(key)), key, v)
  {
    var t := Step(s, WriteOk(key));
    assert SlotInv(s, key);
    NewestWaits(s, key);
    forall n | NewestOfKey(t, n, key) ensures n !in t.rejected {
      assert NewestOfKey(s, n, key);
      OnlyOneNewest(s, n, Newest(s.slots[key]), key);
    }
  }

  /**
   One segment creates a dangling pin exactly by a drop, and keeps one exactly if it neither releases nor enqueues.
   */
  lemma DanglingStep(s: State, e: Event, key: string, v: real)
    requires Inv(s) && NewestHeld(s) && Coherent(s) && PinIsNewest(s, key) && !Sets(e, key)
    ensures Dangling(Step(s, e), key, v)
            <==> Drops(s, e, key, v) || (Dangling(s, key, v) && LeavesDangling(s, e, key, v))
  {
    if e == WriteFails(key) && key in s.slots {
      DanglingAfterFailure(s, key, v);
    } else if e == WriteOk(key) && key in s.slots {
      DanglingAfterSuccess(s, key, v);
    } else if e.WriteOk? || e.WriteFails? {
      OtherWritesKeepDangling(s, e, key, v);
    } else if e.Enqueue? {
      EnqueueDangles(s, e, key, v);
    } else {
      UnwrittenDangles(s, e, key, v);
    }
  }

  lemma OtherWritesKeepDangling(s: State, e: Event, key: string, v: real)
    requires Inv(s) && (e.WriteOk? || e.WriteFails?) && !(e.key == key && key in s.slots)
    ensures Dangling(Step(s, e), key, v) <==> Dangling(s, key, v)
  {
    var t := Step(s, e);
    OtherKeyUntouched(s, e, key, v);
    SameNewest(s, t, key);
    if e.key in s.slots {
      forall n: nat | NewestOfKey(s, n, key) ensures n in t.rejected <==> n in s.rejected {
        OtherKeysRejected(s, e, key, n);
      }
    }
  }

  lemma OtherKeyUntouched(s: State, e: Event, key: string, v: real)
    requires (e.WriteOk? || e.WriteFails?) && !(e.key == key && key in s.slots)
    ensures var t := Step(s, e);
      && (Pinned(t, key, v) <==> Pinned(s, key, v)) && (key in t.slots <==> key in s.slots) && t.enqueued == s.enqueued
      && (e.key !in s.slots ==> t == s)
  {
  }

  lemma OtherKeysRejected(s: State, e: Event, key: string, n: nat)
    requires Inv(s) && (e.WriteOk? || e.WriteFails?) && e.key in s.slots && e.key != key && OfKey(s, n, key)
    ensures n in Step(s, e).rejected <==> n in s.rejected
  {
    assert SlotInv(s, e.key);
    assert n in s.slots[e.key].waiters ==> OfKey(s, n, e.key);
  }

  lemma SameNewest(s: State, t: State, key: string)
    requires t.enqueued == s.enqueued
    ensures forall n: nat :: NewestOfKey(t, n, key) <==> NewestOfKey(s, n, key)
  {
  }

  lemma EnqueueDangles(s: State, e: Event, key: string, v: real)
    requires Inv(s) && e.Enqueue?
    ensures Dangling(Step(s, e), key, v) <==> Dangling(s, key, v) && e.key != key
  {
    var t := Step(s, e);
    if e.key != key {
      assert Pinned(t, key, v) <==> Pinned(s, key, v);
      EnqueueNewest(s, t, Request(e.key, e.value), key);
    }
  }

  lemma EnqueueNewest(s: State, t: State, r: Request, key: string)
    requires t.enqueued == s.enqueued + [r] && r.key != key
    ensures forall n: nat :: NewestOfKey(t, n, key) <==> NewestOfKey(s, n, key)
  {
    forall n: nat ensures NewestOfKey(t, n, key) <==> NewestOfKey(s, n, key) {
      if NewestOfKey(t, n, key) {
        assert n < |t.enqueued|;
        assert forall i :: n <= i < |s.enqueued| ==> s.enqueued[i] == t.enqueued[i];
      }
      if NewestOfKey(s, n, key) {
        assert forall i :: n <= i < |t.enqueued| ==> i == |s.enqueued| || t.enqueued[i] == s.enqueued[i];
      }
    }
  }

  lemma UnwrittenDangles(s: State, e: Event, key: string, v: real)
    requires Coherent(s) && !Sets(e, key) && !e.Enqueue? && !e.WriteOk? && !e.WriteFails?
    ensures Dangling(Step(s, e), key, v) <==> Dangling(s, key, v) && !Releases(s, e, key, v)
  {
    var t := Step(s, e);
    SameNewest(s, t, key);
    assert Pinned(t, key, v) ==> Pinned(s, key, v);
    if Pinned(s, key, v) { PinEndsExactlyWhenReleased(s, e, key, v); }
  }

  /** The key was last pinned by the caller itself, not by a write. */
  predicate PinnedByCaller(events: seq<Event>, key: string)
    decreases |events|
  {
    if events == [] then false
    else
      var e := events[|events| - 1];
      if Sets(e, key) then true
      else if e.Enqueue? && e.key == key then false
      else PinnedByCaller(events[..|events| - 1], key)
  }

  /** v is left pinned by a write that is gone, not by the caller. */
  ghost predicate LeftPinned(events: seq<Event>, key: string, v: real) {
    Dangling(Run(Init(), events), key, v) && !PinnedByCaller(events, key)
  }

  predicate DropsAt(events: seq<Event>, k: nat, key: string, v: real) {
    k < |events| && Drops(Run(Init(), events[..k]), events[k], key, v) && !PinnedByCaller(events[..k], key)
  }

  predicate LeavesAt(events: seq<Event>, m: nat, key: string, v: real)
    requires m < |events|
  {
    LeavesDangling(Run(Init(), events[..m]), events[m], key, v) && !Sets(events[m], key)
  }

  /** Event k dropped v, and nothing since has released or replaced it. */
  ghost predicate DroppedAndLeft(events: seq<Event>, k: nat, key: string, v: real) {
    DropsAt(events, k, key, v) && forall m: nat :: k < m < |events| ==> LeavesAt(events, m, key, v)
  }

  /** One more event leaves v pinned exactly by a drop, or by leaving what was left before. */
  lemma LeftPinnedNext(events: seq<Event>, key: string, v: real)
    requires events != []
    requires var s := Run(Init(), events[..|events| - 1]);
      && Inv(s) && NewestHeld(s) && Coherent(s)
      && (!PinnedByCaller(events[..|events| - 1], key) ==> PinIsNewest(s, key))
    ensures var front := events[..|events| - 1];
      LeftPinned(events, key, v)
      <==> DropsAt(events, |front|, key, v) || (LeftPinned(front, key, v) && LeavesAt(events, |front|, key, v))
  {
    var front, e := events[..|events| - 1], events[|events| - 1];
    if !Sets(e, key) {
      if !PinnedByCaller(front, key) {
        DanglingStep(Run(Init(), front), e, key, v);
      } else if e.Enqueue? && e.key == key {
        EnqueueDangles(Run(Init(), front), e, key, v);
      }
    }
  }

  lemma {:induction false} PinsFollowWrites(events: seq<Event>, key: string)
    ensures NewestHeld(Run(Init(), events))
    ensures !PinnedByCaller(events, key) ==> PinIsNewest(Run(Init(), events), key)
    decreases |events|
  {
    if events != [] {
      var front, e := events[..|events| - 1], events[|events| - 1];
      PinsFollowWrites(front, key);
      NewestHeldStep(Run(Init(), front), e);
      if e.Enqueue? && e.key == key {
        EnqueuedIsNewest(Run(Init(), front), e);
      } else if !PinnedByCaller(events, key) {
        PinIsNewestStep(Run(Init(), front), e, key);
      }
    }
  }

  lemma EnqueuedIsNewest(s: State, e: Event)
    requires e.Enqueue?
    ensures PinIsNewest(Step(s, e), e.key)
  {
    var t := Step(s, e);
    assert NewestOfKey(t, |t.enqueued|, e.key);
  }

  /**
   In every run a value is left pinned with no write behind it, other than by the caller's own pin, if and
   only if some failure dropped its queued write and since then nothing released or replaced it.
   */
  lemma {:induction false} DanglingIffDropped(events: seq<Event>, key: string, v: real)
    ensures LeftPinned(events, key, v) <==> exists k: nat :: DroppedAndLeft(events, k, key, v)
    decreases |events|
  {
    if events != [] {
      var front := events[..|events| - 1];
      DanglingIffDropped(front, key, v);
      EveryRun(front);
      DisplayIsCoherent(front);
      PinsFollowWrites(front, key);
      LeftPinnedNext(events, key, v);
      DroppedOneMore(events, key, v);
    }
  }

  lemma DroppedOneMore(events: seq<Event>, key: string, v: real)
    requires events != []
    ensures var front := events[..|events| - 1];
      (exists k: nat :: DroppedAndLeft(events, k, key, v))
      <==> DropsAt(events, |front|, key, v)
           || ((exists k: nat :: DroppedAndLeft(front, k, key, v)) && LeavesAt(events, |front|, key, v))
  {
    var front := events[..|events| - 1];
    forall k: nat | k < |front|
      ensures DroppedAndLeft(events, k, key, v)
              <==> DroppedAndLeft(front, k, key, v) && LeavesAt(events, |front|, key, v)
    {
      DroppedEarlier(events, k, key, v);
    }
    assert DroppedAndLeft(events, |front|, key, v) <==> DropsAt(events, |front|, key, v);
  }

  lemma DroppedEarlier(events: seq<Event>, k: nat, key: string, v: real)
    requires k < |events| - 1
    ensures var front := events[..|events| - 1];
      DroppedAndLeft(events, k, key, v) <==> DroppedAndLeft(front, k, key, v) && LeavesAt(events, |front|, key, v)
  {
    var front := events[..|events| - 1];
    SeenFromFront(events, k, key, v);
    forall m: nat | k < m < |front| ensures LeavesAt(front, m, key, v) <==> LeavesAt(events, m, key, v) {
      SeenFromFront(events, m, key, v);
    }
  }

  lemma SeenFromFront(events: seq<Event>, m: nat, key: string, v: real)
    requires m < |events| - 1
    ensures LeavesAt(events[..|events| - 1], m, key, v) <==> LeavesAt(events, m, key, v)
    ensures DropsAt(events[..|events| - 1], m, key, v) <==> DropsAt(events, m, key, v)
  {
    assert events[..|events| - 1][..m] == events[..m];
  }

  // ---- the snapshot merge, key by key ----

  datatype Cell = Cell(optimistic: Option<real>, received: Option<Received>, shown: Option<real>)

  function CellOf(s: State, k: string): Cell {
    Cell(if k in s.optimistic then Some(s.optimistic[k]) else None,
         if k in s.received then Some(s.received[k]) else None,
         if k in s.displayed then Some(s.displayed[k]) else None)
  }

  function MergeCell(c: Cell, value: real, now: real): Cell {
    if c.received.Some? && value != c.received.value.value && now < c.received.value.until then c
    else if c.optimistic.Some? && c.optimistic.value != value then Cell(c.optimistic, None, c.optimistic)
    else Cell(None, None, Some(value))
  }

  /** A snapshot acts on each key separately, so the order of the keys is irrelevant. */
  lemma SnapshotMergesEveryCell(s: State, incoming: map<string, real>, now: real, k: string)
    ensures CellOf(Step(s, Snapshot(incoming, now)), k) ==
            if k in incoming then MergeCell(CellOf(s, k), incoming[k], now) else CellOf(s, k)
  {
  }

  lemma SameCellsSameMaps(s: State, t: State)
    requires forall k :: CellOf(s, k) == CellOf(t, k)
    ensures s.optimistic == t.optimistic && s.received == t.received && s.displayed == t.displayed
  {
    forall k ensures (k in s.optimistic <==> k in t.optimistic) && (k in s.received <==> k in t.received)
                  && (k in s.displayed <==> k in t.displayed)
                  && (k in s.optimistic ==> s.optimistic[k] == t.optimistic[k])
                  && (k in s.received ==> s.received[k] == t.received[k])
                  && (k in s.displayed ==> s.displayed[k] == t.displayed[k])
    {
      assert CellOf(s, k) == CellOf(t, k);
    }
  }

  lemma MergedEverywhere(s: State, t: State, incoming: map<string, real>, now: real)
    requires forall k ::
               CellOf(t, k) == if k in incoming.Keys then MergeCell(CellOf(s, k), incoming[k], now) else CellOf(s, k)
    ensures var u := SnapshotStep(s, incoming, now);
      t.optimistic == u.optimistic && t.received == u.received && t.displayed == u.displayed
  {
    var u := SnapshotStep(s, incoming, now);
    forall k ensures CellOf(t, k) == CellOf(u, k) {
      SnapshotMergesEveryCell(s, incoming, now, k);
    }
    SameCellsSameMaps(t, u);
  }

  /** The keys in `done` have been merged, the others not yet. */
  ghost predicate MergedFor(before: State, t: State, incoming: map<string, real>, done: set<string>, now: real)
    requires done <= incoming.Keys
  {
    forall k :: CellOf(t, k) == if k in done then MergeCell(CellOf(before, k), incoming[k], now) else CellOf(before, k)
  }

  lemma MergedNext(before: State, s: State, t: State, incoming: map<string, real>, done: set<string>, key: string,
                   now: real)
    requires done <= incoming.Keys && key in incoming && key !in done && MergedFor(before, s, incoming, done, now)
    requires CellOf(t, key) == MergeCell(CellOf(s, key), incoming[key], now)
    requires forall k :: k != key ==> CellOf(t, k) == CellOf(s, k)
    ensures MergedFor(before, t, incoming, done + {key}, now)
  {
  }

  /** What MIDI input makes of a key, but for the display. */
  function ReceiveCell(c: Cell, value: real, now: real): Cell {
    Cell(None, Some(Received(value, now + RECEIVED_MS)), c.shown)
  }

  ghost predicate ReceivedFor(before: State, t: State, incoming: map<string, real>, done: set<string>, now: real)
    requires done <= incoming.Keys
  {
    forall k ::
      CellOf(t, k) == if k in done then ReceiveCell(CellOf(before, k), incoming[k], now) else CellOf(before, k)
  }

  lemma ReceivedNext(before: State, s: State, t: State, incoming: map<string, real>, done: set<string>, key: string,
                     now: real)
    requires done <= incoming.Keys && key in incoming && key !in done && ReceivedFor(before, s, incoming, done, now)
    requires CellOf(t, key) == ReceiveCell(CellOf(s, key), incoming[key], now)
    requires forall k :: k != key ==> CellOf(t, k) == CellOf(s, k)
    ensures ReceivedFor(before, t, incoming, done + {key}, now)
  {
  }

  lemma ReceivedEverywhere(before: State, t: State, incoming: map<string, real>, now: real)
    requires before.slots == map[] && ReceivedFor(before, t, incoming, incoming.Keys, now)
    ensures var u := MidiStep(before, incoming, now);
            t.optimistic == u.optimistic && t.received == u.received && t.displayed == before.displayed
  {
    var u := MidiStep(before, incoming, now).(displayed := before.displayed);
    forall k ensures CellOf(t, k) == CellOf(u, k) {
    }
    SameCellsSameMaps(t, u);
  }

  // ---- the object ----

  /** The controller closure together with the fader values its setter writes. */
  class FaderValueController {
    var optimisticValues: map<string, real>
    var slots: map<string, Slot>
    var receivedValues: map<string, Received>
    var values: map<string, real>
    ghost var enqueued: seq<Request>
    ghost var executed: seq<nat>
    ghost var completed: set<nat>
    ghost var failed: set<nat>
    ghost var resolved: set<nat>
    ghost var rejected: set<nat>
    var issued: nat   // names the next promise

    ghost function View(): State
      reads this
    {
      State(optimisticValues, receivedValues, slots, values, enqueued, executed, completed, failed, resolved, rejected)
    }

    ghost predicate Valid()
      reads this
    {
      issued == |enqueued|
    }

    constructor ()
      ensures Valid() && View() == Init()
    {
      optimisticValues, slots, receivedValues, values, issued := map[], map[], map[], map[], 0;
      enqueued, executed, completed, failed, resolved, rejected := [], [], {}, {}, {}, {};
    }

    method SetOptimistic(key: string, value: real)
      requires Valid()
      modifies `optimisticValues, `receivedValues, `values
      ensures Valid() && View() == Step(old(View()), Event.SetOptimistic(key, value))
    {
      receivedValues := receivedValues - {key};
      optimisticValues := optimisticValues[key := value];
      values := values[key := value];
    }

    method ClearOptimistic(key: string, only: Option<real>)
      requires Valid()
      modifies `optimisticValues
      ensures Valid() && View() == Step(old(View()), Event.ClearOptimistic(key, only))
    {
      if only.None? || (key in optimisticValues && optimisticValues[key] == only.value) {
        optimisticValues := optimisticValues - {key};
      }
    }

    method Enqueue(key: string, value: real) returns (id: nat)
      requires Valid()
      modifies this
      ensures Valid() && View() == Step(old(View()), Event.Enqueue(key, value)) && id == |enqueued|
    {
      SetOptimistic(key, value);
      issued := issued + 1;
      id := issued;
      enqueued := enqueued + [Request(key, value)];
      var write := Pending(id, value);
      if key in slots {
        slots := slots[key := slots[key].(next := Some(write), waiters := slots[key].waiters + [id])];
      } else {
        slots := slots[key := Slot(write, None, [id])];
        executed := executed + [id];
      }
    }

    method WriteSucceeded(key: string)
      requires Valid() && key in slots
      modifies this
      ensures Valid() && View() == Step(old(View()), WriteOk(key))
    {
      var slot := slots[key];
      completed := completed + {slot.flight.id};
      if slot.next.None? {
        resolved := resolved + ToSet(slot.waiters);
        slots := slots - {key};
      } else {
        slots := slots[key := slot.(flight := slot.next.value, next := None)];
        executed := executed + [slot.next.value.id];
      }
    }

    method WriteRejected(key: string)
      requires Valid() && key in slots
      modifies this
      ensures Valid() && View() == Step(old(View()), WriteFails(key))
    {
      var slot := slots[key];
      ClearOptimistic(key, Some(slot.flight.value));
      failed := failed + {slot.flight.id};
      rejected := rejected + ToSet(slot.waiters);
      slots := slots - {key};
    }

    /** The loop over the incoming keys, in any order. */
    method ApplyMidiInput(incoming: map<string, real>, now: real) returns (applied: bool)
      requires Valid()
      modifies `optimisticValues, `receivedValues, `values
      ensures Valid() && View() == Step(old(View()), Midi(incoming, now))
      ensures applied <==> old(slots) == map[]
    {
      if slots != map[] {
        return false;
      }
      ghost var before := View();
      var keys := incoming.Keys;
      while keys != {}
        invariant keys <= incoming.Keys
        invariant ReceivedFor(before, View(), incoming, incoming.Keys - keys, now)
        decreases keys
      {
        var key :| key in keys;
        ghost var start, done := View(), incoming.Keys - keys;
        ReceiveKey(key, Received(incoming[key], now + RECEIVED_MS));
        ReceivedNext(before, start, View(), incoming, done, key, now);
        assert incoming.Keys - (keys - {key}) == done + {key};
        keys := keys - {key};
      }
      assert incoming.Keys - keys == incoming.Keys;
      ReceivedEverywhere(before, View(), incoming, now);
      values := values + incoming;
      applied := true;
    }

    /** One pass of the loop body. */
    method ReceiveKey(key: string, entry: Received)
      modifies `optimisticValues, `receivedValues
      ensures CellOf(View(), key) == Cell(None, Some(entry), CellOf(old(View()), key).shown)
      ensures forall k :: k != key ==> CellOf(View(), k) == CellOf(old(View()), k)
    {
      optimisticValues := optimisticValues - {key};
      receivedValues := receivedValues[key := entry];
    }

    /** One pass over the snapshot's keys, in any order. */
    method MergeSnapshotValues(incoming: map<string, real>, now: real)
      requires Valid()
      modifies `optimisticValues, `receivedValues, `values
      ensures Valid() && View() == Step(old(View()), Snapshot(incoming, now))
    {
      ghost var before := View();
      var keys := incoming.Keys;
      while keys != {}
        invariant keys <= incoming.Keys
        invariant MergedFor(before, View(), incoming, incoming.Keys - keys, now)
        decreases keys
      {
        var key :| key in keys;
        ghost var start, done := View(), incoming.Keys - keys;
        MergeKey(incoming[key], key, now);
        MergedNext(before, start, View(), incoming, done, key, now);
        assert incoming.Keys - (keys - {key}) == done + {key};
        keys := keys - {key};
      }
      assert incoming.Keys - keys == incoming.Keys;
      MergedEverywhere(before, View(), incoming, now);
    }

    /** One pass of the loop body. */
    method MergeKey(value: real, key: string, now: real)
      modifies `optimisticValues, `receivedValues, `values
      ensures CellOf(View(), key) == MergeCell(CellOf(old(View()), key), value, now)
      ensures forall k :: k != key ==> CellOf(View(), k) == CellOf(old(View()), k)
    {
      if key in receivedValues && value != receivedValues[key].value && now < receivedValues[key].until {
        return;
      }
      receivedValues := receivedValues - {key};
      if key in optimisticValues && optimisticValues[key] != value {
        values := values[key := optimisticValues[key]];
      } else {
        optimisticValues := optimisticValues - {key};
        values := values[key := value];
      }
    }

    method ClearEverything()
      requires Valid()
      modifies `optimisticValues, `receivedValues
      ensures Valid() && View() == Step(old(View()), ClearAll)
    {
      optimisticValues, receivedValues := map[], map[];
    }
  }
}
