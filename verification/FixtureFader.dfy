/**
 The continuous fixture fader of app/src/continuousFixtureFader.ts: callers enqueue
 writes, one stream at a time hands them to the native transport, and a promise per
 write is settled when its stream commits or fails.

 The JavaScript runs in synchronous segments separated by `await`.  `Phase` says at which
 await the single stream chain is parked, an `Event` is one segment (a public call, or the
 segment that follows one settled await) and `Step` is what the segment does.  An event that
 does not fit the phase changes nothing, so every event sequence is a run.
 */
module FixtureFader {
  import opened Prelude

  const MAX_WAITERS: nat := 1024
  const MAX_SENT: nat := 512

  datatype Write = Write(targets: seq<(nat, string)>, value: real)
  datatype Entry = Entry(key: string, write: Write, serial: nat)
  datatype Waiter = Waiter(generation: nat, serial: nat)

  /** What was enqueued under a serial; `log[n - 1]` is the write with serial n. */
  datatype Enqueued = Enqueued(key: string, write: Write, generation: nat)

  datatype Phase =
    | Idle                                                         // no active promise
    | Scheduled(gen: nat)                                          // microtask that calls run
    | Opening(gen: nat)                                            // invoke called, stream not yet
    | Waiting(gen: nat, sent: nat, completed: nat)                 // 120 ms timer or wake
    | Sending(gen: nat, entry: Entry, sent: nat, completed: nat)   // one send outstanding
    | Committing(gen: nat, completed: nat)                         // stream returned
    | Aborting(gen: nat)                                           // stream threw
    | Failing(gen: nat)                                            // run rejected, catch pending
    | Finishing(gen: nat)                                          // finally pending

  datatype State = State(
    pending: seq<Entry>,      // the insertion-ordered map
    serial: nat,
    generation: nat,
    phase: Phase,
    waiters: seq<Waiter>,
    log: seq<Enqueued>,       // everything below is what an observer has seen so far
    sent: seq<nat>,
    delivered: set<nat>,
    resolved: set<nat>,
    rejected: set<nat>)

  datatype Event =
    | Enqueue(key: string, write: Write)
    | Cancel
    | Begin                      // run is entered
    | OpenStream                 // the transport calls the stream
    | Wake                       // the wait for input ends
    | SendOk(inTime: bool)       // send resolved; is the two second budget still open?
    | SendFails
    | TransportOk
    | TransportFails
    | Catch
    | Finally

  function Init(): State {
    State([], 0, 0, Idle, [], [], [], {}, {}, {})
  }

  // ---- the segments ----

  function WithoutKey(pending: seq<Entry>, key: string): (r: seq<Entry>)
    ensures |r| <= |pending|
    ensures forall e :: e in r <==> e in pending && e.key != key
  {
    if pending == [] then []
    else if pending[0].key == key then WithoutKey(pending[1..], key)
    else [pending[0]] + WithoutKey(pending[1..], key)
  }

  predicate Accepts(s: State) {
    |s.waiters| < MAX_WAITERS && s.serial < MAX_SAFE_INTEGER
  }

  function EnqueueStep(s: State, key: string, write: Write): State {
    if !Accepts(s) then s
    else
      var n := s.serial + 1;
      s.(serial := n,
         pending := WithoutKey(s.pending, key) + [Entry(key, write, n)],
         waiters := s.waiters + [Waiter(s.generation, n)],
         log := s.log + [Enqueued(key, write, s.generation)],
         phase := if s.phase.Idle? then Scheduled(s.generation) else s.phase)
  }

  function CancelStep(s: State): State {
    s.(generation := s.generation + 1, pending := [])
  }

  /** Takes the oldest pending write and calls send. */
  function Pop(s: State, gen: nat, sent: nat, completed: nat): State
    requires s.pending != []
  {
    s.(phase := Sending(gen, s.pending[0], sent, completed),
       pending := s.pending[1..],
       sent := s.sent + [s.pending[0].serial])
  }

  /** The head of the stream's while loop up to its next await, return or throw. */
  function StreamHead(s: State, gen: nat, sent: nat, completed: nat, inTime: bool): State {
    if !inTime || sent >= MAX_SENT then s.(phase := Committing(gen, completed))
    else if gen != s.generation then s.(phase := Aborting(gen))
    else if s.pending == [] then s.(phase := Waiting(gen, sent, completed))
    else Pop(s, gen, sent, completed)
  }

  /** The head of run's while loop. */
  function RunHead(s: State, gen: nat): State {
    s.(phase := if s.pending != [] && gen == s.generation then Opening(gen) else Finishing(gen))
  }

  lemma KeepFrom(waiters: seq<Waiter>, i: nat, gen: nat, completed: nat)
    requires i < |waiters|
    ensures Keep(waiters[i..], gen, completed)
            == (if Covered(waiters[i], gen, completed) then [] else [waiters[i]])
               + Keep(waiters[i + 1..], gen, completed)
  {
    assert waiters[i..][1..] == waiters[i + 1..];
  }

  lemma TakeOne(waiters: seq<Waiter>, i: nat, rest: seq<Waiter>)
    requires i < |waiters|
    ensures var all := waiters[..i + 1] + rest;
      && all[i] == waiters[i] && all[..i] + all[i + 1..] == waiters[..i] + rest
      && all == waiters[..i] + ([waiters[i]] + rest)
  {
  }

  predicate Covered(w: Waiter, gen: nat, completed: nat) {
    w.generation == gen && w.serial <= completed
  }

  function Keep(waiters: seq<Waiter>, gen: nat, completed: nat): (r: seq<Waiter>)
    ensures |r| <= |waiters|
    ensures forall w :: w in r <==> w in waiters && !Covered(w, gen, completed)
  {
    if waiters == [] then []
    else if Covered(waiters[0], gen, completed) then Keep(waiters[1..], gen, completed)
    else [waiters[0]] + Keep(waiters[1..], gen, completed)
  }

  function CoveredSerials(waiters: seq<Waiter>, gen: nat, completed: nat): set<nat> {
    set w | w in waiters && Covered(w, gen, completed) :: w.serial
  }

  function Begun(s: State, gen: nat): State {
    if gen != s.generation then s.(phase := Failing(gen)) else RunHead(s, gen)
  }

  function Woken(s: State, gen: nat, sent: nat, completed: nat): State {
    if gen != s.generation then s.(phase := Aborting(gen))
    else if s.pending == [] then s.(phase := Committing(gen, completed))
    else Pop(s, gen, sent, completed)
  }

  function Delivered(s: State, gen: nat, entry: Entry, sent: nat, completed: nat, inTime: bool): State {
    StreamHead(s.(delivered := s.delivered + {entry.serial}), gen, sent + 1,
               if entry.serial > completed then entry.serial else completed, inTime)
  }

  function Committed(s: State, gen: nat, completed: nat): State {
    RunHead(s.(waiters := Keep(s.waiters, gen, completed),
               resolved := s.resolved + CoveredSerials(s.waiters, gen, completed)), gen)
  }

  function Caught(s: State, gen: nat): State {
    s.(pending := if s.generation == gen then [] else s.pending,
       waiters := Keep(s.waiters, gen, s.serial),
       rejected := s.rejected + CoveredSerials(s.waiters, gen, s.serial),
       phase := Finishing(gen))
  }

  function Finished(s: State): State {
    s.(phase := if s.pending != [] then Scheduled(s.generation) else Idle)
  }

  function Step(s: State, e: Event): State {
    match e
    case Enqueue(key, write) => EnqueueStep(s, key, write)
    case Cancel => CancelStep(s)
    case Begin => if s.phase.Scheduled? then Begun(s, s.phase.gen) else s
    case OpenStream => if s.phase.Opening? then StreamHead(s, s.phase.gen, 0, 0, true) else s
    case Wake => if s.phase.Waiting? then Woken(s, s.phase.gen, s.phase.sent, s.phase.completed) else s
    case SendOk(inTime) =>
      if s.phase.Sending? then Delivered(s, s.phase.gen, s.phase.entry, s.phase.sent, s.phase.completed, inTime)
      else s
    case SendFails => if s.phase.Sending? then s.(phase := Aborting(s.phase.gen)) else s
    case TransportOk => if s.phase.Committing? then Committed(s, s.phase.gen, s.phase.completed) else s
    case TransportFails =>
      if s.phase.Opening? || s.phase.Committing? || s.phase.Aborting? then s.(phase := Failing(s.phase.gen)) else s
    case Catch => if s.phase.Failing? then Caught(s, s.phase.gen) else s
    case Finally => if s.phase.Finishing? then Finished(s) else s
  }

  function Run(s: State, events: seq<Event>): State
    decreases |events|
  {
    if events == [] then s
    else Step(Run(s, events[..|events| - 1]), events[|events| - 1])
  }

  // ---- what every reachable state satisfies ----

  ghost predicate IsPending(s: State, n: nat) {
    exists i :: 0 <= i < |s.pending| && s.pending[i].serial == n
  }

  /** A later write of the same gesture to the same key. */
  ghost predicate Superseded(log: seq<Enqueued>, n: nat) {
    1 <= n <= |log| &&
    exists m :: n <= m < |log| && log[m].key == log[n - 1].key && log[m].generation == log[n - 1].generation
  }

  function LastSent(s: State): nat {
    if s.sent == [] then 0 else s.sent[|s.sent| - 1]
  }

  predicate InFlight(s: State, n: nat) {
    s.phase.Sending? && s.phase.entry.serial == n
  }

  function Completed(p: Phase): nat {
    match p
    case Waiting(_, _, c) => c
    case Sending(_, _, _, c) => c
    case Committing(_, c) => c
    case _ => 0
  }

  /** The chain is on its way to rejecting every waiter of its generation. */
  predicate Doomed(p: Phase) {
    p.Aborting? || p.Failing?
  }

  predicate DoomedNow(s: State) {
    Doomed(s.phase) && s.phase.gen == s.generation
  }

  predicate Ascending(pending: seq<Entry>) {
    forall i, j :: 0 <= i < j < |pending| ==> pending[i].serial < pending[j].serial
  }

  predicate KeysDiffer(pending: seq<Entry>) {
    forall i, j :: 0 <= i < j < |pending| ==> pending[i].key != pending[j].key
  }

  predicate Within(pending: seq<Entry>, low: nat, high: nat) {
    forall e :: e in pending ==> low < e.serial <= high
  }

  predicate FromLog(pending: seq<Entry>, log: seq<Enqueued>, generation: nat) {
    forall e :: e in pending ==>
      1 <= e.serial <= |log| && log[e.serial - 1] == Enqueued(e.key, e.write, generation)
  }

  predicate Increasing(ns: seq<nat>) {
    forall i, j :: 0 <= i < j < |ns| ==> ns[i] < ns[j]
  }

  ghost predicate OrderInv(s: State) {
    && s.serial == |s.log|
    && Within(s.pending, LastSent(s), s.serial)
    && Ascending(s.pending)
    && KeysDiffer(s.pending)
    && FromLog(s.pending, s.log, s.generation)
    && Increasing(s.sent)
    && (forall n :: n in s.sent ==> 1 <= n <= s.serial)
    && (forall n :: n in s.delivered ==> n in s.sent)
  }

  ghost predicate PhaseInv(s: State) {
    && (!s.phase.Idle? ==> s.phase.gen <= s.generation)
    && (s.phase.Idle? ==> s.pending == [])
    && Completed(s.phase) <= LastSent(s)
    && (s.phase.Waiting? || s.phase.Sending? ==> s.phase.sent < MAX_SENT)
    && (s.phase.Sending? ==>
          && s.sent != [] && 1 <= LastSent(s) == s.phase.entry.serial <= |s.log|
          && s.log[s.phase.entry.serial - 1] ==
             Enqueued(s.phase.entry.key, s.phase.entry.write, s.phase.gen))
  }

  predicate InPushOrder(waiters: seq<Waiter>) {
    forall i, j :: 0 <= i < j < |waiters| ==> waiters[i].serial < waiters[j].serial
  }

  /** Every accepted enqueue owns one promise, unsettled, resolved or rejected. */
  ghost predicate SettleInv(s: State) {
    && WaitersFromLog(s.waiters, s.log)
    && InPushOrder(s.waiters)
    && (forall i :: 0 <= i < |s.log| ==> s.log[i].generation <= s.generation)
    && SettledOnce(s)
    && SettledFromLog(s)
    && AllOwned(s)
  }

  predicate WaitersFromLog(waiters: seq<Waiter>, log: seq<Enqueued>) {
    forall w :: w in waiters ==> 1 <= w.serial <= |log| && w.generation == log[w.serial - 1].generation
  }

  predicate SettledOnce(s: State) {
    && (forall w :: w in s.waiters ==> w.serial !in s.resolved && w.serial !in s.rejected)
    && s.resolved !! s.rejected
  }

  ghost predicate SettledFromLog(s: State) {
    forall n :: n in s.resolved || n in s.rejected ==> 1 <= n <= |s.log|
  }

  ghost predicate AllOwned(s: State) {
    forall n :: 1 <= n <= |s.log| ==> n in s.resolved || n in s.rejected || IsWaiting(s, n)
  }

  ghost predicate IsWaiting(s: State, n: nat) {
    exists i :: 0 <= i < |s.waiters| && s.waiters[i].serial == n
  }

  ghost predicate Fulfilled(s: State, n: nat) {
    n in s.delivered || Superseded(s.log, n)
  }

  /** Where the write behind an unsettled promise can be. */
  ghost predicate FateInv(s: State) {
    && (forall n :: n in s.resolved ==> Fulfilled(s, n))
    && (forall w :: w in s.waiters && w.generation == s.generation && !DoomedNow(s) ==>
          Fulfilled(s, w.serial) || InFlight(s, w.serial) || IsPending(s, w.serial))
    && (forall w :: w in s.waiters && !s.phase.Idle? && w.generation == s.phase.gen && !Doomed(s.phase) ==>
          Fulfilled(s, w.serial) || InFlight(s, w.serial) || w.serial > LastSent(s))
  }

  function LastPending(s: State): nat {
    if s.pending == [] then 0 else s.pending[|s.pending| - 1].serial
  }

  /** No lost wake-up: an unsettled promise of the current generation has work ahead of it. */
  ghost predicate WakeInv(s: State) {
    forall w :: w in s.waiters && w.generation == s.generation ==>
      || w.serial <= LastPending(s)
      || (!s.phase.Idle? && s.phase.gen == s.generation
          && (Doomed(s.phase) || w.serial <= Completed(s.phase)
              || (s.phase.Sending? && w.serial <= s.phase.entry.serial)))
  }

  ghost predicate Inv(s: State) {
    OrderInv(s) && PhaseInv(s) && SettleInv(s) && FateInv(s) && WakeInv(s)
  }

  // ---- preservation, segment by segment ----

  lemma SupersededGrows(log: seq<Enqueued>, more: Enqueued, n: nat)
    requires Superseded(log, n)
    ensures Superseded(log + [more], n)
  {
    var m :| n <= m < |log| && log[m].key == log[n - 1].key && log[m].generation == log[n - 1].generation;
    assert (log + [more])[m] == log[m] && (log + [more])[n - 1] == log[n - 1];
  }

  lemma AscendingCons(e: Entry, rest: seq<Entry>)
    requires Ascending(rest) && KeysDiffer(rest)
    requires forall f :: f in rest ==> e.serial < f.serial && e.key != f.key
    ensures Ascending([e] + rest) && KeysDiffer([e] + rest)
  {
    var r := [e] + rest;
    forall i, j | 0 <= i < j < |r| ensures r[i].serial < r[j].serial && r[i].key != r[j].key {
      assert r[j] == rest[j - 1] && r[j] in rest;
      if i > 0 { assert r[i] == rest[i - 1]; }
    }
  }

  lemma AscendingTail(pending: seq<Entry>)
    requires Ascending(pending) && KeysDiffer(pending) && pending != []
    ensures Ascending(pending[1..]) && KeysDiffer(pending[1..])
    ensures forall f :: f in pending[1..] ==> pending[0].serial < f.serial && pending[0].key != f.key
  {
  }

  lemma {:induction false} WithoutKeyKeepsOrder(pending: seq<Entry>, key: string)
    requires Ascending(pending) && KeysDiffer(pending)
    ensures Ascending(WithoutKey(pending, key)) && KeysDiffer(WithoutKey(pending, key))
  {
    if pending != [] {
      AscendingTail(pending);
      WithoutKeyKeepsOrder(pending[1..], key);
      if pending[0].key != key {
        AscendingCons(pending[0], WithoutKey(pending[1..], key));
      }
    }
  }

  lemma AscendingSnoc(rest: seq<Entry>, e: Entry)
    requires Ascending(rest) && KeysDiffer(rest)
    requires forall f :: f in rest ==> f.serial < e.serial && e.key != f.key
    ensures Ascending(rest + [e]) && KeysDiffer(rest + [e])
  {
    var r := rest + [e];
    forall i, j | 0 <= i < j < |r| ensures r[i].serial < r[j].serial && r[i].key != r[j].key {
      assert r[i] == rest[i] && r[i] in rest;
    }
  }

  lemma {:induction false} KeepKeepsOrder(waiters: seq<Waiter>, gen: nat, completed: nat)
    requires InPushOrder(waiters)
    ensures InPushOrder(Keep(waiters, gen, completed))
  {
    if waiters != [] {
      KeepKeepsOrder(waiters[1..], gen, completed);
      var rest := Keep(waiters[1..], gen, completed);
      var r := [waiters[0]] + rest;
      forall i, j | 0 <= i < j < |r| ensures r[i].serial < r[j].serial {
        assert r[j] == rest[j - 1] && rest[j - 1] in waiters[1..];
        if i > 0 { assert r[i] == rest[i - 1]; }
      }
    }
  }

  lemma LastSentBound(s: State)
    requires forall n :: n in s.sent ==> 1 <= n <= s.serial
    ensures LastSent(s) <= s.serial
  {
    if s.sent != [] { assert s.sent[|s.sent| - 1] in s.sent; }
  }

  lemma EnqueueKeepsOrder(s: State, key: string, write: Write)
    requires OrderInv(s) && Accepts(s)
    ensures OrderInv(EnqueueStep(s, key, write))
  {
    LastSentBound(s);
    WithoutKeyKeepsOrder(s.pending, key);
    var rest, e, more := WithoutKey(s.pending, key), Entry(key, write, s.serial + 1),
      Enqueued(key, write, s.generation);
    AscendingSnoc(rest, e);
    LogSnoc(rest, e, s.log, more, s.generation);
    WithinSnoc(rest, e, LastSent(s), s.serial);
    assert LastSent(EnqueueStep(s, key, write)) == LastSent(s);
  }

  lemma WithinSnoc(rest: seq<Entry>, e: Entry, low: nat, high: nat)
    requires Within(rest, low, high) && low <= high && e.serial == high + 1
    ensures Within(rest + [e], low, high + 1)
  {
  }

  lemma LogSnoc(rest: seq<Entry>, e: Entry, log: seq<Enqueued>, more: Enqueued, generation: nat)
    requires FromLog(rest, log, generation) && more == Enqueued(e.key, e.write, generation) && e.serial == |log| + 1
    ensures FromLog(rest + [e], log + [more], generation)
  {
  }

  lemma EnqueueKeepsSettle(s: State, key: string, write: Write)
    requires OrderInv(s) && SettleInv(s) && Accepts(s)
    ensures SettleInv(EnqueueStep(s, key, write))
  {
    var t := EnqueueStep(s, key, write);
    assert InPushOrder(t.waiters) by {
      forall i, j | 0 <= i < j < |t.waiters| ensures t.waiters[i].serial < t.waiters[j].serial {
        assert s.waiters[i] in s.waiters;
      }
    }
    EnqueueOwnsAll(s, key, write);
  }

  lemma EnqueueOwnsAll(s: State, key: string, write: Write)
    requires OrderInv(s) && AllOwned(s) && Accepts(s)
    ensures AllOwned(EnqueueStep(s, key, write))
  {
    var t := EnqueueStep(s, key, write);
    forall n | 1 <= n <= |t.log| ensures n in t.resolved || n in t.rejected || IsWaiting(t, n) {
      if n == t.serial {
        assert t.waiters[|s.waiters|].serial == n;
      } else if IsWaiting(s, n) {
        var i :| 0 <= i < |s.waiters| && s.waiters[i].serial == n;
        assert t.waiters[i].serial == n;
      }
    }
  }

  lemma EnqueueKeepsFulfilled(s: State, key: string, write: Write, n: nat)
    requires Accepts(s) && Fulfilled(s, n)
    ensures Fulfilled(EnqueueStep(s, key, write), n)
  {
    if Superseded(s.log, n) {
      SupersededGrows(s.log, Enqueued(key, write, s.generation), n);
    }
  }

  /** A pending write either stays pending or is superseded by the write that displaced it. */
  lemma EnqueueDisplaces(s: State, key: string, write: Write, n: nat)
    requires OrderInv(s) && Accepts(s) && IsPending(s, n)
    ensures var t := EnqueueStep(s, key, write); IsPending(t, n) || Superseded(t.log, n)
  {
    var t := EnqueueStep(s, key, write);
    var i :| 0 <= i < |s.pending| && s.pending[i].serial == n;
    var e := s.pending[i];
    assert e in s.pending;
    if e.key == key {
      assert t.log[s.serial].key == t.log[n - 1].key;
    } else {
      assert e in t.pending;
    }
  }

  lemma EnqueueKeepsFate(s: State, key: string, write: Write)
    requires OrderInv(s) && PhaseInv(s) && SettleInv(s) && FateInv(s) && Accepts(s)
    ensures FateInv(EnqueueStep(s, key, write))
  {
    var t := EnqueueStep(s, key, write);
    LastSentBound(s);
    forall n | Fulfilled(s, n) ensures Fulfilled(t, n) { EnqueueKeepsFulfilled(s, key, write, n); }
    forall w | w in t.waiters && w.generation == t.generation && !DoomedNow(t)
      ensures Fulfilled(t, w.serial) || InFlight(t, w.serial) || IsPending(t, w.serial)
    {
      if w.serial == t.serial {
        assert t.pending[|t.pending| - 1].serial == w.serial;
      } else {
        assert w in s.waiters;
        if IsPending(s, w.serial) { EnqueueDisplaces(s, key, write, w.serial); }
      }
    }
    forall w | w in t.waiters && !t.phase.Idle? && w.generation == t.phase.gen && !Doomed(t.phase)
      ensures Fulfilled(t, w.serial) || InFlight(t, w.serial) || w.serial > LastSent(t)
    {
      if w.serial != t.serial {
        assert w in s.waiters;
        if s.phase.Idle? && IsPending(s, w.serial) { assert s.pending == []; }
      }
    }
  }

  lemma EnqueueKeeps(s: State, key: string, write: Write)
    requires Inv(s)
    ensures Inv(EnqueueStep(s, key, write))
  {
    if Accepts(s) {
      EnqueueKeepsOrder(s, key, write);
      EnqueueKeepsSettle(s, key, write);
      EnqueueKeepsFate(s, key, write);
    }
  }

  lemma CancelKeeps(s: State)
    requires Inv(s)
    ensures Inv(CancelStep(s))
  {
    CancelKeepsSettle(s);
    CancelKeepsFate(s);
    assert forall w :: w in s.waiters ==> w.generation <= s.generation;
  }

  lemma CancelKeepsSettle(s: State)
    requires SettleInv(s)
    ensures SettleInv(CancelStep(s))
  {
    assert forall n :: IsWaiting(s, n) ==> IsWaiting(CancelStep(s), n);
  }

  lemma CancelKeepsFate(s: State)
    requires OrderInv(s) && PhaseInv(s) && SettleInv(s) && FateInv(s)
    ensures FateInv(CancelStep(s))
  {
    var t := CancelStep(s);
    assert forall n :: Fulfilled(s, n) ==> Fulfilled(t, n);
    assert forall w :: w in s.waiters ==> w.generation <= s.generation;
  }

  lemma PopKeeps(s: State, gen: nat, sent: nat, completed: nat)
    requires Inv(s) && s.pending != [] && gen == s.generation && !Doomed(s.phase) && !s.phase.Idle?
    requires s.phase.gen == gen && completed <= LastSent(s) && sent < MAX_SENT
    requires s.phase.Sending? ==> s.phase.entry.serial in s.delivered
    requires forall w :: w in s.waiters && w.generation == gen && w.serial <= Completed(s.phase) ==>
               w.serial <= completed
    requires s.phase.Sending? ==> s.phase.entry.serial <= completed
    ensures Inv(Pop(s, gen, sent, completed))
  {
    var t := Pop(s, gen, sent, completed);
    PopKeepsOrder(s, gen, sent, completed);
    assert t.sent[|t.sent| - 1] == s.pending[0].serial;
    assert SettleInv(t) by { assert forall n :: IsWaiting(s, n) ==> IsWaiting(t, n); }
    PopKeepsFate(s, gen, sent, completed);
  }

  lemma PopKeepsOrder(s: State, gen: nat, sent: nat, completed: nat)
    requires OrderInv(s) && s.pending != []
    ensures OrderInv(Pop(s, gen, sent, completed))
  {
    var t := Pop(s, gen, sent, completed);
    AscendingTail(s.pending);
    assert s.pending[0] in s.pending;
    forall i, j | 0 <= i < j < |t.sent| ensures t.sent[i] < t.sent[j] {
      if j == |s.sent| { assert s.sent[i] <= LastSent(s); }
    }
  }

  lemma PopKeepsFate(s: State, gen: nat, sent: nat, completed: nat)
    requires Inv(s) && s.pending != [] && gen == s.generation && !Doomed(s.phase) && !s.phase.Idle?
    requires s.phase.gen == gen && completed <= LastSent(s)
    requires s.phase.Sending? ==> s.phase.entry.serial in s.delivered
    ensures FateInv(Pop(s, gen, sent, completed))
  {
    var t := Pop(s, gen, sent, completed);
    assert forall n :: Fulfilled(s, n) ==> Fulfilled(t, n);
    forall w | w in t.waiters && w.generation == gen
      ensures Fulfilled(t, w.serial) || InFlight(t, w.serial) || (IsPending(t, w.serial) && w.serial > LastSent(t))
    {
      if IsPending(s, w.serial) {
        var i :| 0 <= i < |s.pending| && s.pending[i].serial == w.serial;
        if i > 0 { assert t.pending[i - 1].serial == w.serial; }
      }
    }
  }

  /** The segment after a send resolved, with the write counted but the loop head still ahead. */
  lemma DeliveredKeeps(s: State, inTime: bool)
    requires Inv(s) && s.phase.Sending?
    ensures var p := s.phase; Inv(Delivered(s, p.gen, p.entry, p.sent, p.completed, inTime))
  {
    var p := s.phase;
    var completed := if p.entry.serial > p.completed then p.entry.serial else p.completed;
    var mid := s.(delivered := s.delivered + {p.entry.serial});
    assert s.sent[|s.sent| - 1] in s.sent;
    assert Inv(mid) by { DeliveredMidKeeps(s); }
    StreamHeadKeeps(mid, p.gen, p.sent + 1, completed, inTime);
  }

  lemma DeliveredMidKeeps(s: State)
    requires Inv(s) && s.phase.Sending?
    ensures Inv(s.(delivered := s.delivered + {s.phase.entry.serial}))
  {
    var mid := s.(delivered := s.delivered + {s.phase.entry.serial});
    assert s.sent[|s.sent| - 1] in s.sent;
    assert AllOwned(mid) by { assert forall n :: IsWaiting(s, n) ==> IsWaiting(mid, n); }
    assert FateInv(mid) by {
      assert forall n :: Fulfilled(s, n) ==> Fulfilled(mid, n);
      assert forall n :: IsPending(s, n) ==> IsPending(mid, n);
    }
  }

  /** Leaves the stream's loop, or goes round it once more. */
  lemma StreamHeadKeeps(s: State, gen: nat, sent: nat, completed: nat, inTime: bool)
    requires Inv(s) && !s.phase.Idle? && s.phase.gen == gen && !Doomed(s.phase)
    requires completed <= LastSent(s)
    requires s.phase.Sending? ==> s.phase.entry.serial in s.delivered && s.phase.entry.serial <= completed
    requires Completed(s.phase) <= completed
    ensures Inv(StreamHead(s, gen, sent, completed, inTime))
  {
    if inTime && sent < MAX_SENT && gen == s.generation && s.pending != [] {
      PopKeeps(s, gen, sent, completed);
    } else if !inTime || sent >= MAX_SENT {
      RephaseKeeps(s, Committing(gen, completed));
    } else if gen != s.generation {
      RephaseKeeps(s, Aborting(gen));
    } else {
      RephaseKeeps(s, Waiting(gen, sent, completed));
    }
  }

  /** Moving the chain on without touching anything else. */
  lemma RephaseKeeps(s: State, p: Phase)
    requires Inv(s) && !s.phase.Idle? && !p.Idle? && !p.Sending? && p.gen == s.phase.gen
    requires Completed(s.phase) <= Completed(p) <= LastSent(s) || Doomed(p)
             || (forall w :: w in s.waiters && w.generation == s.generation ==>
                   w.serial <= LastPending(s) || s.phase.gen != s.generation)
    requires Completed(p) <= LastSent(s)
    requires Doomed(s.phase) ==> Doomed(p)
    requires p.Waiting? ==> p.sent < MAX_SENT
    requires s.phase.Sending? && !Doomed(p) ==>
               s.phase.entry.serial in s.delivered && s.phase.entry.serial <= Completed(p)
    ensures Inv(s.(phase := p))
  {
    var t := s.(phase := p);
    assert AllOwned(t) by { assert forall n :: IsWaiting(s, n) ==> IsWaiting(t, n); }
    RephaseKeepsFate(s, p);
  }

  lemma RephaseKeepsFate(s: State, p: Phase)
    requires Inv(s) && !s.phase.Idle? && !p.Idle? && !p.Sending? && p.gen == s.phase.gen
    requires Doomed(s.phase) ==> Doomed(p)
    requires s.phase.Sending? && !Doomed(p) ==> s.phase.entry.serial in s.delivered
    ensures FateInv(s.(phase := p))
  {
    var t := s.(phase := p);
    assert forall n :: Fulfilled(s, n) ==> Fulfilled(t, n);
    assert forall n :: IsPending(s, n) ==> IsPending(t, n);
    forall w | w in s.waiters && InFlight(s, w.serial) ensures w.generation == s.phase.gen { }
  }

  lemma RunHeadKeeps(s: State, gen: nat)
    requires Inv(s) && !s.phase.Idle? && s.phase.gen == gen && !Doomed(s.phase) && !s.phase.Sending?
    requires forall w :: w in s.waiters && w.generation == gen ==> w.serial > Completed(s.phase)
    ensures Inv(RunHead(s, gen))
  {
    RephaseKeeps(s, if s.pending != [] && gen == s.generation then Opening(gen) else Finishing(gen));
  }

  /** The waiters up to `completed` are taken off the list and settled. */
  function Settled(s: State, gen: nat, completed: nat, resolve: bool): State {
    var gone := CoveredSerials(s.waiters, gen, completed);
    s.(waiters := Keep(s.waiters, gen, completed),
       resolved := if resolve then s.resolved + gone else s.resolved,
       rejected := if resolve then s.rejected else s.rejected + gone)
  }

  lemma SettledKeepsSettle(s: State, gen: nat, completed: nat, resolve: bool)
    requires SettleInv(s)
    ensures SettleInv(Settled(s, gen, completed, resolve))
  {
    KeepKeepsOrder(s.waiters, gen, completed);
    SettledIsOnce(s, gen, completed, resolve);
    SettledOwnsAll(s, gen, completed, resolve);
  }

  lemma SettledIsOnce(s: State, gen: nat, completed: nat, resolve: bool)
    requires SettledOnce(s) && InPushOrder(s.waiters)
    ensures SettledOnce(Settled(s, gen, completed, resolve))
  {
    forall w | w in Keep(s.waiters, gen, completed) ensures w.serial !in CoveredSerials(s.waiters, gen, completed) {
      SerialsDiffer(s, w, gen, completed);
    }
  }

  lemma SettledOwnsAll(s: State, gen: nat, completed: nat, resolve: bool)
    requires AllOwned(s)
    ensures AllOwned(Settled(s, gen, completed, resolve))
  {
    var t := Settled(s, gen, completed, resolve);
    forall n | 1 <= n <= |t.log| ensures n in t.resolved || n in t.rejected || IsWaiting(t, n) {
      if IsWaiting(s, n) {
        var i :| 0 <= i < |s.waiters| && s.waiters[i].serial == n;
        var w := s.waiters[i];
        assert w in s.waiters;
        if !Covered(w, gen, completed) {
          assert w in t.waiters;
        } else {
          assert n in CoveredSerials(s.waiters, gen, completed);
        }
      }
    }
  }

  lemma SerialsDiffer(s: State, w: Waiter, gen: nat, completed: nat)
    requires InPushOrder(s.waiters) && w in Keep(s.waiters, gen, completed)
    ensures w.serial !in CoveredSerials(s.waiters, gen, completed)
  {
  }

  lemma CommittedKeeps(s: State)
    requires Inv(s) && s.phase.Committing?
    ensures Inv(Committed(s, s.phase.gen, s.phase.completed))
  {
    var mid := Settled(s, s.phase.gen, s.phase.completed, true);
    SettledKeepsSettle(s, s.phase.gen, s.phase.completed, true);
    CommittedKeepsFate(s);
    assert WakeInv(mid);
    RunHeadKeeps(mid, s.phase.gen);
  }

  lemma CommittedKeepsFate(s: State)
    requires Inv(s) && s.phase.Committing?
    ensures FateInv(Settled(s, s.phase.gen, s.phase.completed, true))
  {
    var mid := Settled(s, s.phase.gen, s.phase.completed, true);
    assert forall n :: Fulfilled(s, n) ==> Fulfilled(mid, n);
    assert forall n :: IsPending(s, n) ==> IsPending(mid, n);
    forall n | n in CoveredSerials(s.waiters, s.phase.gen, s.phase.completed) ensures Fulfilled(s, n) {
      var w :| w in s.waiters && Covered(w, s.phase.gen, s.phase.completed) && w.serial == n;
    }
  }

  lemma CaughtKeeps(s: State)
    requires Inv(s) && s.phase.Failing?
    ensures Inv(Caught(s, s.phase.gen))
  {
    CaughtKeepsOrder(s);
    CaughtKeepsSettle(s);
    CaughtEmpties(s);
    CaughtKeepsFate(s);
    CaughtKeepsWake(s);
  }

  lemma CaughtKeepsOrder(s: State)
    requires OrderInv(s) && PhaseInv(s) && s.phase.Failing?
    ensures OrderInv(Caught(s, s.phase.gen)) && PhaseInv(Caught(s, s.phase.gen))
  {
    var t := Caught(s, s.phase.gen);
    assert t.sent == s.sent && t.log == s.log && LastSent(t) == LastSent(s);
    if s.generation == s.phase.gen {
      assert t.pending == [];
    } else {
      assert t.pending == s.pending;
    }
  }

  lemma CaughtEmpties(s: State)
    requires OrderInv(s) && SettleInv(s)
    ensures forall w :: w in Keep(s.waiters, s.phase.gen, s.serial) ==> w.generation != s.phase.gen
    requires s.phase.Failing?
  {
    assert forall w :: w in s.waiters ==> w.serial <= s.serial;
  }

  lemma CaughtKeepsWake(s: State)
    requires WakeInv(s) && s.phase.Failing?
    requires forall w :: w in Keep(s.waiters, s.phase.gen, s.serial) ==> w.generation != s.phase.gen
    ensures WakeInv(Caught(s, s.phase.gen))
  {
  }

  lemma CaughtKeepsSettle(s: State)
    requires OrderInv(s) && SettleInv(s) && s.phase.Failing?
    ensures SettleInv(Caught(s, s.phase.gen))
  {
    var t := Caught(s, s.phase.gen);
    SettledKeepsSettle(s, s.phase.gen, s.serial, false);
    var mid := Settled(s, s.phase.gen, s.serial, false);
    assert forall n :: IsWaiting(mid, n) ==> IsWaiting(t, n);
  }

  lemma CaughtKeepsFate(s: State)
    requires Inv(s) && s.phase.Failing?
    requires forall w :: w in Keep(s.waiters, s.phase.gen, s.serial) ==> w.generation != s.phase.gen
    ensures FateInv(Caught(s, s.phase.gen))
  {
    var t := Caught(s, s.phase.gen);
    assert forall n :: Fulfilled(s, n) ==> Fulfilled(t, n);
    if s.generation != s.phase.gen {
      assert forall n :: IsPending(s, n) ==> IsPending(t, n);
    }
  }

  lemma FinishedKeeps(s: State)
    requires Inv(s) && s.phase.Finishing?
    ensures Inv(Finished(s))
  {
    var t := Finished(s);
    assert AllOwned(t) by { assert forall n :: IsWaiting(s, n) ==> IsWaiting(t, n); }
    FinishedKeepsFate(s);
    FinishedKeepsWake(s);
  }

  lemma FinishedKeepsFate(s: State)
    requires Inv(s) && s.phase.Finishing?
    ensures FateInv(Finished(s))
  {
    var t := Finished(s);
    assert forall n :: Fulfilled(s, n) ==> Fulfilled(t, n);
    assert forall n :: IsPending(s, n) ==> IsPending(t, n);
    forall w | w in t.waiters && w.generation == s.generation && IsPending(s, w.serial)
      ensures w.serial > LastSent(t)
    {
      var i :| 0 <= i < |s.pending| && s.pending[i].serial == w.serial;
      assert s.pending[i] in s.pending;
    }
  }

  lemma FinishedKeepsWake(s: State)
    requires PhaseInv(s) && SettleInv(s) && WakeInv(s) && s.phase.Finishing?
    ensures WakeInv(Finished(s))
  {
    assert forall w :: w in s.waiters && w.generation == s.generation ==> w.serial <= LastPending(s);
  }

  lemma StepKeeps(s: State, e: Event)
    requires Inv(s)
    ensures Inv(Step(s, e))
  {
    match e
    case Enqueue(key, write) => EnqueueKeeps(s, key, write);
    case Cancel => CancelKeeps(s);
    case Begin =>
      if s.phase.Scheduled? {
        if s.phase.gen != s.generation { RephaseKeeps(s, Failing(s.phase.gen)); } else { RunHeadKeeps(s, s.phase.gen); }
      }
    case OpenStream => if s.phase.Opening? { StreamHeadKeeps(s, s.phase.gen, 0, 0, true); }
    case Wake =>
      if s.phase.Waiting? {
        if s.phase.gen != s.generation { RephaseKeeps(s, Aborting(s.phase.gen)); }
        else if s.pending == [] { RephaseKeeps(s, Committing(s.phase.gen, s.phase.completed)); }
        else { PopKeeps(s, s.phase.gen, s.phase.sent, s.phase.completed); }
      }
    case SendOk(inTime) => if s.phase.Sending? { DeliveredKeeps(s, inTime); }
    case SendFails => if s.phase.Sending? { RephaseKeeps(s, Aborting(s.phase.gen)); }
    case TransportOk => if s.phase.Committing? { CommittedKeeps(s); }
    case TransportFails =>
      if s.phase.Opening? || s.phase.Committing? || s.phase.Aborting? { RephaseKeeps(s, Failing(s.phase.gen)); }
    case Catch => if s.phase.Failing? { CaughtKeeps(s); }
    case Finally => if s.phase.Finishing? { FinishedKeeps(s); }
  }

  /** The invariant holds after every run. */
  lemma {:induction false} EveryRun(events: seq<Event>)
    ensures Inv(Run(Init(), events))
    decreases |events|
  {
    if events != [] {
      EveryRun(events[..|events| - 1]);
      StepKeeps(Run(Init(), events[..|events| - 1]), events[|events| - 1]);
    }
  }

  // ---- what the runs promise ----

  ghost predicate SentInOrder(s: State) {
    && Increasing(s.sent)
    && (forall e, n :: e in s.pending && n in s.sent ==> n < e.serial)
    && FromLog(s.pending, s.log, s.generation)
    && (s.phase.Sending? ==>
          && s.sent != [] && s.phase.entry.serial == s.sent[|s.sent| - 1]
          && FromLog([s.phase.entry], s.log, s.phase.gen))
  }

  /**
   Writes leave in strictly increasing serial order, whatever is still pending is newer than
   all of them, and both carry exactly what was enqueued under that serial.
   */
  lemma WritesLeaveInSerialOrder(events: seq<Event>)
    ensures SentInOrder(Run(Init(), events))
  {
    EveryRun(events);
    InvSendsInOrder(Run(Init(), events));
  }

  lemma InvSendsInOrder(s: State)
    requires Inv(s)
    ensures SentInOrder(s)
  {
    forall n | n in s.sent ensures n <= LastSent(s) {
      var i :| 0 <= i < |s.sent| && s.sent[i] == n;
      assert i < |s.sent| - 1 ==> s.sent[i] < s.sent[|s.sent| - 1];
    }
  }

  /** Every accepted enqueue is unsettled, resolved or rejected, and never two of these. */
  lemma SettledAtMostOnce(events: seq<Event>, n: nat)
    requires 1 <= n <= Run(Init(), events).serial
    ensures var s := Run(Init(), events);
      && (IsWaiting(s, n) || n in s.resolved || n in s.rejected)
      && !(n in s.resolved && n in s.rejected)
      && (IsWaiting(s, n) ==> n !in s.resolved && n !in s.rejected)
  {
    EveryRun(events);
    var s := Run(Init(), events);
    if IsWaiting(s, n) {
      var i :| 0 <= i < |s.waiters| && s.waiters[i].serial == n;
      assert s.waiters[i] in s.waiters;
    }
  }

  /** A settled promise stays settled the same way. */
  lemma SettledForGood(s: State, e: Event)
    requires Inv(s)
    ensures s.resolved <= Step(s, e).resolved && s.rejected <= Step(s, e).rejected
  {
  }

  /** A resolved promise means its write was acknowledged or a newer write to the key replaced it. */
  lemma ResolvedIsFulfilled(events: seq<Event>, n: nat)
    requires n in Run(Init(), events).resolved
    ensures var s := Run(Init(), events); n in s.delivered || Superseded(s.log, n)
  {
    EveryRun(events);
  }

  /**
   Generation isolation of one segment: a write that leaves belongs to the generation of the
   running stream, which is then the current one, and only promises of the running stream's
   generation are settled.
   */
  lemma StreamStaysInItsGeneration(s: State, e: Event)
    requires Inv(s)
    ensures var t := Step(s, e);
      && (t.sent == s.sent || (t.sent == s.sent + [LastSent(t)] && t.phase.Sending?
            && t.phase.gen == s.phase.gen == s.generation
            && s.log[LastSent(t) - 1].generation == s.generation))
      && (forall n :: n in t.resolved - s.resolved || n in t.rejected - s.rejected ==>
            !s.phase.Idle? && s.log[n - 1].generation == s.phase.gen)
  {
    if s.pending != [] { assert s.pending[0] in s.pending; }
  }

  /** An unsettled promise no running or future stream will ever settle. */
  ghost predicate Stranded(s: State, w: Waiter) {
    && w in s.waiters && w.generation < s.generation
    && (s.phase.Idle? || s.phase.gen != w.generation || s.phase.Finishing?)
  }

  /**
   The two segments that strand promises: a stream that returned before the cancellation
   commits without covering a later promise of its generation, or a cancel arrives when the
   current generation has unsettled promises but no stream of its own in progress.
   */
  predicate Strands(s: State, e: Event) {
    match e
    case TransportOk =>
      s.phase.Committing? && s.phase.gen != s.generation
      && exists w :: w in s.waiters && w.generation == s.phase.gen && w.serial > s.phase.completed
    case Cancel =>
      (s.phase.Idle? || s.phase.gen != s.generation || s.phase.Finishing?)
      && exists w :: w in s.waiters && w.generation == s.generation
    case _ => false
  }

  ghost predicate AnyStranded(s: State) {
    exists w :: Stranded(s, w)
  }

  lemma StrandedStays(s: State, e: Event, w: Waiter)
    requires Inv(s) && Stranded(s, w)
    ensures Stranded(Step(s, e), w)
  {
  }

  lemma StrandsExactly(s: State, e: Event)
    requires Inv(s)
    ensures AnyStranded(Step(s, e)) <==> AnyStranded(s) || Strands(s, e)
  {
    var t := Step(s, e);
    forall w | Stranded(s, w) ensures Stranded(t, w) { StrandedStays(s, e, w); }
    if Strands(s, e) {
      if e.Cancel? {
        var w :| w in s.waiters && w.generation == s.generation;
        assert Stranded(t, w);
      } else {
        var w :| w in s.waiters && w.generation == s.phase.gen && w.serial > s.phase.completed;
        assert w in Keep(s.waiters, s.phase.gen, s.phase.completed);
        assert Stranded(t, w);
      }
    }
    forall w | Stranded(t, w) && !Stranded(s, w) ensures Strands(s, e) { StrandedNeedsStrands(s, e, w); }
  }

  lemma StrandedNeedsStrands(s: State, e: Event, w: Waiter)
    requires Inv(s) && Stranded(Step(s, e), w) && !Stranded(s, w)
    ensures Strands(s, e)
  {
    var t := Step(s, e);
    assert forall v :: v in s.waiters ==> v.generation <= s.generation;
    assert w.generation != t.generation;
    assert w in s.waiters;
  }

  ghost predicate EverStrands(events: seq<Event>) {
    exists i :: 0 <= i < |events| && Strands(Run(Init(), events[..i]), events[i])
  }

  lemma EverStrandsSnoc(front: seq<Event>, e: Event)
    ensures EverStrands(front + [e]) <==> EverStrands(front) || Strands(Run(Init(), front), e)
  {
    var events := front + [e];
    assert events[..|front|] == front;
    forall i | 0 <= i < |front| ensures front[..i] == events[..i] && front[i] == events[i] { }
    if EverStrands(front) {
      var i :| 0 <= i < |front| && Strands(Run(Init(), front[..i]), front[i]);
      assert Strands(Run(Init(), events[..i]), events[i]);
    }
    if Strands(Run(Init(), front), e) {
      assert Strands(Run(Init(), events[..|front|]), events[|front|]);
    }
  }

  lemma {:induction false} StrandedIffEverStrands(events: seq<Event>)
    ensures AnyStranded(Run(Init(), events)) <==> EverStrands(events)
    decreases |events|
  {
    if events != [] {
      var front, e := events[..|events| - 1], events[|events| - 1];
      assert events == front + [e];
      StrandedIffEverStrands(front);
      EveryRun(front);
      StrandsExactly(Run(Init(), front), e);
      EverStrandsSnoc(front, e);
    }
  }

  /**
   When the chain is idle nothing is pending, and every promise has been settled if and only if
   no segment of the run stranded one.
   */
  lemma IdleIsSettledIffNeverStranded(events: seq<Event>)
    requires Run(Init(), events).phase.Idle?
    ensures Run(Init(), events).pending == []
    ensures Run(Init(), events).waiters == [] <==> !EverStrands(events)
  {
    var s := Run(Init(), events);
    EveryRun(events);
    StrandedIffEverStrands(events);
    if s.waiters != [] {
      assert s.waiters[0] in s.waiters;
      assert Stranded(s, s.waiters[0]);
    }
  }

  lemma {:induction false} WithoutCancelOneGeneration(events: seq<Event>)
    requires Cancel !in events
    ensures Run(Init(), events).generation == 0
    decreases |events|
  {
    if events != [] {
      var front, e := events[..|events| - 1], events[|events| - 1];
      assert e in events && forall x :: x in front ==> x in events;
      WithoutCancelOneGeneration(front);
      OnlyCancelEndsAGeneration(Run(Init(), front), e);
    }
  }

  lemma OnlyCancelEndsAGeneration(s: State, e: Event)
    ensures Step(s, e).generation == if e.Cancel? then s.generation + 1 else s.generation
  {
  }

  /** No lost wake-up: in a run without cancel, idle means every promise is settled. */
  lemma WithoutCancelIdleIsSettled(events: seq<Event>)
    requires Cancel !in events && Run(Init(), events).phase.Idle?
    ensures Run(Init(), events).pending == [] && Run(Init(), events).waiters == []
  {
    IdleIsSettledIffNeverStranded(events);
    if EverStrands(events) {
      var i :| 0 <= i < |events| && Strands(Run(Init(), events[..i]), events[i]);
      assert events[i] != Cancel;
      WithoutCancelOneGeneration(events[..i]);
      EveryRun(events[..i]);
    }
  }

  predicate Benign(e: Event) {
    !e.Cancel? && !e.SendFails? && !e.TransportFails?
  }

  ghost predicate NothingLost(s: State) {
    && s.generation == 0 && !Doomed(s.phase)
    && (forall n :: 1 <= n <= |s.log| ==> Fulfilled(s, n) || InFlight(s, n) || IsPending(s, n))
  }

  lemma BenignKeepsEverything(s: State, e: Event)
    requires Inv(s) && NothingLost(s) && Benign(e)
    ensures NothingLost(Step(s, e))
  {
    var t := Step(s, e);
    forall n | 1 <= n <= |t.log| ensures Fulfilled(t, n) || InFlight(t, n) || IsPending(t, n) {
      if n <= |s.log| {
        BenignKeepsWrite(s, e, n);
      } else {
        assert t.pending[|t.pending| - 1].serial == n;
      }
    }
  }

  lemma BenignKeepsWrite(s: State, e: Event, n: nat)
    requires Inv(s) && NothingLost(s) && Benign(e) && 1 <= n <= |s.log|
    ensures var t := Step(s, e); Fulfilled(t, n) || InFlight(t, n) || IsPending(t, n)
  {
    if e.Enqueue? && Accepts(s) {
      EnqueueKeepsWrite(s, e.key, e.write, n);
    } else if IsPending(s, n) {
      BenignKeepsPending(s, e, n);
    }
  }

  lemma EnqueueKeepsWrite(s: State, key: string, write: Write, n: nat)
    requires Inv(s) && NothingLost(s) && Accepts(s) && 1 <= n <= |s.log|
    ensures var t := EnqueueStep(s, key, write); Fulfilled(t, n) || InFlight(t, n) || IsPending(t, n)
  {
    if Fulfilled(s, n) { EnqueueKeepsFulfilled(s, key, write, n); }
    else if IsPending(s, n) { EnqueueDisplaces(s, key, write, n); }
  }

  lemma BenignKeepsPending(s: State, e: Event, n: nat)
    requires Inv(s) && NothingLost(s) && Benign(e) && IsPending(s, n) && !(e.Enqueue? && Accepts(s))
    ensures var t := Step(s, e); InFlight(t, n) || IsPending(t, n)
  {
    var t := Step(s, e);
    var i :| 0 <= i < |s.pending| && s.pending[i].serial == n;
    if t.pending == s.pending { assert t.pending[i].serial == n; }
    else if i > 0 { assert t.pending[i - 1].serial == n; }
  }

  lemma {:induction false} BenignRunLosesNothing(events: seq<Event>)
    requires forall e :: e in events ==> Benign(e)
    ensures NothingLost(Run(Init(), events))
    decreases |events|
  {
    if events != [] {
      var front := events[..|events| - 1];
      assert forall e :: e in front ==> e in events;
      BenignRunLosesNothing(front);
      EveryRun(front);
      assert events[|events| - 1] in events;
      BenignKeepsEverything(Run(Init(), front), events[|events| - 1]);
    }
  }

  predicate Newest(log: seq<Enqueued>, n: nat) {
    1 <= n <= |log| && forall m :: n <= m < |log| ==> log[m].key != log[n - 1].key
  }

  lemma NewestIsDelivered(s: State, n: nat)
    requires Inv(s) && NothingLost(s) && s.phase.Idle? && Newest(s.log, n)
    ensures n in s.delivered
  {
    assert !IsPending(s, n);
    assert !Superseded(s.log, n);
  }

  /** Without cancellation or failure, the newest write of every key has arrived when idle. */
  lemma LastWriteArrives(events: seq<Event>, n: nat)
    requires forall e :: e in events ==> Benign(e)
    requires Run(Init(), events).phase.Idle? && Newest(Run(Init(), events).log, n)
    ensures n in Run(Init(), events).delivered
  {
    EveryRun(events);
    BenignRunLosesNothing(events);
    NewestIsDelivered(Run(Init(), events), n);
  }

  // ---- exactly what is queued, sent and settled ----

  /** Accepted for the present gesture, and neither sent, nor rejected, nor replaced. */
  ghost predicate Unserved(s: State, n: nat) {
    && 1 <= n <= |s.log| && s.log[n - 1].generation == s.generation
    && n !in s.sent && n !in s.rejected && !Superseded(s.log, n)
  }

  ghost predicate QueueInv(s: State) {
    && (forall e :: e in s.pending ==> Unserved(s, e.serial))
    && (forall n :: Unserved(s, n) ==> IsPending(s, n))
  }

  lemma QueueFrame(s: State, t: State)
    requires QueueInv(s) && t.pending == s.pending && t.log == s.log && t.sent == s.sent && t.rejected == s.rejected
    requires t.generation == s.generation
    ensures QueueInv(t)
  {
    assert forall n :: Unserved(t, n) ==> Unserved(s, n);
    assert forall n :: IsPending(s, n) ==> IsPending(t, n);
  }

  lemma EnqueueKeepsQueue(s: State, key: string, write: Write)
    requires Inv(s) && QueueInv(s) && Accepts(s)
    ensures QueueInv(EnqueueStep(s, key, write))
  {
    var t := EnqueueStep(s, key, write);
    forall e | e in t.pending ensures Unserved(t, e.serial) { EnqueueKeepsUnserved(s, key, write, e); }
    forall n | Unserved(t, n) ensures IsPending(t, n) {
      if n == t.serial {
        assert t.pending[|t.pending| - 1].serial == n;
      } else {
        EnqueueKeepsPending(s, key, write, n);
      }
    }
  }

  lemma EnqueueKeepsUnserved(s: State, key: string, write: Write, e: Entry)
    requires Inv(s) && QueueInv(s) && Accepts(s) && e in EnqueueStep(s, key, write).pending
    ensures Unserved(EnqueueStep(s, key, write), e.serial)
  {
    var t := EnqueueStep(s, key, write);
    if e.serial == t.serial {
      LastSentBound(s);
    } else {
      assert e in WithoutKey(s.pending, key) && Unserved(s, e.serial);
      NewKeySupersedesNoOther(s.log, Enqueued(key, write, s.generation), e.serial);
    }
  }

  lemma NewKeySupersedesNoOther(log: seq<Enqueued>, more: Enqueued, n: nat)
    requires 1 <= n <= |log| && log[n - 1].key != more.key
    ensures Superseded(log + [more], n) ==> Superseded(log, n)
  {
    if Superseded(log + [more], n) {
      var m :| n <= m < |log| + 1 && (log + [more])[m].key == (log + [more])[n - 1].key
               && (log + [more])[m].generation == (log + [more])[n - 1].generation;
      assert m < |log| && log[m].key == log[n - 1].key;
    }
  }

  lemma EnqueueKeepsPending(s: State, key: string, write: Write, n: nat)
    requires Inv(s) && QueueInv(s) && Accepts(s) && n <= |s.log| && Unserved(EnqueueStep(s, key, write), n)
    ensures IsPending(EnqueueStep(s, key, write), n)
  {
    if Superseded(s.log, n) { SupersededGrows(s.log, Enqueued(key, write, s.generation), n); }
    assert Unserved(s, n);
    EnqueueDisplaces(s, key, write, n);
  }

  lemma CancelKeepsQueue(s: State)
    requires Inv(s)
    ensures QueueInv(CancelStep(s))
  {
  }

  lemma PopKeepsQueue(s: State, gen: nat, sent: nat, completed: nat)
    requires Inv(s) && QueueInv(s) && s.pending != []
    ensures QueueInv(Pop(s, gen, sent, completed))
  {
    var t := Pop(s, gen, sent, completed);
    AscendingTail(s.pending);
    forall e | e in t.pending ensures Unserved(t, e.serial) { assert Unserved(s, e.serial); }
    forall n | Unserved(t, n) ensures IsPending(t, n) {
      assert Unserved(s, n);
      var i :| 0 <= i < |s.pending| && s.pending[i].serial == n;
      assert i > 0 && t.pending[i - 1].serial == n;
    }
  }

  lemma CaughtKeepsQueue(s: State)
    requires Inv(s) && QueueInv(s) && s.phase.Failing?
    ensures QueueInv(Caught(s, s.phase.gen))
  {
    var t, gen := Caught(s, s.phase.gen), s.phase.gen;
    forall n | Unserved(t, n) ensures IsPending(t, n) { CaughtLeavesPending(s, n); }
    forall e | e in t.pending ensures Unserved(t, e.serial) {
      assert Unserved(s, e.serial);
      CaughtRejectsItsOwn(s, e.serial);
    }
  }

  /** The promise of serial n is unsettled and of that gesture. */
  ghost predicate WaitingOf(s: State, n: nat, gen: nat) {
    IsWaiting(s, n) && 1 <= n <= |s.log| && s.log[n - 1].generation == gen
  }

  /** What a failure rejects are the waiting promises of its generation. */
  lemma CaughtRejectsItsOwn(s: State, n: nat)
    requires s.phase.Failing? && WaitersFromLog(s.waiters, s.log) && s.serial == |s.log|
    ensures n in Caught(s, s.phase.gen).rejected <==> n in s.rejected || WaitingOf(s, n, s.phase.gen)
  {
    var gen := s.phase.gen;
    if n in CoveredSerials(s.waiters, gen, s.serial) {
      var w :| w in s.waiters && Covered(w, gen, s.serial) && w.serial == n;
      WaitingIn(s, w);
    }
    if IsWaiting(s, n) {
      var i :| 0 <= i < |s.waiters| && s.waiters[i].serial == n;
      assert s.waiters[i] in s.waiters;
    }
  }

  lemma WaitingIn(s: State, w: Waiter)
    requires w in s.waiters
    ensures IsWaiting(s, w.serial)
  {
    var i :| 0 <= i < |s.waiters| && s.waiters[i] == w;
    assert s.waiters[i].serial == w.serial;
  }

  lemma CaughtLeavesPending(s: State, n: nat)
    requires Inv(s) && QueueInv(s) && s.phase.Failing? && Unserved(Caught(s, s.phase.gen), n)
    ensures IsPending(Caught(s, s.phase.gen), n)
  {
    var t := Caught(s, s.phase.gen);
    CaughtRejectsItsOwn(s, n);
    assert Unserved(s, n);
    assert n in s.resolved ==> Fulfilled(s, n);
    if s.generation == s.phase.gen {
      assert false;
    } else {
      assert t.pending == s.pending && IsPending(s, n);
    }
  }

  lemma StepKeepsQueue(s: State, e: Event)
    requires Inv(s) && QueueInv(s)
    ensures QueueInv(Step(s, e))
  {
    match e
    case Enqueue(key, write) => if Accepts(s) { EnqueueKeepsQueue(s, key, write); }
    case Cancel => CancelKeepsQueue(s);
    case Catch => if s.phase.Failing? { CaughtKeepsQueue(s); }
    case _ => StreamKeepsQueue(s, e);
  }

  lemma StreamKeepsQueue(s: State, e: Event)
    requires Inv(s) && QueueInv(s) && !e.Enqueue? && !e.Cancel? && !e.Catch?
    ensures QueueInv(Step(s, e))
  {
    if Step(s, e).sent != s.sent { PopsQueue(s, e); } else { OthersKeepQueue(s, e); }
  }

  lemma PopsQueue(s: State, e: Event)
    requires Inv(s) && QueueInv(s) && Step(s, e).sent != s.sent
    ensures QueueInv(Step(s, e))
  {
    var t := Step(s, e);
    PopKeepsQueue(s, s.generation, 0, 0);
    QueueFrame(Pop(s, s.generation, 0, 0), t);
  }

  lemma OthersKeepQueue(s: State, e: Event)
    requires QueueInv(s) && !e.Enqueue? && !e.Cancel? && !e.Catch? && Step(s, e).sent == s.sent
    ensures QueueInv(Step(s, e))
  {
    QueueFrame(s, Step(s, e));
  }

  lemma {:induction false} EveryRunQueues(events: seq<Event>)
    ensures QueueInv(Run(Init(), events))
    decreases |events|
  {
    if events != [] {
      EveryRun(events[..|events| - 1]);
      EveryRunQueues(events[..|events| - 1]);
      StepKeepsQueue(Run(Init(), events[..|events| - 1]), events[|events| - 1]);
    }
  }

  /**
   Over every run the writes waiting to be sent are exactly those accepted for the present gesture that were
   not sent, not replaced by a newer write to their key and whose promise was not rejected.
   */
  lemma PendingIsExactly(events: seq<Event>, n: nat)
    ensures var s := Run(Init(), events); IsPending(s, n) <==> Unserved(s, n)
  {
    var s := Run(Init(), events);
    EveryRunQueues(events);
    if IsPending(s, n) {
      var i :| 0 <= i < |s.pending| && s.pending[i].serial == n;
      assert s.pending[i] in s.pending;
    }
  }

  lemma SendsUnserved(s: State, e: Event)
    requires Inv(s) && QueueInv(s)
    ensures var t := Step(s, e);
      && s.rejected <= t.rejected
      && (t.sent == s.sent
          || (t.sent == s.sent + [LastSent(t)] && Unserved(s, LastSent(t)) && t.rejected == s.rejected))
  {
    if s.pending != [] { assert s.pending[0] in s.pending; }
  }

  /** A write whose promise was rejected before it was sent is never sent by anything that follows. */
  lemma {:induction false} RejectedIsNeverSent(events: seq<Event>, more: seq<Event>, n: nat)
    requires n in Run(Init(), events).rejected && n !in Run(Init(), events).sent
    ensures n in Run(Init(), events + more).rejected && n !in Run(Init(), events + more).sent
    decreases |more|
  {
    if more == [] {
      assert events + more == events;
    } else {
      var front, e := more[..|more| - 1], more[|more| - 1];
      RejectedIsNeverSent(events, front, n);
      assert events + more == (events + front) + [e];
      RunSnoc(events + front, e);
      EveryRun(events + front);
      EveryRunQueues(events + front);
      SendsUnserved(Run(Init(), events + front), e);
    }
  }

  /** An enqueue is recorded as it was given, unless the capacity is reached; nothing else is. */
  lemma AcceptedIsRecorded(s: State, e: Event)
    ensures var t := Step(s, e);
      t.log == if e.Enqueue? && |s.waiters| < 1024 && s.serial < 9007199254740991
               then s.log + [Enqueued(e.key, e.write, s.generation)] else s.log
  {
  }

  // The newest write a stream has sent is the one it commits.

  predicate StreamInv(s: State) {
    && (s.phase.Opening? && s.phase.gen == s.generation ==> s.pending != [])
    && (s.phase.Waiting? || s.phase.Committing? ==>
          s.sent != [] && Completed(s.phase) == LastSent(s) && LastSent(s) in s.delivered)
  }

  lemma StepKeepsStream(s: State, e: Event)
    requires Inv(s) && StreamInv(s)
    ensures StreamInv(Step(s, e))
  {
    if e.SendOk? && s.phase.Sending? {
      DeliveredKeepsStream(s, e.inTime);
    } else if e.Enqueue? && Accepts(s) {
      assert EnqueueStep(s, e.key, e.write).pending != [];
    }
  }

  lemma DeliveredKeepsStream(s: State, inTime: bool)
    requires Inv(s) && s.phase.Sending?
    ensures StreamInv(Step(s, SendOk(inTime)))
  {
  }

  lemma {:induction false} EveryRunStreams(events: seq<Event>)
    ensures StreamInv(Run(Init(), events))
    decreases |events|
  {
    if events != [] {
      EveryRun(events[..|events| - 1]);
      EveryRunStreams(events[..|events| - 1]);
      StepKeepsStream(Run(Init(), events[..|events| - 1]), events[|events| - 1]);
    }
  }

  /**
   Over every run a commit resolves exactly the waiting promises of its gesture up to the last write sent, which
   was acknowledged, and rejects none.
   */
  lemma CommitResolvesExactly(events: seq<Event>, n: nat)
    requires Run(Init(), events).phase.Committing?
    ensures var s, t := Run(Init(), events), Step(Run(Init(), events), TransportOk);
      && LastSent(s) in s.delivered && t.rejected == s.rejected
      && (n in t.resolved <==>
          n in s.resolved || (WaitingOf(s, n, s.phase.gen) && n <= LastSent(s)))
  {
    EveryRun(events);
    EveryRunStreams(events);
    CommitResolvesItsOwn(Run(Init(), events), n);
  }

  lemma CommitResolvesItsOwn(s: State, n: nat)
    requires WaitersFromLog(s.waiters, s.log) && StreamInv(s) && s.phase.Committing?
    ensures var t := Step(s, TransportOk);
      && t.rejected == s.rejected
      && (n in t.resolved <==> n in s.resolved || (WaitingOf(s, n, s.phase.gen) && n <= LastSent(s)))
  {
    var gen, completed := s.phase.gen, s.phase.completed;
    if n in CoveredSerials(s.waiters, gen, completed) {
      var w :| w in s.waiters && Covered(w, gen, completed) && w.serial == n;
      WaitingIn(s, w);
    }
    if IsWaiting(s, n) {
      var i :| 0 <= i < |s.waiters| && s.waiters[i].serial == n;
      assert s.waiters[i] in s.waiters;
    }
  }

  /** Over every run a failure rejects exactly the waiting promises of its gesture, and resolves none. */
  lemma FailureRejectsExactly(events: seq<Event>, n: nat)
    requires Run(Init(), events).phase.Failing?
    ensures var s, t := Run(Init(), events), Step(Run(Init(), events), Catch);
      && t.resolved == s.resolved
      && (n in t.rejected <==>
          n in s.rejected || WaitingOf(s, n, s.phase.gen))
  {
    EveryRun(events);
    CaughtRejectsItsOwn(Run(Init(), events), n);
  }

  /** Only a commit resolves, only a failure rejects, and only an acknowledgement delivers what was sent last. */
  lemma OnlyTheseSettle(events: seq<Event>, e: Event)
    ensures var s, t := Run(Init(), events), Step(Run(Init(), events), e);
      && (t.resolved != s.resolved ==> e.TransportOk? && s.phase.Committing?)
      && (t.rejected != s.rejected ==> e.Catch? && s.phase.Failing?)
      && t.delivered == if e.SendOk? && s.phase.Sending? then s.delivered + {LastSent(s)} else s.delivered
  {
    EveryRun(events);
    SettledByThese(Run(Init(), events), e);
    DeliveredByThese(Run(Init(), events), e);
  }

  lemma SettledByThese(s: State, e: Event)
    ensures var t := Step(s, e);
      && (t.resolved != s.resolved ==> e.TransportOk? && s.phase.Committing?)
      && (t.rejected != s.rejected ==> e.Catch? && s.phase.Failing?)
  {
  }

  lemma DeliveredByThese(s: State, e: Event)
    requires PhaseInv(s)
    ensures Step(s, e).delivered == if e.SendOk? && s.phase.Sending? then s.delivered + {LastSent(s)} else s.delivered
  {
  }

  /** One transaction goes on until its time or its 512 writes are used up, or nothing came while it waited. */
  lemma TransactionEndsExactly(events: seq<Event>, e: Event)
    requires var p := Run(Init(), events).phase;
      (p.Opening? || p.Waiting? || p.Sending?) && p.gen == Run(Init(), events).generation
    ensures GoesOn(Run(Init(), events), e, Step(Run(Init(), events), e))
  {
    EveryRun(events);
    EveryRunStreams(events);
    TransactionGoesOn(Run(Init(), events), e);
  }

  predicate GoesOn(s: State, e: Event, t: State) {
    && (t.phase.Committing? <==>
        || (e == Wake && s.phase.Waiting? && s.pending == [])
        || (e.SendOk? && s.phase.Sending? && (!e.inTime || s.phase.sent + 1 == 512)))
    && (t.sent != s.sent <==>
        s.pending != [] && (|| (e == OpenStream && s.phase.Opening?) || (e == Wake && s.phase.Waiting?)
                            || (e == SendOk(true) && s.phase.Sending? && s.phase.sent + 1 < 512)))
    && (t.phase.Sending? && t.sent != s.sent ==>
        t.phase.sent == if s.phase.Opening? then 0 else if s.phase.Waiting? then s.phase.sent else s.phase.sent + 1)
    && (t.phase.Waiting? && s.phase.Sending? ==> t.phase.sent == s.phase.sent + 1)
  }

  lemma TransactionGoesOn(s: State, e: Event)
    requires Inv(s) && StreamInv(s) && (s.phase.Opening? || s.phase.Waiting? || s.phase.Sending?)
    requires s.phase.gen == s.generation
    ensures GoesOn(s, e, Step(s, e))
  {
  }

  /** The gesture of the chain has been cancelled. */
  predicate Cancelled(s: State) { !s.phase.Idle? && s.phase.gen != s.generation }

  /** What makes a transaction fail: the transport, a send, or noticing the cancellation within its limits. */
  predicate Dooms(s: State, e: Event) {
    match e
    case Begin => s.phase.Scheduled? && Cancelled(s)
    case OpenStream => s.phase.Opening? && Cancelled(s)
    case Wake => s.phase.Waiting? && Cancelled(s)
    case SendOk(inTime) => s.phase.Sending? && Cancelled(s) && inTime && s.phase.sent + 1 < 512
    case SendFails => s.phase.Sending?
    case TransportFails => s.phase.Opening? || s.phase.Committing?
    case _ => false
  }

  /** In any run a transaction begins to fail in exactly those segments, and then ends only by rejecting. */
  lemma FailsExactly(events: seq<Event>, e: Event)
    ensures var s, t := Run(Init(), events), Step(Run(Init(), events), e);
      Doomed(t.phase) <==> Dooms(s, e) || (Doomed(s.phase) && !(e.Catch? && s.phase.Failing?))
  {
    EveryRun(events);
    DoomedByThese(Run(Init(), events), e);
  }

  lemma DoomedByThese(s: State, e: Event)
    requires PhaseInv(s)
    ensures Doomed(Step(s, e).phase) <==> Dooms(s, e) || (Doomed(s.phase) && !(e.Catch? && s.phase.Failing?))
  {
  }

  // ---- whatever the transport answers, the chain comes to rest ----

  /** The event is an answer the chain is parked for. */
  predicate Answers(s: State, e: Event) {
    match e
    case Begin => s.phase.Scheduled?
    case OpenStream => s.phase.Opening?
    case Wake => s.phase.Waiting?
    case SendOk(_) => s.phase.Sending?
    case SendFails => s.phase.Sending?
    case TransportOk => s.phase.Committing?
    case TransportFails => s.phase.Opening? || s.phase.Committing? || s.phase.Aborting?
    case Catch => s.phase.Failing?
    case Finally => s.phase.Finishing?
    case _ => false
  }

  /** How many answers the chain can still take before it is idle. */
  function Rank(s: State): nat {
    var work, current := 20 * |s.pending|, !s.phase.Idle? && s.phase.gen == s.generation;
    match s.phase
    case Idle => 0
    case Finishing(_) => if s.pending == [] then 1 else work + 9
    case Scheduled(_) => work + if current then 8 else 17
    case Opening(_) => work + if current then 7 else 16
    case Sending(_, _, _, _) => work + 15
    case Waiting(_, _, _) => work + 13
    case Aborting(_) => if current then 3 else work + 12
    case Committing(_, _) => work + 11
    case Failing(_) => if current then 2 else work + 10
  }

  /** From s to t takes n answers; none are left to take exactly when t is idle. */
  predicate RestsWithin(s: State, t: State, n: nat) {
    Rank(t) + n <= Rank(s) && (Rank(t) == 0 <==> t.phase.Idle?)
  }

  lemma AnswerLowersRank(s: State, e: Event)
    requires Inv(s) && StreamInv(s) && Answers(s, e)
    ensures Rank(Step(s, e)) < Rank(s)
  {
    if s.phase.Sending? || s.phase.Waiting? || s.phase.Opening? {
      StreamLowersRank(s, e);
    } else {
      RunLowersRank(s, e);
    }
  }

  lemma StreamLowersRank(s: State, e: Event)
    requires Inv(s) && StreamInv(s) && Answers(s, e) && (s.phase.Sending? || s.phase.Waiting? || s.phase.Opening?)
    ensures Rank(Step(s, e)) < Rank(s)
  {
    if s.pending != [] { assert |s.pending[1..]| == |s.pending| - 1; }
  }

  lemma RunLowersRank(s: State, e: Event)
    requires Inv(s) && StreamInv(s) && Answers(s, e) && !s.phase.Sending? && !s.phase.Waiting? && !s.phase.Opening?
    ensures Rank(Step(s, e)) < Rank(s)
  {
  }

  lemma SomethingIsAwaited(s: State)
    requires Rank(s) > 0
    ensures exists e :: Answers(s, e)
  {
    var e := match s.phase
      case Scheduled(_) => Begin
      case Opening(_) => OpenStream
      case Sending(_, _, _, _) => SendFails
      case Waiting(_, _, _) => Wake
      case Committing(_, _) => TransportOk
      case Failing(_) => Catch
      case Finishing(_) => Finally
      case _ => TransportFails;
    assert Answers(s, e);
  }

  ghost predicate AllAnswer(s: State, events: seq<Event>)
    decreases |events|
  {
    events != [] ==> AllAnswer(s, events[..|events| - 1])
                     && Answers(Run(s, events[..|events| - 1]), events[|events| - 1])
  }

  /**
   Without further calls, whatever answers the chain of any run gets, it takes at most Rank of them and is then
   idle; until then one is awaited (SomethingIsAwaited).
   */
  lemma ChainComesToRest(before: seq<Event>, events: seq<Event>)
    requires AllAnswer(Run(Init(), before), events)
    ensures RestsWithin(Run(Init(), before), Run(Run(Init(), before), events), |events|)
  {
    EveryRun(before);
    EveryRunStreams(before);
    AnswersLowerRank(Run(Init(), before), events);
  }

  lemma {:induction false} AnswersLowerRank(s: State, events: seq<Event>)
    requires Inv(s) && StreamInv(s) && AllAnswer(s, events)
    ensures var t := Run(s, events); Inv(t) && StreamInv(t) && RestsWithin(s, t, |events|)
    decreases |events|
  {
    if events != [] {
      var front, e := events[..|events| - 1], events[|events| - 1];
      AnswersLowerRank(s, front);
      OneMoreAnswer(s, Run(s, front), e, |front|);
    }
  }

  lemma OneMoreAnswer(s: State, m: State, e: Event, n: nat)
    requires Inv(m) && StreamInv(m) && RestsWithin(s, m, n) && Answers(m, e)
    ensures var t := Step(m, e); Inv(t) && StreamInv(t) && RestsWithin(s, t, n + 1)
  {
    AnswerLowersRank(m, e);
    StepKeeps(m, e);
    StepKeepsStream(m, e);
    OnlyIdleHasNone(Step(m, e));
  }

  lemma OnlyIdleHasNone(s: State)
    ensures Rank(s) == 0 <==> s.phase.Idle?
  {
  }

  // ---- promises that are never settled ----

  lemma RunSnoc(events: seq<Event>, e: Event)
    ensures Run(Init(), events + [e]) == Step(Run(Init(), events), e)
  {
    assert (events + [e])[..|events|] == events;
  }

  /**
   The stream returns after its first write because its time is up, the project changes before
   the transport has committed, and the second write's promise is left behind for good.
   */
  lemma CancelDuringCommitStrands(a: Write, b: Write)
    ensures var s := Run(Init(), [Enqueue("a", a), Begin, OpenStream, Enqueue("b", b), SendOk(false),
                                  Cancel, TransportOk, Finally]);
      s.phase.Idle? && s.waiters == [Waiter(0, 2)] && s.resolved == {1} && s.rejected == {}
  {
    var first := [Enqueue("a", a), Begin, OpenStream, Enqueue("b", b)];
    var rest := [SendOk(false), Cancel, TransportOk, Finally];
    RunSplit(Init(), first, rest);
    assert first + rest == [Enqueue("a", a), Begin, OpenStream, Enqueue("b", b), SendOk(false),
                            Cancel, TransportOk, Finally];
    TwoWritesOneSent(a, b);
    CommitAfterCancel(Run(Init(), first));
  }

  lemma CommitAfterCancel(s: State)
    requires s.phase.Sending? && s.phase.gen == s.generation == 0 && s.phase.entry.serial == 1
    requires s.phase.completed == 0 && s.waiters == [Waiter(0, 1), Waiter(0, 2)] && s.resolved == s.rejected == {}
    ensures var t := Run(s, [SendOk(false), Cancel, TransportOk, Finally]);
      t.phase.Idle? && t.waiters == [Waiter(0, 2)] && t.resolved == {1} && t.rejected == {}
  {
    assert [SendOk(false), Cancel] + [TransportOk, Finally] == [SendOk(false), Cancel, TransportOk, Finally];
    RunSplit(s, [SendOk(false), Cancel], [TransportOk, Finally]);
    RunTwo(s, SendOk(false), Cancel);
    var s6 := Run(s, [SendOk(false), Cancel]);
    RunTwo(s6, TransportOk, Finally);
    assert Keep([Waiter(0, 2)], 0, 1) == [Waiter(0, 2)];
    assert CoveredSerials(s6.waiters, 0, 1) == {1};
  }

  lemma TwoWritesOneSent(a: Write, b: Write)
    ensures var s := Run(Init(), [Enqueue("a", a), Begin, OpenStream, Enqueue("b", b)]);
      && s.phase == Sending(0, Entry("a", a, 1), 0, 0) && s.pending == [Entry("b", b, 2)]
      && s.waiters == [Waiter(0, 1), Waiter(0, 2)] && s.generation == 0
      && s.resolved == {} && s.rejected == {}
  {
    RunSplit(Init(), [Enqueue("a", a), Begin], [OpenStream, Enqueue("b", b)]);
    assert [Enqueue("a", a), Begin] + [OpenStream, Enqueue("b", b)] ==
      [Enqueue("a", a), Begin, OpenStream, Enqueue("b", b)];
    RunTwo(Init(), Enqueue("a", a), Begin);
    RunTwo(Run(Init(), [Enqueue("a", a), Begin]), OpenStream, Enqueue("b", b));
  }

  lemma RunTwo(s: State, d: Event, e: Event)
    ensures Run(s, [d, e]) == Step(Step(s, d), e)
  {
    assert [d, e][..1] == [d];
    assert [d][..0] == [];
    assert Run(s, []) == s;
    assert Run(s, [d]) == Step(s, d);
  }

  lemma {:induction false} RunSplit(s: State, front: seq<Event>, back: seq<Event>)
    ensures Run(s, front + back) == Run(Run(s, front), back)
    decreases |back|
  {
    if back == [] {
      assert front + back == front;
    } else {
      var n := |back| - 1;
      assert (front + back)[..|front + back| - 1] == front + back[..n];
      RunSplit(s, front, back[..n]);
    }
  }

  // ---- the object ----

  /** The closure's variables; the ghost fields record what an observer has seen. */
  class ContinuousFixtureFader {
    var pending: seq<Entry>
    var serial: nat
    var active: bool
    var generation: nat
    var waiters: seq<Waiter>
    var phase: Phase
    ghost var log: seq<Enqueued>
    ghost var sent: seq<nat>
    ghost var delivered: set<nat>
    ghost var resolved: set<nat>
    ghost var rejected: set<nat>
    ghost var history: seq<Event>   // the segments executed so far

    ghost function View(): State
      reads this
    {
      State(pending, serial, generation, phase, waiters, log, sent, delivered, resolved, rejected)
    }

    ghost predicate Valid()
      reads this
    {
      active == !phase.Idle? && View() == Run(Init(), history)
    }

    constructor ()
      ensures Valid() && View() == Init()
    {
      pending, serial, active, generation, waiters, phase := [], 0, false, 0, [], Idle;
      log, sent, delivered, resolved, rejected, history := [], [], {}, {}, {}, [];
    }

    ghost method Record(e: Event)
      requires View() == Run(Init(), history)
      modifies `history
      ensures history == old(history) + [e]
      ensures Run(Init(), history) == Step(old(View()), e)
    {
      RunSnoc(history, e);
      history := history + [e];
    }

    /** Returns false where the source rejects because a capacity is exhausted. */
    method Enqueue(key: string, write: Write) returns (accepted: bool)
      requires Valid()
      modifies this
      ensures Valid() && View() == Step(old(View()), Event.Enqueue(key, write))
              && history == old(history) + [Event.Enqueue(key, write)]
      ensures accepted <==> old(|waiters|) < MAX_WAITERS && old(serial) < MAX_SAFE_INTEGER
    {
      Record(Event.Enqueue(key, write));
      if |waiters| >= MAX_WAITERS || serial >= MAX_SAFE_INTEGER {
        return false;
      }
      Accept(key, write);
      accepted := true;
    }

    method Accept(key: string, write: Write)
      requires Accepts(View()) && active == !phase.Idle?
      modifies `serial, `pending, `waiters, `log, `active, `phase
      ensures View() == EnqueueStep(old(View()), key, write) && active == !phase.Idle?
    {
      serial := serial + 1;
      pending := WithoutKey(pending, key);
      pending := pending + [Entry(key, write, serial)];
      waiters := waiters + [Waiter(generation, serial)];
      log := log + [Enqueued(key, write, generation)];
      if !active {
        active, phase := true, Scheduled(generation);
      }
    }

    method Cancel()
      requires Valid()
      modifies this
      ensures Valid() && View() == Step(old(View()), Event.Cancel) && history == old(history) + [Event.Cancel]
    {
      Record(Event.Cancel);
      generation := generation + 1;
      pending := [];
    }

    /** The microtask scheduled by start enters run. */
    method RunBegins()
      requires Valid() && phase.Scheduled?
      modifies this
      ensures Valid() && View() == Step(old(View()), Begin) && history == old(history) + [Begin]
    {
      Record(Begin);
      if phase.gen != generation {
        phase := Failing(phase.gen);
      } else {
        RunLoop(phase.gen);
      }
    }

    method RunLoop(gen: nat)
      modifies `phase
      ensures View() == RunHead(old(View()), gen)
    {
      phase := if pending != [] && gen == generation then Opening(gen) else Finishing(gen);
    }

    method StreamOpened()
      requires Valid() && phase.Opening?
      modifies this
      ensures Valid() && View() == Step(old(View()), OpenStream) && history == old(history) + [OpenStream]
    {
      Record(OpenStream);
      StreamLoop(phase.gen, 0, 0, true);
    }

    method StreamLoop(gen: nat, count: nat, completed: nat, inTime: bool)
      modifies `phase, `pending, `sent
      ensures View() == StreamHead(old(View()), gen, count, completed, inTime)
    {
      if !inTime || count >= MAX_SENT {
        phase := Committing(gen, completed);
      } else if gen != generation {
        phase := Aborting(gen);
      } else if pending == [] {
        phase := Waiting(gen, count, completed);
      } else {
        SendNext(gen, count, completed);
      }
    }

    method SendNext(gen: nat, count: nat, completed: nat)
      requires pending != []
      modifies `phase, `pending, `sent
      ensures View() == Pop(old(View()), gen, count, completed)
    {
      var entry := pending[0];
      pending := pending[1..];
      sent := sent + [entry.serial];
      phase := Sending(gen, entry, count, completed);
    }

    method WaitEnded()
      requires Valid() && phase.Waiting?
      modifies this
      ensures Valid() && View() == Step(old(View()), Wake) && history == old(history) + [Wake]
    {
      Record(Wake);
      if phase.gen != generation {
        phase := Aborting(phase.gen);
      } else if pending == [] {
        phase := Committing(phase.gen, phase.completed);
      } else {
        SendNext(phase.gen, phase.sent, phase.completed);
      }
    }

    method SendResolved(inTime: bool)
      requires Valid() && phase.Sending?
      modifies this
      ensures Valid() && View() == Step(old(View()), SendOk(inTime)) && history == old(history) + [SendOk(inTime)]
    {
      Record(SendOk(inTime));
      Acknowledge(phase.gen, phase.entry, phase.sent, phase.completed, inTime);
    }

    method Acknowledge(gen: nat, entry: Entry, count: nat, before: nat, inTime: bool)
      modifies `phase, `pending, `sent, `delivered
      ensures View() == Delivered(old(View()), gen, entry, count, before, inTime)
    {
      var completed := before;
      delivered := delivered + {entry.serial};
      if completed < entry.serial {
        completed := entry.serial;
      }
      StreamLoop(gen, count + 1, completed, inTime);
    }

    method SendRejected()
      requires Valid() && phase.Sending?
      modifies this
      ensures Valid() && View() == Step(old(View()), SendFails) && history == old(history) + [SendFails]
    {
      Record(SendFails);
      phase := Aborting(phase.gen);
    }

    method TransportResolved()
      requires Valid() && phase.Committing?
      modifies this
      ensures Valid() && View() == Step(old(View()), TransportOk) && history == old(history) + [TransportOk]
    {
      Record(TransportOk);
      ghost var gone := CoveredSerials(waiters, phase.gen, phase.completed);
      TakeCovered(phase.gen, phase.completed);
      resolved := resolved + gone;
      RunLoop(phase.gen);
    }

    /** The backward splice over the waiters. */
    method TakeCovered(gen: nat, completed: nat)
      modifies `waiters
      ensures waiters == Keep(old(waiters), gen, completed)
    {
      ghost var before := waiters;
      var i := |waiters|;
      assert before[i..] == [];
      while i > 0
        invariant 0 <= i <= |before|
        invariant waiters == before[..i] + Keep(before[i..], gen, completed)
      {
        i := i - 1;
        KeepFrom(before, i, gen, completed);
        TakeOne(before, i, Keep(before[i + 1..], gen, completed));
        if Covered(waiters[i], gen, completed) {
          waiters := waiters[..i] + waiters[i + 1..];
        }
      }
      assert before[0..] == before;
    }

    method TransportRejected()
      requires Valid() && (phase.Opening? || phase.Committing? || phase.Aborting?)
      modifies this
      ensures Valid() && View() == Step(old(View()), TransportFails) && history == old(history) + [TransportFails]
    {
      Record(TransportFails);
      phase := Failing(phase.gen);
    }

    /** The catch handler of start. */
    method RunFailed()
      requires Valid() && phase.Failing?
      modifies this
      ensures Valid() && View() == Step(old(View()), Catch) && history == old(history) + [Catch]
    {
      Record(Catch);
      RejectGeneration(phase.gen);
      phase := Finishing(phase.gen);
    }

    method RejectGeneration(gen: nat)
      modifies `pending, `waiters, `rejected
      ensures View() == Caught(old(View()), gen).(phase := phase)
    {
      if generation == gen {
        pending := [];
      }
      rejected := rejected + CoveredSerials(waiters, gen, serial);
      TakeCovered(gen, serial);
    }

    /** The finally handler of start. */
    method RunEnded()
      requires Valid() && phase.Finishing?
      modifies this
      ensures Valid() && View() == Step(old(View()), Finally) && history == old(history) + [Finally]
    {
      Record(Finally);
      active, phase := false, Idle;
      if pending != [] {
        active, phase := true, Scheduled(generation);
      }
    }
  }
}
