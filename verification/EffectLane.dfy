/**
 The per-effect intent lanes of app/src/authoredEffectEnableController.ts.

 A lane holds the newest desired value of one effect and at most one request in flight.  A
 public `enqueue` runs up to the first await of the lane; every later segment runs when the
 outstanding dispatch settles, so the state between two segments is a value and `Step` is one
 segment.  The observers onQueued, onApplied and onFailed are the records of `log`;
 an applied or failed observer may itself enqueue values for the same effect, which the event
 carries as `echo`.
 */
module EffectLane {
  import opened Prelude

  datatype Intent = Intent(effectId: int, enabled: bool, generation: nat)
  datatype Flight = Flight(intent: Intent, attempt: nat)

  /** `running` of the source is `flight.Some?`. */
  datatype Lane = Lane(latest: Option<Intent>, flight: Option<Flight>, settled: bool)

  datatype Record =
    | Seeded(id: int, enabled: bool)           // seedSettledBaseline was read
    | Queued(intent: Intent)                   // onQueued
    | Dispatched(intent: Intent, attempt: nat)
    | Accepted(id: int, enabled: bool)         // the server settled the dispatched value
    | Refused(id: int, stale: bool)            // the dispatch rejected
    | Applied(intent: Intent)                  // onApplied
    | Failed(intent: Intent, settled: bool)    // onFailed with the rollback baseline

  datatype State = State(lanes: map<int, Lane>, nextGeneration: nat, log: seq<Record>)

  datatype Reply = Ok | StaleFence | OtherError

  datatype Event =
    | Enqueue(id: int, enabled: bool, seed: bool)
    | Settle(id: int, reply: Reply, echo: seq<bool>)

  function Init(): State {
    State(map[], 0, [])
  }

  predicate ValidId(id: int) {
    0 < id <= MAX_SAFE_INTEGER
  }

  predicate Exhausted(s: State) {
    s.nextGeneration >= MAX_SAFE_INTEGER
  }

  // ---- the segments ----

  function Log(s: State, id: int, lane: Lane, r: Record): State {
    s.(lanes := s.lanes[id := lane], log := s.log + [r])
  }

  /** Replaces the newest desired value of an existing lane; throws when generations run out. */
  function Replace(s: State, id: int, enabled: bool): State
    requires id in s.lanes
  {
    if Exhausted(s) then s
    else
      var intent := Intent(id, enabled, s.nextGeneration + 1);
      Log(s, id, s.lanes[id].(latest := Some(intent)), Queued(intent)).(nextGeneration := s.nextGeneration + 1)
  }

  function Echo(s: State, id: int, values: seq<bool>): (t: State)
    requires id in s.lanes
    ensures id in t.lanes
    decreases |values|
  {
    if values == [] then s
    else Replace(Echo(s, id, values[..|values| - 1]), id, values[|values| - 1])
  }

  function Dispatch(s: State, id: int, intent: Intent, attempt: nat): State
    requires id in s.lanes
  {
    Log(s, id, s.lanes[id].(flight := Some(Flight(intent, attempt))), Dispatched(intent, attempt))
  }

  /** The head of runLane's outer loop. */
  function Next(s: State, id: int): State
    requires id in s.lanes
  {
    match s.lanes[id].latest
    case None => s.(lanes := s.lanes - {id})
    case Some(intent) => Dispatch(s, id, intent, 0)
  }

  function Seed(s: State, id: int, seed: bool): (t: State)
    ensures id in t.lanes
  {
    if id in s.lanes then s else Log(s, id, Lane(None, None, seed), Seeded(id, seed))
  }

  function EnqueueStep(s: State, id: int, enabled: bool, seed: bool): State {
    if !ValidId(id) then s
    else
      var s1 := Replace(Seed(s, id, seed), id, enabled);
      if s1.lanes[id].latest.Some? && s1.lanes[id].flight.None? then Next(s1, id) else s1
  }

  /** Reports an intent, lets the observer enqueue, and retires it unless it was replaced. */
  function Report(s: State, id: int, r: Record, generation: nat, echo: seq<bool>): (t: State)
    requires id in s.lanes
    ensures id in t.lanes
  {
    var s1 := Echo(Log(s, id, s.lanes[id], r), id, echo);
    var lane := s1.lanes[id];
    if lane.latest.Some? && lane.latest.value.generation == generation
    then s1.(lanes := s1.lanes[id := lane.(latest := None)])
    else s1
  }

  /** The dispatch fulfilled: its value is now the settled one. */
  function SettleOk(s: State, id: int, intent: Intent, echo: seq<bool>): (t: State)
    requires id in s.lanes
    ensures id in t.lanes
  {
    var s1 := Log(s, id, s.lanes[id].(flight := None, settled := intent.enabled), Accepted(id, intent.enabled));
    match s1.lanes[id].latest
    case None => s1
    case Some(current) =>
      if current.generation == intent.generation then Report(s1, id, Applied(intent), intent.generation, echo)
      else if current.enabled == intent.enabled then Report(s1, id, Applied(current), current.generation, echo)
      else s1
  }

  predicate Retries(lane: Lane, flight: Flight, reply: Reply, limit: nat) {
    && lane.latest.Some? && lane.latest.value.generation == flight.intent.generation
    && reply.StaleFence? && flight.attempt + 1 < limit
  }

  function Refuse(s: State, id: int, stale: bool): (t: State)
    requires id in s.lanes
    ensures id in t.lanes
  {
    Log(s, id, s.lanes[id].(flight := None), Refused(id, stale))
  }

  function SettleFailed(s: State, id: int, intent: Intent, stale: bool, echo: seq<bool>): (t: State)
    requires id in s.lanes
    ensures id in t.lanes
  {
    var s1 := Refuse(s, id, stale);
    var lane := s1.lanes[id];
    if lane.latest.Some? && lane.latest.value.generation == intent.generation
    then Report(s1, id, Failed(intent, lane.settled), intent.generation, echo)
    else s1
  }

  function SettleStep(s: State, id: int, reply: Reply, echo: seq<bool>, limit: nat): State {
    if id !in s.lanes || s.lanes[id].flight.None? then s
    else
      var flight := s.lanes[id].flight.value;
      if reply.Ok? then Next(SettleOk(s, id, flight.intent, echo), id)
      else if Retries(s.lanes[id], flight, reply, limit) then
        Dispatch(Refuse(s, id, true), id, flight.intent, flight.attempt + 1)
      else Next(SettleFailed(s, id, flight.intent, reply.StaleFence?, echo), id)
  }

  function Step(s: State, e: Event, limit: nat): State {
    match e
    case Enqueue(id, enabled, seed) => EnqueueStep(s, id, enabled, seed)
    case Settle(id, reply, echo) => SettleStep(s, id, reply, echo, limit)
  }

  function Run(s: State, events: seq<Event>, limit: nat): State
    decreases |events|
  {
    if events == [] then s
    else Step(Run(s, events[..|events| - 1], limit), events[|events| - 1], limit)
  }

  // ---- what the log shows about one effect ----

  /** `queued`: newest intent; `reported`: generation of the last report; `settled`: last
      server value, or the seed; `sent`: last dispatched intent; `flying`: unanswered dispatches. */
  datatype Seen = Seen(queued: Option<Intent>, reported: nat, settled: Option<bool>, sent: Option<Intent>, flying: nat)

  function Note(seen: Seen, r: Record, id: int): Seen {
    match r
    case Seeded(i, v) => if i == id then seen.(settled := Some(v)) else seen
    case Queued(intent) => if intent.effectId == id then seen.(queued := Some(intent)) else seen
    case Dispatched(intent, _) =>
      if intent.effectId == id then seen.(sent := Some(intent), flying := seen.flying + 1) else seen
    case Accepted(i, v) =>
      if i == id then seen.(settled := Some(v), flying := if seen.flying > 0 then seen.flying - 1 else 0) else seen
    case Refused(i, _) => if i == id then seen.(flying := if seen.flying > 0 then seen.flying - 1 else 0) else seen
    case Applied(intent) => if intent.effectId == id then seen.(reported := intent.generation) else seen
    case Failed(intent, _) => if intent.effectId == id then seen.(reported := intent.generation) else seen
  }

  function See(log: seq<Record>, id: int): Seen
    decreases |log|
  {
    if log == [] then Seen(None, 0, None, None, 0)
    else Note(See(log[..|log| - 1], id), log[|log| - 1], id)
  }

  /** How often a generation of an effect has been dispatched. */
  function Attempts(log: seq<Record>, id: int, generation: nat): nat
    decreases |log|
  {
    if log == [] then 0
    else
      var r := log[|log| - 1];
      Attempts(log[..|log| - 1], id, generation)
      + if r.Dispatched? && r.intent.effectId == id && r.intent.generation == generation then 1 else 0
  }

  function EffectOf(r: Record): int {
    match r
    case Seeded(id, _) => id
    case Accepted(id, _) => id
    case Refused(id, _) => id
    case Queued(intent) => intent.effectId
    case Dispatched(intent, _) => intent.effectId
    case Applied(intent) => intent.effectId
    case Failed(intent, _) => intent.effectId
  }

  /**
   What every record must be, given what was recorded before it: requests carry the newest
   intent, one at a time and a bounded number of times; a report names the newest, not yet
   reported intent, an applied one only when the server's last value is the desired one, a
   failed one with that last value as its rollback baseline.
   */
  predicate Lawful(seen: Seen, attempts: nat, r: Record, limit: nat) {
    match r
    case Seeded(_, _) => seen.flying == 0
    case Queued(intent) =>
      seen.settled.Some? && (if seen.queued.Some? then seen.queued.value.generation else 0) < intent.generation
    case Dispatched(intent, attempt) =>
      && seen.flying == 0 && seen.queued == Some(intent)
      && attempt == attempts < limit && seen.reported < intent.generation
    case Accepted(_, v) => seen.flying == 1 && seen.sent.Some? && seen.sent.value.enabled == v
    case Refused(_, _) => seen.flying == 1
    case Applied(intent) =>
      && seen.flying == 0 && seen.queued == Some(intent)
      && seen.reported < intent.generation && seen.settled == Some(intent.enabled)
    case Failed(intent, v) =>
      && seen.flying == 0 && seen.queued == Some(intent)
      && seen.reported < intent.generation && seen.settled == Some(v)
  }

  function Generation(r: Record): nat {
    if r.Queued? || r.Dispatched? || r.Applied? || r.Failed? then r.intent.generation else 0
  }

  predicate LawfulAt(log: seq<Record>, i: nat, limit: nat)
    requires i < |log|
  {
    Lawful(See(log[..i], EffectOf(log[i])), Attempts(log[..i], EffectOf(log[i]), Generation(log[i])), log[i], limit)
  }

  predicate LawfulLog(log: seq<Record>, limit: nat) {
    forall i :: 0 <= i < |log| ==> LawfulAt(log, i, limit)
  }

  // ---- the invariant ----

  /** Whether the newest intent of an effect, if any, has been reported. */
  predicate AllReported(seen: Seen) {
    seen.queued.Some? ==> seen.queued.value.generation == seen.reported
  }

  /** A lane between two segments, or part way through one with no flight. */
  predicate LaneInv(lane: Lane, seen: Seen, id: int, log: seq<Record>, limit: nat) {
    && seen.settled == Some(lane.settled)
    && seen.flying == (if lane.flight.Some? then 1 else 0)
    && (lane.latest.None? ==> lane.flight.None? && AllReported(seen))
    && (lane.latest.Some? ==> seen.queued == lane.latest && lane.latest.value.effectId == id
                              && seen.reported < lane.latest.value.generation)
    && (lane.flight.Some? ==>
          var f := lane.flight.value;
          && seen.sent == Some(f.intent) && f.intent.effectId == id
          && seen.reported < f.intent.generation <= lane.latest.value.generation
          && f.attempt < limit && Attempts(log, id, f.intent.generation) == f.attempt + 1
          && (f.intent.generation == lane.latest.value.generation ==> f.intent == lane.latest.value)
          && (f.intent.generation < lane.latest.value.generation ==>
              Attempts(log, id, lane.latest.value.generation) == 0))
  }

  predicate EffectInv(s: State, id: int, limit: nat) {
    if id in s.lanes then LaneInv(s.lanes[id], See(s.log, id), id, s.log, limit)
    else See(s.log, id).flying == 0 && AllReported(See(s.log, id))
  }

  ghost predicate Bounded(s: State) {
    && (forall i :: 0 <= i < |s.log| ==> Generation(s.log[i]) <= s.nextGeneration)
  }

  /** A lane without a request exists only once generations have run out. */
  predicate Idle(s: State, id: int) {
    id in s.lanes && s.lanes[id].flight.None?
  }

  ghost predicate Inv(s: State, limit: nat) {
    && LawfulLog(s.log, limit) && Bounded(s)
    && (forall id :: EffectInv(s, id, limit))
    && (forall id :: Idle(s, id) ==> Exhausted(s) && s.lanes[id].latest.None?)
  }

  // ---- preservation ----

  lemma Appended(log: seq<Record>, r: Record, id: int, g: nat)
    ensures See(log + [r], id) == Note(See(log, id), r, id)
    ensures Attempts(log + [r], id, g) == Attempts(log, id, g)
      + if r.Dispatched? && r.intent.effectId == id && r.intent.generation == g then 1 else 0
  {
    assert (log + [r])[..|log|] == log;
  }

  lemma LawfulSnoc(log: seq<Record>, r: Record, limit: nat)
    requires LawfulLog(log, limit)
    requires Lawful(See(log, EffectOf(r)), Attempts(log, EffectOf(r), Generation(r)), r, limit)
    ensures LawfulLog(log + [r], limit)
  {
    var t := log + [r];
    forall i | 0 <= i < |t| ensures LawfulAt(t, i, limit) {
      if i < |log| {
        assert t[..i] == log[..i];
        assert LawfulAt(log, i, limit);
      } else {
        assert t[..i] == log;
      }
    }
  }

  lemma {:induction false} NeverDispatched(log: seq<Record>, id: int, g: nat)
    requires forall i :: 0 <= i < |log| ==> Generation(log[i]) < g
    ensures Attempts(log, id, g) == 0
    decreases |log|
  {
    if log != [] { NeverDispatched(log[..|log| - 1], id, g); }
  }

  ghost predicate Core(s: State, id: int, limit: nat) {
    LawfulLog(s.log, limit) && Bounded(s) && EffectInv(s, id, limit)
  }

  /** Nothing about any other effect has changed. */
  ghost predicate Frame(s: State, t: State, id: int) {
    && s.nextGeneration <= t.nextGeneration
    && (forall j :: j != id ==> FrameAt(s, t, j))
  }

  ghost predicate FrameAt(s: State, t: State, j: int) {
    && (j in s.lanes <==> j in t.lanes)
    && (j in s.lanes ==> s.lanes[j] == t.lanes[j])
    && See(s.log, j) == See(t.log, j)
    && (forall g :: Attempts(s.log, j, g) == Attempts(t.log, j, g))
  }

  lemma FrameTransitive(s: State, t: State, u: State, id: int)
    requires Frame(s, t, id) && Frame(t, u, id)
    ensures Frame(s, u, id)
  {
    forall j | j != id ensures FrameAt(s, u, j) {
      assert FrameAt(s, t, j) && FrameAt(t, u, j);
    }
  }

  lemma LogFrames(s: State, id: int, lane: Lane, r: Record)
    requires EffectOf(r) == id
    ensures Frame(s, Log(s, id, lane, r), id)
  {
    var t := Log(s, id, lane, r);
    forall j | j != id ensures FrameAt(s, t, j) {
      forall g ensures Attempts(s.log, j, g) == Attempts(t.log, j, g) { Appended(s.log, r, j, g); }
      Appended(s.log, r, j, 0);
    }
  }

  /** Not yet dispatched. */
  predicate Fresh(s: State, id: int) {
    id in s.lanes && s.lanes[id].latest.Some? ==> Attempts(s.log, id, s.lanes[id].latest.value.generation) == 0
  }

  lemma ReplaceKeeps(s: State, id: int, enabled: bool, limit: nat)
    requires Core(s, id, limit) && id in s.lanes && (s.lanes[id].flight.None? ==> Fresh(s, id))
    ensures var t := Replace(s, id, enabled);
      Core(t, id, limit) && Frame(s, t, id) && (t.lanes[id].flight.None? ==> Fresh(t, id))
  {
    if !Exhausted(s) {
      var intent := Intent(id, enabled, s.nextGeneration + 1);
      var r := Queued(intent);
      NeverDispatched(s.log, id, intent.generation);
      Appended(s.log, r, id, intent.generation);
      if s.lanes[id].flight.Some? {
        Appended(s.log, r, id, s.lanes[id].flight.value.intent.generation);
      }
      ReplaceKeepsLog(s, id, enabled, limit);
      ReplaceKeepsLane(s, id, enabled, limit);
    }
    ReplaceFrames(s, id, enabled);
  }

  lemma ReplaceKeepsLog(s: State, id: int, enabled: bool, limit: nat)
    requires LawfulLog(s.log, limit) && Bounded(s) && id in s.lanes && !Exhausted(s)
    requires See(s.log, id).settled.Some?
    ensures var t := Replace(s, id, enabled); LawfulLog(t.log, limit) && Bounded(t)
  {
    QueuedNotAhead(s.log, id, s.nextGeneration);
    LawfulSnoc(s.log, Queued(Intent(id, enabled, s.nextGeneration + 1)), limit);
  }

  lemma ReplaceFrames(s: State, id: int, enabled: bool)
    requires id in s.lanes
    ensures Frame(s, Replace(s, id, enabled), id)
  {
    if Exhausted(s) {
      assert forall j :: j != id ==> FrameAt(s, s, j);
    } else {
      var intent := Intent(id, enabled, s.nextGeneration + 1);
      var m := Log(s, id, s.lanes[id].(latest := Some(intent)), Queued(intent));
      LogFrames(s, id, s.lanes[id].(latest := Some(intent)), Queued(intent));
      forall j | j != id ensures FrameAt(s, Replace(s, id, enabled), j) { assert FrameAt(s, m, j); }
    }
  }

  lemma ReplaceKeepsLane(s: State, id: int, enabled: bool, limit: nat)
    requires Core(s, id, limit) && id in s.lanes && !Exhausted(s)
    requires var r := Queued(Intent(id, enabled, s.nextGeneration + 1));
      && See(s.log + [r], id) == Note(See(s.log, id), r, id)
      && Attempts(s.log + [r], id, s.nextGeneration + 1) == 0
      && (s.lanes[id].flight.Some? ==>
            Attempts(s.log + [r], id, s.lanes[id].flight.value.intent.generation)
            == Attempts(s.log, id, s.lanes[id].flight.value.intent.generation))
    ensures EffectInv(Replace(s, id, enabled), id, limit)
  {
    ReportedNotAhead(s.log, id, s.nextGeneration);
    SentNotAhead(s.log, id, s.nextGeneration);
  }

  lemma {:induction false} QueuedNotAhead(log: seq<Record>, id: int, bound: nat)
    requires forall i :: 0 <= i < |log| ==> Generation(log[i]) <= bound
    ensures See(log, id).queued.Some? ==> See(log, id).queued.value.generation <= bound
    decreases |log|
  {
    if log != [] { QueuedNotAhead(log[..|log| - 1], id, bound); }
  }

  lemma {:induction false} ReportedNotAhead(log: seq<Record>, id: int, bound: nat)
    requires forall i :: 0 <= i < |log| ==> Generation(log[i]) <= bound
    ensures See(log, id).reported <= bound
    decreases |log|
  {
    if log != [] { ReportedNotAhead(log[..|log| - 1], id, bound); }
  }

  lemma {:induction false} SentNotAhead(log: seq<Record>, id: int, bound: nat)
    requires forall i :: 0 <= i < |log| ==> Generation(log[i]) <= bound
    ensures See(log, id).sent.Some? ==> See(log, id).sent.value.generation <= bound
    decreases |log|
  {
    if log != [] { SentNotAhead(log[..|log| - 1], id, bound); }
  }

  lemma {:induction false} EchoKeeps(s: State, id: int, values: seq<bool>, limit: nat)
    requires Core(s, id, limit) && id in s.lanes && (s.lanes[id].flight.None? ==> Fresh(s, id))
    ensures var t := Echo(s, id, values);
      Core(t, id, limit) && Frame(s, t, id) && (t.lanes[id].flight.None? ==> Fresh(t, id))
      && t.lanes[id].flight == s.lanes[id].flight
    decreases |values|
  {
    if values == [] {
      assert Frame(s, s, id) by { assert forall j :: j != id ==> FrameAt(s, s, j); }
    } else {
      var front := values[..|values| - 1];
      EchoKeeps(s, id, front, limit);
      var mid := Echo(s, id, front);
      ReplaceKeeps(mid, id, values[|values| - 1], limit);
      FrameTransitive(s, mid, Echo(s, id, values), id);
    }
  }

  function Retired(s: State, id: int): State
    requires id in s.lanes
  {
    s.(lanes := s.lanes[id := s.lanes[id].(latest := None)])
  }

  /** t still holds the reported intent and u is t without it, or a newer intent replaced it and they are the same. */
  predicate ClearsAlike(t: State, u: State, id: int, reported: Intent) {
    && id in t.lanes && id in u.lanes
    && t.nextGeneration == u.nextGeneration >= reported.generation && t.log == u.log
    && ((t == u && t.lanes[id].latest.Some? && t.lanes[id].latest.value.generation > reported.generation)
        || (t.lanes[id].latest == Some(reported) && u == Retired(t, id)))
  }

  /** Retiring the reported intent after the observer ran is retiring it before. */
  lemma {:induction false} EchoAfterClear(s: State, id: int, generation: nat, values: seq<bool>)
    requires id in s.lanes && s.lanes[id].latest.Some? && s.lanes[id].latest.value.generation == generation
    requires generation <= s.nextGeneration
    ensures ClearsAlike(Echo(s, id, values), Echo(Retired(s, id), id, values), id, s.lanes[id].latest.value)
    decreases |values|
  {
    if values != [] {
      var front, v := values[..|values| - 1], values[|values| - 1];
      EchoAfterClear(s, id, generation, front);
      var t, u := Echo(s, id, front), Echo(Retired(s, id), id, front);
      if !Exhausted(t) && t != u {
        var intent := Intent(id, v, t.nextGeneration + 1);
        assert t.lanes[id].(latest := Some(intent)) == u.lanes[id].(latest := Some(intent));
        assert t.lanes[id := t.lanes[id].(latest := Some(intent))]
               == u.lanes[id := u.lanes[id].(latest := Some(intent))];
      }
    }
  }

  lemma DispatchKeeps(s: State, id: int, intent: Intent, attempt: nat, limit: nat)
    requires Core(s, id, limit) && id in s.lanes && s.lanes[id].flight.None?
    requires s.lanes[id].latest == Some(intent) && Attempts(s.log, id, intent.generation) == attempt < limit
    ensures var t := Dispatch(s, id, intent, attempt);
      Core(t, id, limit) && Frame(s, t, id) && t.lanes[id].flight.Some?
  {
    var r := Dispatched(intent, attempt);
    Appended(s.log, r, id, intent.generation);
    QueuedNotAhead(s.log, id, s.nextGeneration);
    LawfulSnoc(s.log, r, limit);
    LogFrames(s, id, s.lanes[id].(flight := Some(Flight(intent, attempt))), r);
  }

  lemma NextKeeps(s: State, id: int, limit: nat)
    requires Core(s, id, limit) && id in s.lanes && s.lanes[id].flight.None? && Fresh(s, id) && limit >= 1
    ensures var t := Next(s, id);
      Core(t, id, limit) && Frame(s, t, id) && (id in t.lanes ==> t.lanes[id].flight.Some?)
  {
    if s.lanes[id].latest.Some? {
      DispatchKeeps(s, id, s.lanes[id].latest.value, 0, limit);
    } else {
      var t := Next(s, id);
      assert Frame(s, t, id) by { assert forall j :: j != id ==> FrameAt(s, t, j); }
    }
  }

  lemma SeedKeeps(s: State, id: int, seed: bool, limit: nat)
    requires Core(s, id, limit)
    ensures var t := Seed(s, id, seed); Core(t, id, limit) && Frame(s, t, id)
  {
    if id in s.lanes {
      assert Frame(s, s, id) by { assert forall j :: j != id ==> FrameAt(s, s, j); }
    } else {
      var r := Seeded(id, seed);
      Appended(s.log, r, id, 0);
      LawfulSnoc(s.log, r, limit);
      LogFrames(s, id, Lane(None, None, seed), r);
    }
  }

  lemma EnqueueStepKeeps(s: State, id: int, enabled: bool, seed: bool, limit: nat)
    requires Core(s, id, limit) && limit >= 1 && ValidId(id)
    requires id in s.lanes && s.lanes[id].flight.None? ==> s.lanes[id].latest.None?
    ensures var t := EnqueueStep(s, id, enabled, seed);
      Core(t, id, limit) && Frame(s, t, id)
      && (Idle(t, id) ==> Exhausted(t) && t.lanes[id].latest.None?)
  {
    var s0 := Seed(s, id, seed);
    SeedKeeps(s, id, seed, limit);
    ReplaceKeeps(s0, id, enabled, limit);
    var s1 := Replace(s0, id, enabled);
    FrameTransitive(s, s0, s1, id);
    if s1.lanes[id].latest.Some? && s1.lanes[id].flight.None? {
      NextKeeps(s1, id, limit);
      FrameTransitive(s, s1, Next(s1, id), id);
    }
  }

  lemma ReportKeeps(s: State, id: int, r: Record, generation: nat, echo: seq<bool>, limit: nat)
    requires Core(s, id, limit) && id in s.lanes && s.lanes[id].flight.None?
    requires s.lanes[id].latest.Some? && s.lanes[id].latest.value.generation == generation
    requires r == Failed(s.lanes[id].latest.value, s.lanes[id].settled)
          || (r == Applied(s.lanes[id].latest.value) && s.lanes[id].settled == s.lanes[id].latest.value.enabled)
    ensures var t := Report(s, id, r, generation, echo);
      Core(t, id, limit) && Frame(s, t, id) && t.lanes[id].flight.None? && Fresh(t, id)
  {
    var lane := s.lanes[id];
    var s1 := Log(s, id, lane, r);
    var c := Log(s, id, lane.(latest := None), r);
    Appended(s.log, r, id, generation);
    QueuedNotAhead(s.log, id, s.nextGeneration);
    LawfulSnoc(s.log, r, limit);
    LogFrames(s, id, lane.(latest := None), r);
    EchoKeeps(c, id, echo, limit);
    EchoAfterClear(s1, id, generation, echo);
    assert c == s1.(lanes := s1.lanes[id := s1.lanes[id].(latest := None)]);
    assert Report(s, id, r, generation, echo) == Echo(c, id, echo);
    FrameTransitive(s, c, Echo(c, id, echo), id);
  }

  lemma SettleOkKeeps(s: State, id: int, echo: seq<bool>, limit: nat)
    requires Core(s, id, limit) && id in s.lanes && s.lanes[id].flight.Some?
    ensures var t := SettleOk(s, id, s.lanes[id].flight.value.intent, echo);
      Core(t, id, limit) && Frame(s, t, id) && t.lanes[id].flight.None? && Fresh(t, id)
  {
    var intent := s.lanes[id].flight.value.intent;
    var r := Accepted(id, intent.enabled);
    var lane := s.lanes[id].(flight := None, settled := intent.enabled);
    var s1 := Log(s, id, lane, r);
    var latest := lane.latest.value;
    Appended(s.log, r, id, latest.generation);
    LawfulSnoc(s.log, r, limit);
    LogFrames(s, id, lane, r);
    if latest.generation == intent.generation || latest.enabled == intent.enabled {
      ReportKeeps(s1, id, Applied(latest), latest.generation, echo, limit);
      FrameTransitive(s, s1, Report(s1, id, Applied(latest), latest.generation, echo), id);
    }
  }

  lemma RefuseKeeps(s: State, id: int, stale: bool, limit: nat)
    requires Core(s, id, limit) && id in s.lanes && s.lanes[id].flight.Some?
    ensures var t := Refuse(s, id, stale);
      Core(t, id, limit) && Frame(s, t, id)
      && (forall g :: Attempts(t.log, id, g) == Attempts(s.log, id, g))
  {
    var r := Refused(id, stale);
    var lane := s.lanes[id].(flight := None);
    forall g ensures Attempts(s.log + [r], id, g) == Attempts(s.log, id, g) { Appended(s.log, r, id, g); }
    Appended(s.log, r, id, 0);
    LawfulSnoc(s.log, r, limit);
    LogFrames(s, id, lane, r);
  }

  lemma SettleFailedKeeps(s: State, id: int, stale: bool, echo: seq<bool>, limit: nat)
    requires Core(s, id, limit) && id in s.lanes && s.lanes[id].flight.Some?
    ensures var t := SettleFailed(s, id, s.lanes[id].flight.value.intent, stale, echo);
      Core(t, id, limit) && Frame(s, t, id) && t.lanes[id].flight.None? && Fresh(t, id)
  {
    var intent := s.lanes[id].flight.value.intent;
    RefuseKeeps(s, id, stale, limit);
    var s1 := Refuse(s, id, stale);
    if s1.lanes[id].latest.value.generation == intent.generation {
      ReportKeeps(s1, id, Failed(intent, s1.lanes[id].settled), intent.generation, echo, limit);
      FrameTransitive(s, s1, SettleFailed(s, id, intent, stale, echo), id);
    }
  }

  lemma SettleStepKeeps(s: State, id: int, reply: Reply, echo: seq<bool>, limit: nat)
    requires Core(s, id, limit) && limit >= 1 && id in s.lanes && s.lanes[id].flight.Some?
    ensures var t := SettleStep(s, id, reply, echo, limit);
      Core(t, id, limit) && Frame(s, t, id) && (id in t.lanes ==> t.lanes[id].flight.Some?)
  {
    var flight := s.lanes[id].flight.value;
    if reply.Ok? {
      SettleOkKeeps(s, id, echo, limit);
      var m := SettleOk(s, id, flight.intent, echo);
      NextKeeps(m, id, limit);
      FrameTransitive(s, m, Next(m, id), id);
    } else if Retries(s.lanes[id], flight, reply, limit) {
      RefuseKeeps(s, id, true, limit);
      var m := Refuse(s, id, true);
      DispatchKeeps(m, id, flight.intent, flight.attempt + 1, limit);
      FrameTransitive(s, m, Dispatch(m, id, flight.intent, flight.attempt + 1), id);
    } else {
      SettleFailedKeeps(s, id, reply.StaleFence?, echo, limit);
      var m := SettleFailed(s, id, flight.intent, reply.StaleFence?, echo);
      NextKeeps(m, id, limit);
      FrameTransitive(s, m, Next(m, id), id);
    }
  }

  lemma FrameKeepsOther(s: State, t: State, id: int, j: int, limit: nat)
    requires Frame(s, t, id) && j != id && EffectInv(s, j, limit)
    requires Idle(s, j) ==> Exhausted(s) && s.lanes[j].latest.None?
    ensures EffectInv(t, j, limit)
    ensures Idle(t, j) ==> Exhausted(t) && t.lanes[j].latest.None?
  {
    assert FrameAt(s, t, j);
  }

  lemma StepKeeps(s: State, e: Event, limit: nat)
    requires Inv(s, limit) && limit >= 1
    ensures Inv(Step(s, e, limit), limit)
  {
    var id := e.id;
    var t := Step(s, e, limit);
    assert EffectInv(s, id, limit);
    assert Idle(s, id) ==> Exhausted(s) && s.lanes[id].latest.None?;
    if t != s {
      if e.Enqueue? {
        EnqueueStepKeeps(s, id, e.enabled, e.seed, limit);
      } else {
        SettleStepKeeps(s, id, e.reply, e.echo, limit);
      }
      forall j ensures EffectInv(t, j, limit) && (Idle(t, j) ==> Exhausted(t) && t.lanes[j].latest.None?) {
        if j != id { FrameKeepsOther(s, t, id, j, limit); }
      }
    }
  }

  /** Every run is lawful, with every lane in step with what was recorded. */
  lemma {:induction false} EveryRun(events: seq<Event>, limit: nat)
    requires limit >= 1
    ensures Inv(Run(Init(), events, limit), limit)
    decreases |events|
  {
    if events != [] {
      EveryRun(events[..|events| - 1], limit);
      StepKeeps(Run(Init(), events[..|events| - 1], limit), events[|events| - 1], limit);
    }
  }

  // ---- what the runs promise ----

  predicate IsReport(r: Record, id: int) {
    (r.Applied? || r.Failed?) && r.intent.effectId == id
  }

  lemma LawfulPrefix(log: seq<Record>, n: nat, limit: nat)
    requires LawfulLog(log, limit) && n <= |log|
    ensures LawfulLog(log[..n], limit)
  {
    forall i | 0 <= i < n ensures LawfulAt(log[..n], i, limit) {
      assert log[..n][..i] == log[..i];
      assert LawfulAt(log, i, limit);
    }
  }

  lemma LawfulLast(log: seq<Record>, limit: nat)
    requires LawfulLog(log, limit) && log != []
    ensures LawfulLog(log[..|log| - 1], limit) && LawfulAt(log, |log| - 1, limit)
  {
    LawfulPrefix(log, |log| - 1, limit);
  }

  lemma {:induction false} ReportedIsReached(log: seq<Record>, id: int, i: nat, limit: nat)
    requires LawfulLog(log, limit) && i < |log| && IsReport(log[i], id)
    ensures log[i].intent.generation <= See(log, id).reported
    decreases |log|
  {
    LawfulLast(log, limit);
    if i < |log| - 1 { ReportedIsReached(log[..|log| - 1], id, i, limit); }
  }

  /** The generations reported for one effect strictly increase, so none is reported twice. */
  lemma ReportsIncrease(events: seq<Event>, limit: nat, id: int, i: nat, j: nat)
    requires limit >= 1
    requires var log := Run(Init(), events, limit).log;
      i < j < |log| && IsReport(log[i], id) && IsReport(log[j], id)
    ensures var log := Run(Init(), events, limit).log;
      log[i].intent.generation < log[j].intent.generation
  {
    EveryRun(events, limit);
    LogReportsIncrease(Run(Init(), events, limit).log, limit, id, i, j);
  }

  lemma LogReportsIncrease(log: seq<Record>, limit: nat, id: int, i: nat, j: nat)
    requires LawfulLog(log, limit) && i < j < |log| && IsReport(log[i], id) && IsReport(log[j], id)
    ensures log[i].intent.generation < log[j].intent.generation
  {
    LawfulPrefix(log, j, limit);
    assert log[..j][i] == log[i];
    ReportedIsReached(log[..j], id, i, limit);
    assert LawfulAt(log, j, limit);
  }

  /**
   A report names the newest intent enqueued for its effect so far; it says applied only if the
   server's last settled value is the desired one, and a failure carries that last value.
   */
  lemma ReportsAreTrue(events: seq<Event>, limit: nat, i: nat)
    requires limit >= 1 && i < |Run(Init(), events, limit).log|
    ensures var log := Run(Init(), events, limit).log;
      var seen := See(log[..i], EffectOf(log[i]));
      && (log[i].Applied? ==> seen.queued == Some(log[i].intent) && seen.settled == Some(log[i].intent.enabled))
      && (log[i].Failed? ==> seen.queued == Some(log[i].intent) && seen.settled == Some(log[i].settled))
  {
    EveryRun(events, limit);
    assert LawfulAt(Run(Init(), events, limit).log, i, limit);
  }

  /** Only the newest desired value is ever sent, and only while no other request is out. */
  lemma DispatchesAreNewestAndSerial(events: seq<Event>, limit: nat, i: nat)
    requires limit >= 1 && i < |Run(Init(), events, limit).log|
    ensures var log := Run(Init(), events, limit).log;
      var seen := See(log[..i], EffectOf(log[i]));
      log[i].Dispatched? ==> seen.queued == Some(log[i].intent) && seen.flying == 0
  {
    EveryRun(events, limit);
    assert LawfulAt(Run(Init(), events, limit).log, i, limit);
  }

  lemma {:induction false} LogAttemptsBounded(log: seq<Record>, limit: nat, id: int, g: nat)
    requires LawfulLog(log, limit)
    ensures Attempts(log, id, g) <= limit
    decreases |log|
  {
    if log != [] {
      LawfulLast(log, limit);
      LogAttemptsBounded(log[..|log| - 1], limit, id, g);
    }
  }

  /** No generation is dispatched more than maxAttempts times. */
  lemma AttemptsBounded(events: seq<Event>, limit: nat, id: int, g: nat)
    requires limit >= 1
    ensures Attempts(Run(Init(), events, limit).log, id, g) <= limit
  {
    EveryRun(events, limit);
    LogAttemptsBounded(Run(Init(), events, limit).log, limit, id, g);
  }

  /**
   In every reachable state an effect has at most one request in flight, a lane's settled value
   is the last server value (or its seed), and an effect without a lane has had its newest
   intent reported.
   */
  lemma LanesMatchHistory(events: seq<Event>, limit: nat, id: int)
    requires limit >= 1
    ensures var s := Run(Init(), events, limit);
      var seen := See(s.log, id);
      && seen.flying <= 1
      && (seen.flying == 1 <==> id in s.lanes && s.lanes[id].flight.Some?)
      && (id in s.lanes ==> seen.settled == Some(s.lanes[id].settled))
      && (id in s.lanes && s.lanes[id].latest.Some? ==> seen.queued == s.lanes[id].latest && !AllReported(seen))
      && (id !in s.lanes ==> AllReported(seen))
  {
    EveryRun(events, limit);
    assert EffectInv(Run(Init(), events, limit), id, limit);
  }

  /** How many more answers a lane needs when nothing new is enqueued. */
  function Remaining(s: State, id: int, limit: nat): nat {
    if id !in s.lanes || s.lanes[id].flight.None? || s.lanes[id].latest.None? then 0
    else if s.lanes[id].flight.value.intent.generation == s.lanes[id].latest.value.generation then
      if s.lanes[id].flight.value.attempt < limit then limit - s.lanes[id].flight.value.attempt else 0
    else limit + 1
  }

  lemma AnswerMakesProgress(s: State, id: int, reply: Reply, limit: nat)
    requires Inv(s, limit) && limit >= 1 && id in s.lanes && s.lanes[id].flight.Some?
    ensures var t := Step(s, Settle(id, reply, []), limit);
      && Remaining(t, id, limit) < Remaining(s, id, limit)
      && (id in t.lanes ==> t.lanes[id].flight.Some?)
  {
    assert EffectInv(s, id, limit);
    SettleStepKeeps(s, id, reply, [], limit);
    StepKeeps(s, Settle(id, reply, []), limit);
    assert EffectInv(Step(s, Settle(id, reply, []), limit), id, limit);
  }

  /** Nothing new is enqueued for effect id: other effects' events are free, its own are answers without echo. */
  predicate Quiet(e: Event, id: int) { e.id == id ==> e.Settle? && e.echo == [] }

  /** How many of the events are answers to effect id. */
  function Answers(events: seq<Event>, id: int): nat
    decreases |events|
  {
    if events == [] then 0
    else Answers(events[..|events| - 1], id) + if events[|events| - 1].id == id then 1 else 0
  }

  lemma OtherEffectsKeepLane(s: State, e: Event, id: int, limit: nat)
    requires Inv(s, limit) && limit >= 1 && e.id != id
    ensures FrameAt(s, Step(s, e, limit), id)
  {
    assert EffectInv(s, e.id, limit);
    assert Idle(s, e.id) ==> Exhausted(s) && s.lanes[e.id].latest.None?;
    if Step(s, e, limit) != s {
      if e.Enqueue? {
        EnqueueStepKeeps(s, e.id, e.enabled, e.seed, limit);
      } else {
        SettleStepKeeps(s, e.id, e.reply, e.echo, limit);
      }
    }
  }

  /** A lane with a request out needs at least one more answer. */
  lemma RunningNeedsAnAnswer(s: State, id: int, limit: nat)
    requires Inv(s, limit) && id in s.lanes && s.lanes[id].flight.Some?
    ensures Remaining(s, id, limit) > 0
  {
    assert EffectInv(s, id, limit);
  }

  /** What one event leaves of the answers needed. */
  lemma QuietStep(s: State, e: Event, id: int, limit: nat)
    requires Inv(s, limit) && limit >= 1 && !Idle(s, id) && Quiet(e, id)
    ensures var t := Step(s, e, limit);
      && Inv(t, limit) && !Idle(t, id) && (id in t.lanes ==> id in s.lanes)
      && (id in t.lanes ==> Remaining(t, id, limit) + (if e.id == id then 1 else 0) <= Remaining(s, id, limit))
  {
    StepKeeps(s, e, limit);
    if e.id != id {
      OtherEffectsKeepLane(s, e, id, limit);
    } else if id in s.lanes {
      AnswerMakesProgress(s, id, e.reply, limit);
    }
  }

  lemma {:induction false} QuietRun(s: State, events: seq<Event>, id: int, limit: nat)
    requires Inv(s, limit) && limit >= 1 && !Idle(s, id) && forall e :: e in events ==> Quiet(e, id)
    ensures var t := Run(s, events, limit);
      && Inv(t, limit) && !Idle(t, id)
      && (id in t.lanes ==> Remaining(t, id, limit) + Answers(events, id) <= Remaining(s, id, limit))
    decreases |events|
  {
    if events != [] {
      var front, e := events[..|events| - 1], events[|events| - 1];
      assert e in events && forall x :: x in front ==> x in events;
      QuietRun(s, front, id, limit);
      QuietStep(Run(s, front, limit), e, id, limit);
    }
  }

  /**
   The lane terminates: once nothing new is enqueued for its effect, whatever happens to other effects and
   whatever the answers are, after `Remaining` of its answers the lane is gone and its newest intent reported.
   */
  lemma LaneDrains(s: State, events: seq<Event>, id: int, limit: nat)
    requires Inv(s, limit) && limit >= 1 && !Idle(s, id) && forall e :: e in events ==> Quiet(e, id)
    requires Answers(events, id) >= Remaining(s, id, limit)
    ensures var t := Run(s, events, limit);
      id !in t.lanes && AllReported(See(t.log, id))
  {
    var t := Run(s, events, limit);
    QuietRun(s, events, id, limit);
    assert EffectInv(t, id, limit);
    if id in t.lanes { RunningNeedsAnAnswer(t, id, limit); }
  }

  lemma {:induction false} ReportedHasARecord(log: seq<Record>, id: int)
    requires See(log, id).reported > 0
    ensures exists i :: 0 <= i < |log| && IsReport(log[i], id) && log[i].intent.generation == See(log, id).reported
    decreases |log|
  {
    var n := |log| - 1;
    if n >= 0 && !(IsReport(log[n], id)) {
      ReportedHasARecord(log[..n], id);
      var i :| 0 <= i < n && IsReport(log[..n][i], id) && log[..n][i].intent.generation == See(log[..n], id).reported;
      assert log[i] == log[..n][i];
    }
  }

  lemma {:induction false} QueuedIsPositive(log: seq<Record>, id: int, limit: nat)
    requires LawfulLog(log, limit) && See(log, id).queued.Some?
    ensures See(log, id).queued.value.generation > 0
    decreases |log|
  {
    LawfulLast(log, limit);
    if See(log[..|log| - 1], id).queued.Some? { QueuedIsPositive(log[..|log| - 1], id, limit); }
  }

  /** At rest, the newest intent of an effect has exactly one report. */
  lemma NewestReportedExactlyOnce(events: seq<Event>, limit: nat, id: int)
    requires limit >= 1
    requires var s := Run(Init(), events, limit); id !in s.lanes && See(s.log, id).queued.Some?
    ensures var log := Run(Init(), events, limit).log;
      var newest := See(log, id).queued.value.generation;
      exists i :: 0 <= i < |log| && IsReport(log[i], id) && log[i].intent.generation == newest
        && forall j :: 0 <= j < |log| && IsReport(log[j], id) && log[j].intent.generation == newest ==> j == i
  {
    EveryRun(events, limit);
    var s := Run(Init(), events, limit);
    assert EffectInv(s, id, limit);
    QueuedIsPositive(s.log, id, limit);
    ReportedHasARecord(s.log, id);
    var i :| 0 <= i < |s.log| && IsReport(s.log[i], id) && s.log[i].intent.generation == See(s.log, id).reported;
    forall j | 0 <= j < |s.log| && IsReport(s.log[j], id) && s.log[j].intent.generation == See(s.log, id).reported
      ensures j == i
    {
      if i < j { LogReportsIncrease(s.log, limit, id, i, j); }
      if j < i { LogReportsIncrease(s.log, limit, id, j, i); }
    }
  }

  // ---- what must be recorded, from the records alone ----

  /** The values an observer enqueues, while generations last. */
  function Echoed(id: int, values: seq<bool>, generation: nat): (r: seq<Record>)
    ensures forall q :: q in r ==> q.Queued? && q.intent.effectId == id
    decreases |values|
  {
    if values == [] then []
    else
      var front := Echoed(id, values[..|values| - 1], generation);
      var n := generation + |front|;
      if n >= MAX_SAFE_INTEGER then front else front + [Queued(Intent(id, values[|values| - 1], n + 1))]
  }

  /** A report, the values its observer enqueues, and the dispatch of the newest of them. */
  function Reported(r: Record, id: int, echo: seq<bool>, generation: nat): seq<Record> {
    var queued := Echoed(id, echo, generation);
    [r] + queued + if queued == [] then [] else [Dispatched(queued[|queued| - 1].intent, 0)]
  }

  /** An answer: the newest intent is reported when it is satisfied or given up, retried, or sent. */
  function Answered(seen: Seen, attempts: nat, id: int, reply: Reply, echo: seq<bool>, generation: nat, limit: nat)
    : seq<Record>
    requires seen.queued.Some? && seen.sent.Some? && seen.settled.Some?
  {
    var newest, sent := seen.queued.value, seen.sent.value;
    if reply.Ok? then
      [Accepted(id, sent.enabled)]
      + if newest.enabled == sent.enabled then Reported(Applied(newest), id, echo, generation)
        else [Dispatched(newest, 0)]
    else
      [Refused(id, reply.StaleFence?)]
      + if newest != sent then [Dispatched(newest, 0)]
        else if reply.StaleFence? && attempts < limit then [Dispatched(newest, attempts)]
        else Reported(Failed(newest, seen.settled.value), id, echo, generation)
  }

  /** An enqueue: the baseline is read if no request is out, and the intent is sent if none is. */
  function Enqueued(seen: Seen, id: int, enabled: bool, seed: bool, generation: nat): seq<Record> {
    if !ValidId(id) then []
    else
      var intent := Intent(id, enabled, generation + 1);
      if seen.flying > 0 then [Queued(intent)] else [Seeded(id, seed), Queued(intent), Dispatched(intent, 0)]
  }

  predicate Answerable(seen: Seen) {
    seen.flying == 1 && seen.queued.Some? && seen.sent.Some? && seen.settled.Some?
  }

  /** The records of one segment, given those before it and the generations used. */
  function Policy(log: seq<Record>, e: Event, generation: nat, limit: nat): seq<Record> {
    var seen := See(log, e.id);
    match e
    case Enqueue(id, enabled, seed) => Enqueued(seen, id, enabled, seed, generation)
    case Settle(id, reply, echo) =>
      if !Answerable(seen) then []
      else Answered(seen, Attempts(log, id, seen.sent.value.generation), id, reply, echo, generation, limit)
  }

  function QueuedIn(log: seq<Record>): nat
    decreases |log|
  {
    if log == [] then 0 else QueuedIn(log[..|log| - 1]) + if log[|log| - 1].Queued? then 1 else 0
  }

  predicate Counted(s: State) { s.nextGeneration == QueuedIn(s.log) }

  lemma QueuedSnoc(log: seq<Record>, r: Record)
    ensures QueuedIn(log + [r]) == QueuedIn(log) + if r.Queued? then 1 else 0
  {
    assert (log + [r])[..|log|] == log;
  }

  lemma LogCounts(s: State, id: int, lane: Lane, r: Record)
    requires Counted(s) && !r.Queued?
    ensures Counted(Log(s, id, lane, r))
  {
    QueuedSnoc(s.log, r);
  }

  lemma ReplaceCounts(s: State, id: int, enabled: bool)
    requires Counted(s) && id in s.lanes
    ensures Counted(Replace(s, id, enabled))
  {
    QueuedSnoc(s.log, Queued(Intent(id, enabled, s.nextGeneration + 1)));
  }

  lemma {:induction false} EchoCounts(s: State, id: int, values: seq<bool>)
    requires Counted(s) && id in s.lanes
    ensures Counted(Echo(s, id, values))
    decreases |values|
  {
    if values != [] {
      EchoCounts(s, id, values[..|values| - 1]);
      ReplaceCounts(Echo(s, id, values[..|values| - 1]), id, values[|values| - 1]);
    }
  }

  lemma NextCounts(s: State, id: int)
    requires Counted(s) && id in s.lanes
    ensures Counted(Next(s, id))
  {
    if s.lanes[id].latest.Some? { DispatchCounts(s, id, s.lanes[id].latest.value, 0); }
  }

  lemma DispatchCounts(s: State, id: int, intent: Intent, attempt: nat)
    requires Counted(s) && id in s.lanes
    ensures Counted(Dispatch(s, id, intent, attempt))
  {
    LogCounts(s, id, s.lanes[id].(flight := Some(Flight(intent, attempt))), Dispatched(intent, attempt));
  }

  lemma ReportCounts(s: State, id: int, r: Record, generation: nat, echo: seq<bool>)
    requires Counted(s) && id in s.lanes && !r.Queued?
    ensures Counted(Report(s, id, r, generation, echo))
  {
    LogCounts(s, id, s.lanes[id], r);
    EchoCounts(Log(s, id, s.lanes[id], r), id, echo);
    ReportLogs(s, id, r, generation, echo);
    SameLogCounts(Echo(Log(s, id, s.lanes[id], r), id, echo), Report(s, id, r, generation, echo));
  }

  lemma ReportLogs(s: State, id: int, r: Record, generation: nat, echo: seq<bool>)
    requires id in s.lanes
    ensures var t, u := Report(s, id, r, generation, echo), Echo(Log(s, id, s.lanes[id], r), id, echo);
      t.log == u.log && t.nextGeneration == u.nextGeneration
  {
  }

  lemma SameLogCounts(s: State, t: State)
    requires Counted(s) && t.log == s.log && t.nextGeneration == s.nextGeneration
    ensures Counted(t)
  {
  }

  lemma SettleCounts(s: State, id: int, reply: Reply, echo: seq<bool>, limit: nat)
    requires Counted(s)
    ensures Counted(SettleStep(s, id, reply, echo, limit))
  {
    if id in s.lanes && s.lanes[id].flight.Some? {
      var f := s.lanes[id].flight.value;
      if reply.Ok? {
        SettleOkCounts(s, id, f.intent, echo);
        NextCounts(SettleOk(s, id, f.intent, echo), id);
      } else if Retries(s.lanes[id], f, reply, limit) {
        LogCounts(s, id, s.lanes[id].(flight := None), Refused(id, true));
        DispatchCounts(Refuse(s, id, true), id, f.intent, f.attempt + 1);
      } else {
        SettleFailedCounts(s, id, f.intent, reply.StaleFence?, echo);
        NextCounts(SettleFailed(s, id, f.intent, reply.StaleFence?, echo), id);
      }
    }
  }

  lemma SettleOkCounts(s: State, id: int, intent: Intent, echo: seq<bool>)
    requires Counted(s) && id in s.lanes
    ensures Counted(SettleOk(s, id, intent, echo))
  {
    var lane := s.lanes[id].(flight := None, settled := intent.enabled);
    var s1 := Log(s, id, lane, Accepted(id, intent.enabled));
    LogCounts(s, id, lane, Accepted(id, intent.enabled));
    if lane.latest.Some? {
      ReportCounts(s1, id, Applied(intent), intent.generation, echo);
      ReportCounts(s1, id, Applied(lane.latest.value), lane.latest.value.generation, echo);
    }
  }

  lemma SettleFailedCounts(s: State, id: int, intent: Intent, stale: bool, echo: seq<bool>)
    requires Counted(s) && id in s.lanes
    ensures Counted(SettleFailed(s, id, intent, stale, echo))
  {
    LogCounts(s, id, s.lanes[id].(flight := None), Refused(id, stale));
    var s1 := Refuse(s, id, stale);
    ReportCounts(s1, id, Failed(intent, s1.lanes[id].settled), intent.generation, echo);
  }

  lemma EnqueueCounts(s: State, id: int, enabled: bool, seed: bool)
    requires Counted(s)
    ensures Counted(EnqueueStep(s, id, enabled, seed))
  {
    if ValidId(id) {
      if id !in s.lanes { LogCounts(s, id, Lane(None, None, seed), Seeded(id, seed)); }
      var s0 := Seed(s, id, seed);
      ReplaceCounts(s0, id, enabled);
      NextCounts(Replace(s0, id, enabled), id);
    }
  }

  lemma {:induction false} GenerationsAreQueued(events: seq<Event>, limit: nat)
    ensures Counted(Run(Init(), events, limit))
    decreases |events|
  {
    if events != [] {
      var s, e := Run(Init(), events[..|events| - 1], limit), events[|events| - 1];
      GenerationsAreQueued(events[..|events| - 1], limit);
      match e
      case Enqueue(id, enabled, seed) => EnqueueCounts(s, id, enabled, seed);
      case Settle(id, reply, echo) => SettleCounts(s, id, reply, echo, limit);
    }
  }

  lemma {:induction false} EchoRecords(s: State, id: int, values: seq<bool>)
    requires id in s.lanes
    ensures var t, queued := Echo(s, id, values), Echoed(id, values, s.nextGeneration);
      && t.log == s.log + queued && t.nextGeneration == s.nextGeneration + |queued|
      && t.lanes[id].flight == s.lanes[id].flight
      && t.lanes[id].latest
         == (if queued == [] then s.lanes[id].latest else Some(queued[|queued| - 1].intent))
      && (queued != [] ==> queued[|queued| - 1].intent.generation == t.nextGeneration)
    decreases |values|
  {
    if values != [] {
      EchoRecords(s, id, values[..|values| - 1]);
    }
  }

  lemma ReportRecords(s: State, id: int, r: Record, generation: nat, echo: seq<bool>)
    requires id in s.lanes && s.lanes[id].flight.None? && s.lanes[id].latest.Some?
    requires s.lanes[id].latest.value.generation == generation <= s.nextGeneration
    ensures var t := Next(Report(s, id, r, generation, echo), id);
      t.log == s.log + Reported(r, id, echo, s.nextGeneration)
  {
    var s1 := Log(s, id, s.lanes[id], r);
    EchoRecords(s1, id, echo);
    var t := Report(s, id, r, generation, echo);
    var queued := Echoed(id, echo, s.nextGeneration);
    assert t.log == s.log + ([r] + queued);
    assert t.lanes[id].latest == if queued == [] then None else Some(queued[|queued| - 1].intent);
  }

  /** The lane holds what the records say of it. */
  lemma FlyingLane(s: State, id: int, limit: nat)
    requires EffectInv(s, id, limit)
    ensures var seen := See(s.log, id);
      && (seen.flying == 1 <==> id in s.lanes && s.lanes[id].flight.Some?) && seen.flying <= 1
      && (seen.flying == 1 ==>
            var lane := s.lanes[id];
            var f := lane.flight.value;
            && Answerable(seen) && lane.latest == seen.queued && Some(f.intent) == seen.sent
            && Some(lane.settled) == seen.settled
            && Attempts(s.log, id, f.intent.generation) == f.attempt + 1
            && (f.intent.generation == lane.latest.value.generation <==> f.intent == lane.latest.value))
  {
  }

  lemma AcceptedRecords(s: State, id: int, echo: seq<bool>, limit: nat)
    requires Inv(s, limit) && id in s.lanes && s.lanes[id].flight.Some?
    ensures Step(s, Settle(id, Ok, echo), limit).log
            == s.log + Policy(s.log, Settle(id, Ok, echo), s.nextGeneration, limit)
  {
    assert EffectInv(s, id, limit);
    FlyingLane(s, id, limit);
    var lane := s.lanes[id];
    var intent, newest := lane.flight.value.intent, lane.latest.value;
    NewestIsIssued(s, id, limit);
    var s1 := Log(s, id, lane.(flight := None, settled := intent.enabled), Accepted(id, intent.enabled));
    if newest.enabled == intent.enabled { ReportRecords(s1, id, Applied(newest), newest.generation, echo); }
  }

  lemma NewestIsIssued(s: State, id: int, limit: nat)
    requires Inv(s, limit) && id in s.lanes && s.lanes[id].latest.Some?
    ensures s.lanes[id].latest.value.generation <= s.nextGeneration
  {
    assert EffectInv(s, id, limit);
    QueuedNotAhead(s.log, id, s.nextGeneration);
  }

  lemma RefusedRecords(s: State, id: int, reply: Reply, echo: seq<bool>, limit: nat)
    requires Inv(s, limit) && id in s.lanes && s.lanes[id].flight.Some? && !reply.Ok?
    ensures Step(s, Settle(id, reply, echo), limit).log
            == s.log + Policy(s.log, Settle(id, reply, echo), s.nextGeneration, limit)
  {
    assert EffectInv(s, id, limit);
    FlyingLane(s, id, limit);
    var lane := s.lanes[id];
    if lane.latest.value != lane.flight.value.intent {
      SupersededRecords(s, id, reply, echo, limit);
    } else if Retries(lane, lane.flight.value, reply, limit) {
      RetriedRecords(s, id, echo, limit);
    } else {
      NewestIsIssued(s, id, limit);
      FailedRecords(s, id, reply, echo, limit);
    }
  }

  lemma SupersededRecords(s: State, id: int, reply: Reply, echo: seq<bool>, limit: nat)
    requires EffectInv(s, id, limit) && id in s.lanes && s.lanes[id].flight.Some? && !reply.Ok?
    requires s.lanes[id].latest.value != s.lanes[id].flight.value.intent
    ensures Step(s, Settle(id, reply, echo), limit).log
            == s.log + Policy(s.log, Settle(id, reply, echo), s.nextGeneration, limit)
  {
    FlyingLane(s, id, limit);
  }

  lemma RetriedRecords(s: State, id: int, echo: seq<bool>, limit: nat)
    requires EffectInv(s, id, limit) && id in s.lanes && s.lanes[id].flight.Some?
    requires Retries(s.lanes[id], s.lanes[id].flight.value, StaleFence, limit)
    ensures Step(s, Settle(id, StaleFence, echo), limit).log
            == s.log + Policy(s.log, Settle(id, StaleFence, echo), s.nextGeneration, limit)
  {
    FlyingLane(s, id, limit);
  }

  lemma FailedRecords(s: State, id: int, reply: Reply, echo: seq<bool>, limit: nat)
    requires EffectInv(s, id, limit) && id in s.lanes && s.lanes[id].flight.Some? && !reply.Ok?
    requires s.lanes[id].latest.value == s.lanes[id].flight.value.intent
    requires s.lanes[id].latest.value.generation <= s.nextGeneration
    requires !Retries(s.lanes[id], s.lanes[id].flight.value, reply, limit)
    ensures Step(s, Settle(id, reply, echo), limit).log
            == s.log + Policy(s.log, Settle(id, reply, echo), s.nextGeneration, limit)
  {
    FlyingLane(s, id, limit);
    var lane := s.lanes[id];
    var intent := lane.flight.value.intent;
    ReportRecords(Refuse(s, id, reply.StaleFence?), id, Failed(intent, lane.settled), intent.generation, echo);
    FailureIsReported(s, id, reply, echo, limit);
  }

  lemma FailureIsReported(s: State, id: int, reply: Reply, echo: seq<bool>, limit: nat)
    requires id in s.lanes && s.lanes[id].flight.Some? && !reply.Ok?
    requires s.lanes[id].latest == Some(s.lanes[id].flight.value.intent)
    requires !Retries(s.lanes[id], s.lanes[id].flight.value, reply, limit)
    ensures var lane, intent := s.lanes[id], s.lanes[id].flight.value.intent;
      SettleStep(s, id, reply, echo, limit)
      == Next(Report(Refuse(s, id, reply.StaleFence?), id, Failed(intent, lane.settled), intent.generation, echo), id)
  {
  }

  lemma EnqueueRecords(s: State, id: int, enabled: bool, seed: bool, limit: nat)
    requires Inv(s, limit) && !Exhausted(s)
    ensures Step(s, Enqueue(id, enabled, seed), limit).log
            == s.log + Policy(s.log, Enqueue(id, enabled, seed), s.nextGeneration, limit)
  {
    assert EffectInv(s, id, limit);
    assert Idle(s, id) ==> Exhausted(s);
    FlyingLane(s, id, limit);
  }

  /**
   The lanes refine a policy that knows only what was recorded: in every run each segment records exactly what
   the policy says, and uses one generation for each intent queued.
   */
  lemma RecordsFollowThePolicy(events: seq<Event>, e: Event, limit: nat)
    requires limit >= 1
    ensures var s := Run(Init(), events, limit);
      var t := Step(s, e, limit);
      && s.nextGeneration == QueuedIn(s.log)
      && (e.Settle? || !Exhausted(s) ==> t.log == s.log + Policy(s.log, e, QueuedIn(s.log), limit))
      && (e.Enqueue? && Exhausted(s) ==> t.log == s.log || t.log == s.log + [Seeded(e.id, e.seed)])
  {
    EveryRun(events, limit);
    GenerationsAreQueued(events, limit);
    if e.Settle? || !Exhausted(Run(Init(), events, limit)) {
      StepFollowsThePolicy(Run(Init(), events, limit), e, limit);
    } else {
      ExhaustedRecords(Run(Init(), events, limit), e, limit);
    }
  }

  lemma ExhaustedRecords(s: State, e: Event, limit: nat)
    requires Inv(s, limit) && e.Enqueue? && Exhausted(s)
    ensures var t := Step(s, e, limit); t.log == s.log || t.log == s.log + [Seeded(e.id, e.seed)]
  {
    assert Idle(s, e.id) ==> s.lanes[e.id].latest.None?;
  }

  lemma StepFollowsThePolicy(s: State, e: Event, limit: nat)
    requires Inv(s, limit) && (e.Settle? || !Exhausted(s))
    ensures Step(s, e, limit).log == s.log + Policy(s.log, e, s.nextGeneration, limit)
  {
    assert EffectInv(s, e.id, limit);
    FlyingLane(s, e.id, limit);
    match e
    case Enqueue(id, enabled, seed) => EnqueueRecords(s, id, enabled, seed, limit);
    case Settle(id, reply, echo) =>
      if id in s.lanes && s.lanes[id].flight.Some? {
        if reply.Ok? { AcceptedRecords(s, id, echo, limit); } else { RefusedRecords(s, id, reply, echo, limit); }
      }
  }

  // ---- so an answer is always followed up ----

  /** What comes right after record i, if that is an answer. */
  predicate FollowedUp(log: seq<Record>, i: nat, limit: nat)
    requires i < |log|
  {
    var seen := See(log[..i], EffectOf(log[i]));
    seen.queued.Some? && seen.sent.Some? && seen.settled.Some? ==>
      var newest, sent := seen.queued.value, seen.sent.value;
      var attempts := Attempts(log[..i], EffectOf(log[i]), sent.generation);
      match log[i]
      case Accepted(_, v) =>
        i + 1 < |log| && log[i + 1] == if newest.enabled == v then Applied(newest) else Dispatched(newest, 0)
      case Refused(_, stale) =>
        && i + 1 < |log|
        && log[i + 1] == if newest != sent then Dispatched(newest, 0)
                         else if stale && attempts < limit then Dispatched(newest, attempts)
                         else Failed(newest, seen.settled.value)
      case _ => true
  }

  ghost predicate AllFollowedUp(log: seq<Record>, limit: nat) {
    forall i :: 0 <= i < |log| ==> FollowedUp(log, i, limit)
  }

  lemma PolicyFollowsUp(log: seq<Record>, e: Event, generation: nat, limit: nat)
    requires AllFollowedUp(log, limit)
    ensures AllFollowedUp(log + Policy(log, e, generation, limit), limit)
  {
    var more := Policy(log, e, generation, limit);
    var all := log + more;
    forall i | 0 <= i < |all| ensures FollowedUp(all, i, limit) {
      if i < |log| {
        assert FollowedUp(log, i, limit);
        FollowedUpExtends(log, more, i, limit);
      } else if i == |log| {
        assert all[..i] == log && all[i] == more[0];
        FollowedUpFirst(log, e, generation, limit);
      } else {
        assert all[i] == more[i - |log|];
        OnlyFirstAnswers(log, e, generation, limit, i - |log|);
      }
    }
  }

  lemma FollowedUpExtends(log: seq<Record>, more: seq<Record>, i: nat, limit: nat)
    requires i < |log| && FollowedUp(log, i, limit)
    ensures FollowedUp(log + more, i, limit)
  {
    assert (log + more)[..i] == log[..i] && (log + more)[i] == log[i];
  }

  lemma FollowedUpFirst(log: seq<Record>, e: Event, generation: nat, limit: nat)
    requires Policy(log, e, generation, limit) != []
    ensures FollowedUp(log + Policy(log, e, generation, limit), |log|, limit)
  {
    var more := Policy(log, e, generation, limit);
    var all := log + more;
    assert all[..|log|] == log && all[|log|] == more[0];
    if e.Settle? {
      assert |more| > 1 && all[|log| + 1] == more[1];
    }
  }

  lemma OnlyFirstAnswers(log: seq<Record>, e: Event, generation: nat, limit: nat, k: nat)
    requires 0 < k < |Policy(log, e, generation, limit)|
    ensures var r := Policy(log, e, generation, limit)[k]; !r.Accepted? && !r.Refused?
  {
    if e.Settle? {
      var queued := Echoed(e.id, e.echo, generation);
      assert forall i :: 0 <= i < |queued| ==> queued[i] in queued;
    }
  }

  lemma {:induction false} RunFollowsUp(events: seq<Event>, limit: nat)
    requires limit >= 1
    ensures AllFollowedUp(Run(Init(), events, limit).log, limit)
    decreases |events|
  {
    if events != [] {
      var front, e := events[..|events| - 1], events[|events| - 1];
      var s := Run(Init(), front, limit);
      RunFollowsUp(front, limit);
      EveryRun(front, limit);
      if e.Settle? || !Exhausted(s) {
        StepFollowsThePolicy(s, e, limit);
        PolicyFollowsUp(s.log, e, s.nextGeneration, limit);
      } else {
        ExhaustedRecords(s, e, limit);
        if Step(s, e, limit).log != s.log { SeedFollowsUp(s.log, e, limit); }
      }
    }
  }

  lemma SeedFollowsUp(log: seq<Record>, e: Event, limit: nat)
    requires AllFollowedUp(log, limit) && e.Enqueue?
    ensures AllFollowedUp(log + [Seeded(e.id, e.seed)], limit)
  {
    forall i | 0 <= i < |log| + 1 ensures FollowedUp(log + [Seeded(e.id, e.seed)], i, limit) {
      if i < |log| {
        assert FollowedUp(log, i, limit);
        FollowedUpExtends(log, [Seeded(e.id, e.seed)], i, limit);
      }
    }
  }

  predicate AnswerAt(log: seq<Record>, i: nat) {
    i < |log| && (log[i].Accepted? || log[i].Refused?)
  }

  /**
   Over every run, what follows an accepted value at once is the report of the newest intent if that value is
   the one it desires, and else its dispatch.
   */
  lemma AcceptanceIsFollowedUp(events: seq<Event>, limit: nat, i: nat)
    requires limit >= 1
    requires var log := Run(Init(), events, limit).log; AnswerAt(log, i) && log[i].Accepted?
    ensures var log := Run(Init(), events, limit).log;
      var newest := See(log[..i], log[i].id).queued;
      && i + 1 < |log| && newest.Some?
      && log[i + 1] == if newest.value.enabled == log[i].enabled then Applied(newest.value)
                       else Dispatched(newest.value, 0)
  {
    AnswerHasAnIntent(events, limit, i);
    RunFollowsUp(events, limit);
    assert FollowedUp(Run(Init(), events, limit).log, i, limit);
  }

  /**
   And what follows a refusal is a dispatch of the newest intent if the refused one is no longer it, a retry if
   the fence was stale and attempts are left, and else the report of the failure.
   */
  lemma RefusalIsFollowedUp(events: seq<Event>, limit: nat, i: nat)
    requires limit >= 1
    requires var log := Run(Init(), events, limit).log; AnswerAt(log, i) && log[i].Refused?
    ensures var log := Run(Init(), events, limit).log;
      var seen := See(log[..i], log[i].id);
      && i + 1 < |log| && seen.queued.Some? && seen.sent.Some? && seen.settled.Some?
      && var newest, attempts := seen.queued.value, Attempts(log[..i], log[i].id, seen.sent.value.generation);
         log[i + 1] == if newest != seen.sent.value then Dispatched(newest, 0)
                       else if log[i].stale && attempts < limit then Dispatched(newest, attempts)
                       else Failed(newest, seen.settled.value)
  {
    AnswerHasAnIntent(events, limit, i);
    RunFollowsUp(events, limit);
    assert FollowedUp(Run(Init(), events, limit).log, i, limit);
  }

  lemma AnswerHasAnIntent(events: seq<Event>, limit: nat, i: nat)
    requires limit >= 1 && AnswerAt(Run(Init(), events, limit).log, i)
    ensures var log := Run(Init(), events, limit).log;
      var seen := See(log[..i], EffectOf(log[i]));
      seen.queued.Some? && seen.sent.Some? && seen.settled.Some?
  {
    EveryRun(events, limit);
    var log := Run(Init(), events, limit).log;
    assert LawfulAt(log, i, limit);
    LawfulPrefix(log, i, limit);
    FlyingHasAnIntent(log[..i], EffectOf(log[i]), limit);
  }

  lemma {:induction false} FlyingHasAnIntent(log: seq<Record>, id: int, limit: nat)
    requires LawfulLog(log, limit)
    ensures var seen := See(log, id);
      && (seen.queued.Some? ==> seen.settled.Some?)
      && (seen.flying > 0 ==> seen.queued.Some? && seen.sent.Some?)
    decreases |log|
  {
    if log != [] {
      LawfulLast(log, limit);
      FlyingHasAnIntent(log[..|log| - 1], id, limit);
    }
  }

  /** So nothing more of an effect is sent after a report until a new intent is queued for it. */
  lemma NoDispatchAfterReport(events: seq<Event>, limit: nat, id: int, i: nat, j: nat)
    requires limit >= 1
    requires var log := Run(Init(), events, limit).log;
      i < j < |log| && IsReport(log[i], id) && log[j].Dispatched? && log[j].intent.effectId == id
    ensures var log := Run(Init(), events, limit).log;
      exists k :: i < k < j && log[k].Queued? && log[k].intent.effectId == id
  {
    EveryRun(events, limit);
    var log := Run(Init(), events, limit).log;
    assert LawfulAt(log, i, limit) && LawfulAt(log, j, limit);
    if !exists k :: i < k < j && log[k].Queued? && log[k].intent.effectId == id {
      QueuedStands(log, id, i, j);
      LawfulPrefix(log, j, limit);
      assert log[..j][i] == log[i];
      ReportedIsReached(log[..j], id, i, limit);
    }
  }

  lemma {:induction false} QueuedStands(log: seq<Record>, id: int, i: nat, j: nat)
    requires i <= j <= |log| && (i < |log| ==> !log[i].Queued?)
    requires !exists k :: i < k < j && log[k].Queued? && log[k].intent.effectId == id
    ensures See(log[..j], id).queued == See(log[..i], id).queued
    decreases j
  {
    if i < j {
      QueuedStands(log, id, i, j - 1);
      assert log[..j][..j - 1] == log[..j - 1];
    }
  }

  // ---- the object ----

  /** The controller closure; the lanes are kept as values of its map. */
  class AuthoredEffectEnableController {
    var lanes: map<int, Lane>
    var nextGeneration: nat
    const maxAttempts: nat
    ghost var log: seq<Record>
    ghost var history: seq<Event>

    ghost function View(): State
      reads this
    {
      State(lanes, nextGeneration, log)
    }

    ghost predicate Valid()
      reads this
    {
      maxAttempts >= 1 && View() == Run(Init(), history, maxAttempts)
    }

    constructor (attempts: int)
      ensures Valid() && View() == Init()
      ensures maxAttempts == if attempts < 1 then 1 else attempts
    {
      maxAttempts := if attempts < 1 then 1 else attempts;
      lanes, nextGeneration := map[], 0;
      log, history := [], [];
    }

    ghost method Remember(e: Event)
      requires Valid()
      modifies `history
      ensures history == old(history) + [e]
      ensures Run(Init(), history, maxAttempts) == Step(View(), e, maxAttempts)
    {
      assert (history + [e])[..|history|] == history;
      history := history + [e];
    }

    method Enqueue(id: int, enabled: bool, seed: bool)
      requires Valid()
      modifies this
      ensures Valid() && View() == Step(old(View()), Event.Enqueue(id, enabled, seed), maxAttempts)
      ensures history == old(history) + [Event.Enqueue(id, enabled, seed)]
    {
      Remember(Event.Enqueue(id, enabled, seed));
      if !(0 < id <= MAX_SAFE_INTEGER) {
        return;
      }
      if id !in lanes {
        lanes := lanes[id := Lane(None, None, seed)];
        log := log + [Seeded(id, seed)];
      }
      SetLatest(id, enabled);
      if lanes[id].latest.Some? && lanes[id].flight.None? {
        RunLane(id);
      }
    }

    method SetLatest(id: int, enabled: bool)
      requires id in lanes
      modifies `lanes, `nextGeneration, `log
      ensures View() == Replace(old(View()), id, enabled)
    {
      if nextGeneration >= MAX_SAFE_INTEGER {
        return;
      }
      nextGeneration := nextGeneration + 1;
      var intent := Intent(id, enabled, nextGeneration);
      lanes := lanes[id := lanes[id].(latest := Some(intent))];
      log := log + [Queued(intent)];
    }

    method Send(id: int, intent: Intent, attempt: nat)
      requires id in lanes
      modifies `lanes, `log
      ensures View() == Dispatch(old(View()), id, intent, attempt)
    {
      lanes := lanes[id := lanes[id].(flight := Some(Flight(intent, attempt)))];
      log := log + [Dispatched(intent, attempt)];
    }

    method RunLane(id: int)
      requires id in lanes
      modifies `lanes, `log
      ensures View() == Next(old(View()), id)
    {
      var intent := lanes[id].latest;
      if intent.None? {
        lanes := lanes - {id};
      } else {
        Send(id, intent.value, 0);
      }
    }

    /** Calls the observer, which may enqueue, and retires the intent if it is still the newest. */
    method Publish(id: int, r: Record, generation: nat, echo: seq<bool>)
      requires id in lanes
      modifies `lanes, `nextGeneration, `log
      ensures View() == Report(old(View()), id, r, generation, echo)
    {
      ghost var start := Log(View(), id, lanes[id], r);
      log := log + [r];
      assert lanes == lanes[id := lanes[id]];
      for i := 0 to |echo|
        invariant id in lanes && View() == Echo(start, id, echo[..i])
      {
        assert echo[..i + 1][..i] == echo[..i];
        SetLatest(id, echo[i]);
      }
      assert echo[..|echo|] == echo;
      if lanes[id].latest.Some? && lanes[id].latest.value.generation == generation {
        lanes := lanes[id := lanes[id].(latest := None)];
      }
    }

    method DispatchSettled(id: int, reply: Reply, echo: seq<bool>)
      requires Valid() && id in lanes && lanes[id].flight.Some?
      modifies this
      ensures Valid() && View() == Step(old(View()), Settle(id, reply, echo), maxAttempts)
      ensures history == old(history) + [Settle(id, reply, echo)]
    {
      Remember(Settle(id, reply, echo));
      var flight := lanes[id].flight.value;
      if reply.Ok? {
        Fulfilled(id, flight.intent, echo);
        RunLane(id);
      } else if Retries(lanes[id], flight, reply, maxAttempts) {
        lanes := lanes[id := lanes[id].(flight := None)];
        log := log + [Refused(id, true)];
        Send(id, flight.intent, flight.attempt + 1);
      } else {
        Rejected(id, flight.intent, reply.StaleFence?, echo);
        RunLane(id);
      }
    }

    method Fulfilled(id: int, intent: Intent, echo: seq<bool>)
      requires id in lanes
      modifies `lanes, `nextGeneration, `log
      ensures id in lanes && View() == SettleOk(old(View()), id, intent, echo)
    {
      lanes := lanes[id := lanes[id].(flight := None, settled := intent.enabled)];
      log := log + [Accepted(id, intent.enabled)];
      var current := lanes[id].latest;
      if current.Some? {
        if current.value.generation == intent.generation {
          Publish(id, Applied(intent), intent.generation, echo);
        } else if current.value.enabled == intent.enabled {
          Publish(id, Applied(current.value), current.value.generation, echo);
        }
      }
    }

    method Rejected(id: int, intent: Intent, stale: bool, echo: seq<bool>)
      requires id in lanes
      modifies `lanes, `nextGeneration, `log
      ensures id in lanes && View() == SettleFailed(old(View()), id, intent, stale, echo)
    {
      lanes := lanes[id := lanes[id].(flight := None)];
      log := log + [Refused(id, stale)];
      if lanes[id].latest.Some? && lanes[id].latest.value.generation == intent.generation {
        Publish(id, Failed(intent, lanes[id].settled), intent.generation, echo);
      }
    }
  }
}
