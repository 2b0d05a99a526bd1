/**
 Beat-division triggers: createBeatTriggerScheduler of app/src/controlMappingPerform.ts.

 Beat positions and times are reals.  `moves` observes every tick that had a previous position, and
 `segment` counts the restarts: an unreadable position, or one at least a beat behind the latest.
 */
module BeatScheduler {
  import opened Prelude

  const RESYNC_GAP: real := 4.0
  const JITTER: real := 1.0
  const EXTRAPOLATION_MS: real := 750.0

  datatype Number = Finite(value: real) | NotFinite(text: string)

  datatype Clock = Clock(bpm: Number, counter: Number, phase: Number)

  datatype Action =
    | VideoClipSlotTrigger | VideoTake | VideoLayerStop | VideoLayerBlendMode
    | VideoTransitionKind | VideoTransitionTime
    | VideoIsfStageEnabled | VideoIsfParam
    | VideoGroupOpacity | VideoGroupSolo | VideoGroupBypass | VideoGroupBlendMode | VideoGroupEnabled
    | OtherAction

  datatype Mapping = Mapping(onBeat: bool, number: int, action: Action,
                             layer: Option<int>, slot: Option<int>, stage: Option<int>, group: Option<int>)

  datatype Input = Input(action: Action, layer: Option<int>, slot: Option<int>, stage: Option<int>, group: Option<int>,
                         toggle: bool)

  // ---- boundaries ----

  function Beats(number: int): Option<real> {
    if number == 0 then Some(0.25) else if number == 1 then Some(0.5) else if number == 2 then Some(1.0)
    else if number == 3 then Some(2.0) else if number == 4 then Some(4.0) else if number == 5 then Some(8.0)
    else if number == 6 then Some(16.0) else if number == 7 then Some(32.0) else None
  }

  /** The number of the last boundary of division `beats` at or before a position. */
  function Boundary(position: real, beats: real): int
    requires beats > 0.0
  {
    (position / beats).Floor
  }

  predicate Crossed(previous: real, next: real, beats: real) {
    beats > 0.0 && previous < next && next - previous <= RESYNC_GAP && Boundary(next, beats) > Boundary(previous, beats)
  }

  lemma BoundaryIsMonotone(a: real, b: real, beats: real)
    requires beats > 0.0 && a <= b
    ensures Boundary(a, beats) <= Boundary(b, beats)
  {
    QuotientDifference(a, b, beats);
  }

  lemma QuotientDifference(a: real, b: real, beats: real)
    requires beats > 0.0
    ensures (b - a) / beats == b / beats - a / beats
    ensures a <= b ==> (b - a) / beats >= 0.0
    ensures b - a <= beats ==> (b - a) / beats <= 1.0
  {
    var q := (b - a) / beats;
    assert q * beats == b - a;
    assert (b / beats - a / beats) * beats == b - a;
    assert q > 1.0 ==> q * beats > beats by { if q > 1.0 { Grow(q - 1.0, beats); } }
    assert q < 0.0 ==> q * beats < 0.0 by { if q < 0.0 { Grow(-q, beats); } }
  }

  lemma Grow(x: real, y: real)
    requires x > 0.0 && y > 0.0
    ensures x * y > 0.0
  {
  }

  /** A step no longer than the division crosses at most one of its boundaries. */
  lemma ShortStepCrossesOne(a: real, b: real, beats: real)
    requires beats > 0.0 && b - a <= beats
    ensures Boundary(b, beats) <= Boundary(a, beats) + 1
  {
    QuotientDifference(a, b, beats);
  }

  // ---- the input of a mapping ----

  predicate IsTrigger(a: Action) {
    a.VideoClipSlotTrigger? || a.VideoTake? || a.VideoLayerStop? || a.VideoIsfStageEnabled? || a.VideoGroupSolo?
    || a.VideoGroupBypass? || a.VideoGroupEnabled?
  }

  predicate IsGroup(a: Action) {
    a.VideoGroupOpacity? || a.VideoGroupSolo? || a.VideoGroupBypass? || a.VideoGroupBlendMode? || a.VideoGroupEnabled?
  }

  predicate IsToggle(a: Action) {
    a.VideoIsfStageEnabled? || a.VideoGroupSolo? || a.VideoGroupBypass? || a.VideoGroupEnabled?
  }

  predicate OptionalId(id: Option<int>) { id.Some? ==> 0 < id.value <= MAX_SAFE_INTEGER }

  function InputFor(m: Mapping): Option<Input> {
    if !m.onBeat || !IsTrigger(m.action) then None
    else if !(OptionalId(m.layer) && OptionalId(m.slot) && OptionalId(m.stage) && OptionalId(m.group)) then None
    else if IsGroup(m.action) && (m.group.None? || m.layer.Some? || m.slot.Some? || m.stage.Some?) then None
    else if !IsGroup(m.action) && m.group.Some? then None
    else Some(Input(m.action, m.layer, m.slot, m.stage, m.group, IsToggle(m.action)))
  }

  predicate Fires(m: Mapping, previous: real, next: real) {
    m.onBeat && Beats(m.number).Some? && Crossed(previous, next, Beats(m.number).value) && InputFor(m).Some?
  }

  /** The inputs due, in the order of their mappings. */
  function Due(ms: seq<Mapping>, previous: real, next: real): seq<Input>
    decreases |ms|
  {
    if ms == [] then []
    else
      var front, m := Due(ms[..|ms| - 1], previous, next), ms[|ms| - 1];
      if Fires(m, previous, next) then front + [InputFor(m).value] else front
  }

  function Dispatches(ms: seq<Mapping>, previous: real, next: real): seq<Input> {
    MoveToEnd((i: Input) => i.action.VideoTake?, Due(ms, previous, next))
  }

  // ---- the scheduler ----

  datatype Anchor = Anchor(position: real, at: real, perMs: real)

  /** A tick with a previous position, its outcome and the segment it belongs to. */
  datatype Move = Move(segment: nat, before: real, position: real, suspended: bool, mappings: seq<Mapping>,
                       dispatched: seq<Input>)

  datatype State = State(previous: Option<real>, anchor: Option<Anchor>, lastClock: Option<Clock>, segment: nat,
                         moves: seq<Move>)

  datatype Event =
    | Observe(clock: Option<Clock>, now: real, mappings: seq<Mapping>, suspended: bool)
    | Advance(now: real, mappings: seq<Mapping>, suspended: bool)
    | TickAt(position: Option<real>, mappings: seq<Mapping>, suspended: bool)
    | Reset

  function Init(): State { State(None, None, None, 0, []) }

  predicate Restarts(before: real, position: real) { before - position >= JITTER }

  function Tick(s: State, position: Option<real>, ms: seq<Mapping>, suspended: bool): State {
    if position.None? then s.(previous := None, segment := s.segment + 1)
    else if s.previous.None? then s.(previous := position)
    else
      var p, before := position.value, s.previous.value;
      s.(previous := Some(if p < before && before - p < JITTER then before else p),
         segment := if Restarts(before, p) then s.segment + 1 else s.segment,
         moves := s.moves + [Move(s.segment, before, p, suspended, ms,
                                  if suspended then [] else Dispatches(ms, before, p))])
  }

  predicate Readable(clock: Option<Clock>) { clock.Some? && clock.value.counter.Finite? && clock.value.phase.Finite? }

  function Tempo(bpm: Number): real {
    if bpm.Finite? && 0.0 < bpm.value <= 1000.0 then bpm.value else 0.0
  }

  function AnchorAt(clock: Clock, now: real): Anchor
    requires clock.counter.Finite? && clock.phase.Finite?
  {
    Anchor(clock.counter.value + clock.phase.value, now, Tempo(clock.bpm) / 60000.0)
  }

  function Elapsed(anchor: Anchor, now: real): real {
    var e := now - anchor.at;
    if e > EXTRAPOLATION_MS then EXTRAPOLATION_MS else if e < 0.0 then 0.0 else e
  }

  function Extrapolated(anchor: Anchor, now: real): real {
    anchor.position + Times(Elapsed(anchor, now), anchor.perMs)
  }

  function Times(a: real, b: real): real { a * b }

  function Forget(s: State): State {
    s.(previous := None, anchor := None, lastClock := None, segment := s.segment + 1)
  }

  function Step(s: State, e: Event): State {
    match e
    case Observe(clock, now, ms, suspended) =>
      if !Readable(clock) then Forget(s)
      else if clock == s.lastClock && s.anchor.Some? then s
      else
        var anchor := AnchorAt(clock.value, now);
        Tick(s.(lastClock := clock, anchor := Some(anchor)), Some(anchor.position), ms, suspended)
    case Advance(now, ms, suspended) =>
      if s.anchor.None? then s else Tick(s, Some(Extrapolated(s.anchor.value, now)), ms, suspended)
    case TickAt(position, ms, suspended) => Tick(s, position, ms, suspended)
    case Reset => Forget(s)
  }

  function Run(s: State, events: seq<Event>): State
    decreases |events|
  {
    if events == [] then s
    else Step(Run(s, events[..|events| - 1]), events[|events| - 1])
  }

  // ---- the history of moves ----

  function High(m: Move): real { if m.position > m.before then m.position else m.before }

  /** Whether division `beats` fires in a move. */
  predicate Offers(m: Move, beats: real) { !m.suspended && Crossed(m.before, m.position, beats) }

  /** Within a segment each move starts at the highest position reached before it. */
  predicate Chained(moves: seq<Move>) {
    forall k :: 0 < k < |moves| ==> Linked(moves[k - 1], moves[k])
  }

  predicate Linked(a: Move, b: Move) {
    a.segment <= b.segment && (a.segment == b.segment ==> b.before == High(a) && !Restarts(a.before, a.position))
  }

  predicate MoveOk(m: Move) {
    m.dispatched == if m.suspended then [] else Dispatches(m.mappings, m.before, m.position)
  }

  predicate Ok(s: State) {
    && Chained(s.moves)
    && (forall m :: m in s.moves ==> MoveOk(m))
    && (s.moves != [] ==>
        var last := s.moves[|s.moves| - 1];
        && last.segment <= s.segment
        && (last.segment == s.segment ==> s.previous == Some(High(last)) && !Restarts(last.before, last.position)))
  }

  lemma TickKeeps(s: State, position: Option<real>, ms: seq<Mapping>, suspended: bool)
    requires Ok(s)
    ensures Ok(Tick(s, position, ms, suspended))
  {
    var t := Tick(s, position, ms, suspended);
    if |t.moves| > |s.moves| {
      forall k | 0 < k < |t.moves| ensures Linked(t.moves[k - 1], t.moves[k]) {
        assert k < |s.moves| ==> Linked(s.moves[k - 1], s.moves[k]);
      }
      forall m | m in t.moves ensures MoveOk(m) {
        assert m in s.moves || m == t.moves[|s.moves|];
      }
    }
  }

  lemma StepKeeps(s: State, e: Event)
    requires Ok(s)
    ensures Ok(Step(s, e))
  {
    match e
    case Observe(clock, now, ms, suspended) =>
      if Readable(clock) {
        var anchor := AnchorAt(clock.value, now);
        TickKeeps(s.(lastClock := clock, anchor := Some(anchor)), Some(anchor.position), ms, suspended);
      }
    case Advance(now, ms, suspended) =>
      if s.anchor.Some? { TickKeeps(s, Some(Extrapolated(s.anchor.value, now)), ms, suspended); }
    case TickAt(position, ms, suspended) => TickKeeps(s, position, ms, suspended);
    case Reset =>
  }

  lemma {:induction false} EveryRun(events: seq<Event>)
    ensures Ok(Run(Init(), events))
    decreases |events|
  {
    if events != [] {
      EveryRun(events[..|events| - 1]);
      StepKeeps(Run(Init(), events[..|events| - 1]), events[|events| - 1]);
    }
  }

  // ---- each boundary once ----

  function Count(moves: seq<Move>, i: nat, j: nat, beats: real): nat
    requires i <= j <= |moves|
    decreases j
  {
    if i == j then 0 else Count(moves, i, j - 1, beats) + if Offers(moves[j - 1], beats) then 1 else 0
  }

  /** Boundaries passed by one move: those it may fire and those it lets go. */
  function Passed(m: Move, beats: real): int
    requires beats > 0.0
  {
    Boundary(High(m), beats) - Boundary(m.before, beats)
  }

  /** A move that lets a boundary go: suspended, a gap over four beats, or more than one boundary at once. */
  predicate Loses(m: Move, beats: real)
    requires beats > 0.0
  {
    Passed(m, beats) > 0 && (m.suspended || m.position - m.before > RESYNC_GAP || Passed(m, beats) > 1)
  }

  lemma OneMove(m: Move, beats: real)
    requires beats > 0.0
    ensures (if Offers(m, beats) then 1 else 0) <= Passed(m, beats)
    ensures Passed(m, beats) == (if Offers(m, beats) then 1 else 0) <==> !Loses(m, beats)
  {
    BoundaryIsMonotone(m.before, High(m), beats);
  }

  lemma {:induction false} SegmentsBetween(moves: seq<Move>, i: nat, j: nat)
    requires Chained(moves) && i <= j < |moves|
    ensures moves[i].segment <= moves[j].segment
    decreases j
  {
    if i < j {
      SegmentsBetween(moves, i, j - 1);
      assert Linked(moves[j - 1], moves[j]);
    }
  }

  ghost predicate NoneLost(moves: seq<Move>, i: nat, j: nat, beats: real)
    requires i <= j <= |moves| && beats > 0.0
  {
    forall k :: i <= k < j ==> !Loses(moves[k], beats)
  }

  lemma {:induction false} CountWithin(moves: seq<Move>, i: nat, j: nat, beats: real)
    requires Chained(moves) && i < j <= |moves| && moves[i].segment == moves[j - 1].segment && beats > 0.0
    ensures Count(moves, i, j, beats) <= Boundary(High(moves[j - 1]), beats) - Boundary(moves[i].before, beats)
    ensures Count(moves, i, j, beats) == Boundary(High(moves[j - 1]), beats) - Boundary(moves[i].before, beats)
            <==> NoneLost(moves, i, j, beats)
    decreases j
  {
    OneMove(moves[j - 1], beats);
    assert Count(moves, i, i, beats) == 0;
    if i < j - 1 {
      SegmentsBetween(moves, i, j - 2);
      assert Linked(moves[j - 2], moves[j - 1]);
      CountWithin(moves, i, j - 1, beats);
      assert NoneLost(moves, i, j, beats) <==> NoneLost(moves, i, j - 1, beats) && !Loses(moves[j - 1], beats);
    }
  }

  /**
   Over consecutive moves without a restart a division fires at most once per boundary reached, and
   exactly once per boundary unless some move was suspended, too long, or passed two at once.
   */
  lemma FiresAreBoundaries(events: seq<Event>, i: nat, j: nat, beats: real)
    requires var moves := Run(Init(), events).moves;
             i < j <= |moves| && moves[i].segment == moves[j - 1].segment
    requires beats > 0.0
    ensures var moves := Run(Init(), events).moves;
            var reached := Boundary(High(moves[j - 1]), beats) - Boundary(moves[i].before, beats);
            && Count(moves, i, j, beats) <= reached
            && (Count(moves, i, j, beats) == reached <==> NoneLost(moves, i, j, beats))
  {
    EveryRun(events);
    CountWithin(Run(Init(), events).moves, i, j, beats);
  }

  predicate Small(m: Move, beats: real) {
    !m.suspended && m.position - m.before <= beats && m.position - m.before <= RESYNC_GAP
  }

  /** Unsuspended steps of at most the division and four beats lose nothing. */
  lemma SmallStepsFireEveryBoundary(events: seq<Event>, i: nat, j: nat, beats: real)
    requires var moves := Run(Init(), events).moves;
             && i < j <= |moves| && moves[i].segment == moves[j - 1].segment
             && forall k :: i <= k < j ==> Small(moves[k], beats)
    requires beats > 0.0
    ensures var moves := Run(Init(), events).moves;
            Count(moves, i, j, beats) == Boundary(High(moves[j - 1]), beats) - Boundary(moves[i].before, beats)
  {
    var moves := Run(Init(), events).moves;
    forall k | i <= k < j ensures !Loses(moves[k], beats) {
      assert Small(moves[k], beats);
      ShortStepCrossesOne(moves[k].before, High(moves[k]), beats);
    }
    FiresAreBoundaries(events, i, j, beats);
  }

  lemma {:induction false} HighNeverFalls(moves: seq<Move>, i: nat, j: nat)
    requires Chained(moves) && i < j < |moves| && moves[i].segment == moves[j].segment
    ensures High(moves[i]) <= moves[j].before
    decreases j
  {
    SegmentsBetween(moves, i, j - 1);
    assert Linked(moves[j - 1], moves[j]);
    if i < j - 1 { HighNeverFalls(moves, i, j - 1); }
  }

  /** Two firings of one division without a restart in between answer different boundaries, the later one further on. */
  lemma EachBoundaryFiresOnce(events: seq<Event>, i: nat, j: nat, beats: real)
    requires var moves := Run(Init(), events).moves;
             && i < j < |moves| && moves[i].segment == moves[j].segment
             && Offers(moves[i], beats) && Offers(moves[j], beats)
    ensures var moves := Run(Init(), events).moves;
            Boundary(moves[i].position, beats) < Boundary(moves[j].position, beats)
  {
    EveryRun(events);
    var moves := Run(Init(), events).moves;
    HighNeverFalls(moves, i, j);
    BoundaryIsMonotone(moves[i].position, moves[j].before, beats);
  }

  // ---- what a move dispatches ----

  /** How many mappings fire input x. */
  function Firing(ms: seq<Mapping>, previous: real, next: real, x: Input): nat
    decreases |ms|
  {
    if ms == [] then 0
    else
      Firing(ms[..|ms| - 1], previous, next, x)
      + if Fires(ms[|ms| - 1], previous, next) && InputFor(ms[|ms| - 1]) == Some(x) then 1 else 0
  }

  lemma {:induction false} DueCounts(ms: seq<Mapping>, previous: real, next: real, x: Input)
    ensures multiset(Due(ms, previous, next))[x] == Firing(ms, previous, next, x)
    decreases |ms|
  {
    if ms != [] { DueCounts(ms[..|ms| - 1], previous, next, x); }
  }

  /** A suspended move dispatches nothing; any other dispatches each input once for every mapping that fires it. */
  lemma DispatchesEachFiring(events: seq<Event>, k: nat, x: Input)
    requires k < |Run(Init(), events).moves|
    ensures var m := Run(Init(), events).moves[k];
            multiset(m.dispatched)[x] == if m.suspended then 0 else Firing(m.mappings, m.before, m.position, x)
  {
    EveryRun(events);
    var m := Run(Init(), events).moves[k];
    assert MoveOk(m);
    DueCounts(m.mappings, m.before, m.position, x);
    MoveToEndSorts((i: Input) => i.action.VideoTake?, Due(m.mappings, m.before, m.position));
  }

  /** Within one tick every Take comes after everything else. */
  lemma TakesComeLast(events: seq<Event>, k: nat, i: nat, j: nat)
    requires k < |Run(Init(), events).moves| && i < j < |Run(Init(), events).moves[k].dispatched|
    requires Run(Init(), events).moves[k].dispatched[i].action.VideoTake?
    ensures Run(Init(), events).moves[k].dispatched[j].action.VideoTake?
  {
    EveryRun(events);
    var m := Run(Init(), events).moves[k];
    assert MoveOk(m);
    MoveToEndSorts((x: Input) => x.action.VideoTake?, Due(m.mappings, m.before, m.position));
  }

  lemma {:induction false} FiringIsPositive(ms: seq<Mapping>, previous: real, next: real, m: Mapping)
    requires m in ms && Fires(m, previous, next)
    ensures Firing(ms, previous, next, InputFor(m).value) > 0
    decreases |ms|
  {
    if ms[|ms| - 1] != m { FiringIsPositive(ms[..|ms| - 1], previous, next, m); }
  }

  /** A beat mapping with a usable target fires in exactly the moves that offer its division. */
  lemma MappingFollowsItsDivision(events: seq<Event>, k: nat, m: Mapping)
    requires k < |Run(Init(), events).moves| && m in Run(Init(), events).moves[k].mappings
    requires m.onBeat && Beats(m.number).Some? && InputFor(m).Some?
    requires Offers(Run(Init(), events).moves[k], Beats(m.number).value)
    ensures InputFor(m).value in Run(Init(), events).moves[k].dispatched
  {
    var move := Run(Init(), events).moves[k];
    FiringIsPositive(move.mappings, move.before, move.position, m);
    DispatchesEachFiring(events, k, InputFor(m).value);
  }

  lemma {:induction false} FiringHasAMapping(ms: seq<Mapping>, previous: real, next: real, x: Input)
    requires Firing(ms, previous, next, x) > 0
    ensures exists m :: m in ms && Fires(m, previous, next) && InputFor(m) == Some(x)
    decreases |ms|
  {
    var m := ms[|ms| - 1];
    if !(Fires(m, previous, next) && InputFor(m) == Some(x)) {
      FiringHasAMapping(ms[..|ms| - 1], previous, next, x);
    }
  }

  /**
   A target a beat can fire: a trigger with valid identities, a group exactly for group actions, and nothing else
   beside a group.
   */
  predicate Usable(x: Input) {
    && IsTrigger(x.action) && OptionalId(x.layer) && OptionalId(x.slot) && OptionalId(x.stage) && OptionalId(x.group)
    && (IsGroup(x.action) <==> x.group.Some?)
    && (x.group.Some? ==> x.layer.None? && x.slot.None? && x.stage.None?)
    && (x.toggle <==> IsToggle(x.action))
  }

  /**
   Whatever is dispatched is a usable target, and some beat mapping of the tick, whose division the move offers, asked
   for it.
   */
  lemma DispatchedIsAskedFor(events: seq<Event>, k: nat, x: Input)
    requires k < |Run(Init(), events).moves| && x in Run(Init(), events).moves[k].dispatched
    ensures Usable(x)
    ensures var move := Run(Init(), events).moves[k];
            exists m :: m in move.mappings && InputFor(m) == Some(x) && m.onBeat && Beats(m.number).Some?
                        && Offers(move, Beats(m.number).value)
  {
    DispatchesEachFiring(events, k, x);
    var move := Run(Init(), events).moves[k];
    assert multiset(move.dispatched)[x] > 0;
    FiringHasAMapping(move.mappings, move.before, move.position, x);
    var m :| m in move.mappings && Fires(m, move.before, move.position) && InputFor(m) == Some(x);
    assert Offers(move, Beats(m.number).value);
  }

  // ---- restarts ----

  /**
   A step behind the latest position but less than a beat is jitter: no firing, no restart, and the latest position
   stands.
   */
  lemma JitterIsIgnored(s: State, p: real, ms: seq<Mapping>, suspended: bool)
    requires s.previous.Some? && s.previous.value - JITTER < p <= s.previous.value
    ensures var t := Tick(s, Some(p), ms, suspended);
            && t.previous == s.previous && t.segment == s.segment
            && |t.moves| == |s.moves| + 1 && t.moves[|s.moves|].dispatched == []
  {
    NothingDue(ms, s.previous.value, p);
  }

  lemma {:induction false} NothingDue(ms: seq<Mapping>, previous: real, next: real)
    requires next <= previous || next - previous > RESYNC_GAP
    ensures Dispatches(ms, previous, next) == []
    decreases |ms|
  {
    if ms != [] {
      NothingDue(ms[..|ms| - 1], previous, next);
      assert Due(ms[..|ms| - 1], previous, next) == [] by {
        MoveToEndSorts((x: Input) => x.action.VideoTake?, Due(ms[..|ms| - 1], previous, next));
        assert |multiset(Due(ms[..|ms| - 1], previous, next))| == 0;
      }
    }
  }

  /** The position an event feeds to the clock, if it feeds one. */
  function Fed(s: State, e: Event): Option<real> {
    match e
    case Observe(clock, now, _, _) =>
      if !Readable(clock) || (clock == s.lastClock && s.anchor.Some?) then None
      else Some(AnchorAt(clock.value, now).position)
    case Advance(now, _, _) => if s.anchor.None? then None else Some(Extrapolated(s.anchor.value, now))
    case TickAt(position, _, _) => position
    case Reset => None
  }

  /** Event k fed position q, in (or opening) the given segment. */
  predicate FedAt(events: seq<Event>, k: nat, segment: nat, q: real) {
    && k < |events| && Run(Init(), events[..k + 1]).segment == segment
    && Fed(Run(Init(), events[..k]), events[k]) == Some(q)
  }

  /** The previous position is the highest one fed in the segment. */
  ghost predicate Highest(events: seq<Event>) {
    var s := Run(Init(), events);
    && (s.previous.Some? ==> exists k: nat :: FedAt(events, k, s.segment, s.previous.value))
    && (forall k: nat, q :: FedAt(events, k, s.segment, q) ==> s.previous.Some? && q <= s.previous.value)
  }

  lemma FedStep(s: State, e: Event)
    ensures var t := Step(s, e);
            && (Fed(s, e).None? ==> t.previous.None? || (t.previous == s.previous && t.segment == s.segment))
            && (Fed(s, e).None? && t.segment == s.segment ==> t.previous == s.previous)
            && (Fed(s, e).Some? ==>
                var p := Fed(s, e).value;
                if s.previous.Some? && Restarts(s.previous.value, p) then
                  t.segment == s.segment + 1 && t.previous == Some(p)
                else
                  t.segment == s.segment
                  && t.previous == Some(if s.previous.Some? then Higher(s.previous.value, p) else p))
            && s.segment <= t.segment
  {
  }

  function Higher(a: real, b: real): real { if b < a then a else b }

  lemma {:induction false} SegmentsOfPrefixes(events: seq<Event>, k: nat)
    requires k <= |events|
    ensures Run(Init(), events[..k]).segment <= Run(Init(), events).segment
    decreases |events|
  {
    if k == |events| {
      assert events[..k] == events;
    } else {
      var front := events[..|events| - 1];
      SegmentsOfPrefixes(front, k);
      assert front[..k] == events[..k];
      FedStep(Run(Init(), front), events[|events| - 1]);
    }
  }

  /** What an earlier event fed is the same seen from a longer run. */
  lemma FedInFront(events: seq<Event>, k: nat, segment: nat, q: real)
    requires events != [] && k < |events| - 1
    ensures FedAt(events, k, segment, q) <==> FedAt(events[..|events| - 1], k, segment, q)
  {
    var front := events[..|events| - 1];
    assert front[..k + 1] == events[..k + 1] && front[..k] == events[..k];
  }

  lemma LastIsFed(events: seq<Event>, segment: nat, q: real)
    requires events != []
    ensures FedAt(events, |events| - 1, segment, q)
            <==> Run(Init(), events).segment == segment
                 && Fed(Run(Init(), events[..|events| - 1]), events[|events| - 1]) == Some(q)
  {
    assert events[..|events|] == events;
  }

  lemma {:induction false} PreviousIsHighest(events: seq<Event>)
    ensures Highest(events)
    decreases |events|
  {
    if events != [] {
      PreviousIsHighest(events[..|events| - 1]);
      HighestIsFed(events);
      HighestBounds(events);
    }
  }

  lemma HighestIsFed(events: seq<Event>)
    requires events != [] && Highest(events[..|events| - 1])
    ensures var s := Run(Init(), events);
            s.previous.Some? ==> exists k: nat :: FedAt(events, k, s.segment, s.previous.value)
  {
    var front, e := events[..|events| - 1], events[|events| - 1];
    var s, t := Run(Init(), front), Run(Init(), events);
    FedStep(s, e);
    if t.previous.Some? {
      LastIsFed(events, t.segment, t.previous.value);
      if Fed(s, e) != t.previous {
        var k: nat :| FedAt(front, k, s.segment, s.previous.value);
        FedInFront(events, k, s.segment, s.previous.value);
      }
    }
  }

  lemma HighestBounds(events: seq<Event>)
    requires events != [] && Highest(events[..|events| - 1])
    ensures var s := Run(Init(), events);
            forall k: nat, q :: FedAt(events, k, s.segment, q) ==> s.previous.Some? && q <= s.previous.value
  {
    var front, e := events[..|events| - 1], events[|events| - 1];
    var s, t := Run(Init(), front), Run(Init(), events);
    FedStep(s, e);
    forall k: nat, q | FedAt(events, k, t.segment, q) ensures t.previous.Some? && q <= t.previous.value {
      if k == |front| {
        LastIsFed(events, t.segment, q);
      } else {
        FedInFront(events, k, t.segment, q);
        SegmentsOfPrefixes(front, k + 1);
        assert t.segment == s.segment;
      }
    }
  }

  ghost predicate PassedByABeat(events: seq<Event>, p: real) {
    exists k: nat, q :: FedAt(events, k, Run(Init(), events).segment, q) && q >= p + JITTER
  }

  /**
   In any run whatever, a position restarts the clock if and only if some earlier position fed in the
   same segment, observed, extrapolated or ticked, lies at least a beat past it.
   */
  lemma RestartsIffPassedByABeat(events: seq<Event>, e: Event)
    requires Fed(Run(Init(), events), e).Some?
    ensures var s := Run(Init(), events);
            && (Step(s, e).segment == s.segment + 1 <==> PassedByABeat(events, Fed(s, e).value))
            && (Step(s, e).segment == s.segment <==> !PassedByABeat(events, Fed(s, e).value))
  {
    var s, p := Run(Init(), events), Fed(Run(Init(), events), e).value;
    PreviousIsHighest(events);
    FedStep(s, e);
    if s.previous.Some? && Restarts(s.previous.value, p) {
      var k: nat :| FedAt(events, k, s.segment, s.previous.value);
      assert s.previous.value >= p + JITTER;
    }
  }

  /** An observation no further back than the last one. */
  predicate ObservesForward(s: State, e: Event) {
    e.Observe? && Readable(e.clock) && s.anchor.Some? ==>
      s.anchor.value.position <= AnchorAt(e.clock.value, e.now).position
  }

  ghost predicate ObservedForward(events: seq<Event>) {
    forall k :: 0 <= k < |events| ==> ObservesForward(Run(Init(), events[..k]), events[k])
  }

  ghost predicate ObservedUpToAnchor(events: seq<Event>) {
    var s := Run(Init(), events);
    forall k: nat, q :: FedAt(events, k, s.segment, q) && events[k].Observe? ==>
      s.anchor.Some? && q <= s.anchor.value.position
  }

  lemma ForwardFront(events: seq<Event>)
    requires events != [] && ObservedForward(events)
    ensures ObservedForward(events[..|events| - 1])
    ensures ObservesForward(Run(Init(), events[..|events| - 1]), events[|events| - 1])
  {
    var front := events[..|events| - 1];
    forall k | 0 <= k < |front| ensures ObservesForward(Run(Init(), front[..k]), front[k]) {
      assert front[..k] == events[..k];
      assert ObservesForward(Run(Init(), events[..k]), events[k]);
    }
    assert ObservesForward(Run(Init(), events[..|front|]), events[|front|]);
  }

  lemma AnchorMovesForward(s: State, e: Event)
    requires ObservesForward(s, e)
    ensures var t := Step(s, e);
            && (s.anchor.Some? && t.segment == s.segment ==>
                t.anchor.Some? && s.anchor.value.position <= t.anchor.value.position)
            && (e.Observe? && Fed(s, e).Some? ==> t.anchor.Some? && t.anchor.value.position == Fed(s, e).value)
  {
  }

  lemma {:induction false} ObservationsStayBehindAnchor(events: seq<Event>)
    requires ObservedForward(events)
    ensures ObservedUpToAnchor(events)
    decreases |events|
  {
    if events != [] {
      var front, e := events[..|events| - 1], events[|events| - 1];
      var s, t := Run(Init(), front), Run(Init(), events);
      ForwardFront(events);
      ObservationsStayBehindAnchor(front);
      AnchorMovesForward(s, e);
      forall k: nat, q | FedAt(events, k, t.segment, q) && events[k].Observe?
        ensures t.anchor.Some? && q <= t.anchor.value.position
      {
        if k == |front| {
          LastIsFed(events, t.segment, q);
        } else {
          FedInFront(events, k, t.segment, q);
          SegmentsOfPrefixes(front, k + 1);
          FedStep(s, e);
          assert front[k] == events[k];
        }
      }
    }
  }

  ghost predicate Overshot(events: seq<Event>, p: real) {
    exists k: nat, q :: FedAt(events, k, Run(Init(), events).segment, q) && !events[k].Observe? && q >= p + JITTER
  }

  /**
   Where observations only move forward, a new observation restarts the clock if and only if an
   extrapolation (or a tick fed from outside) of the segment ran at least a beat past it.
   */
  lemma ForwardObservationRestartsIffOvershot(events: seq<Event>, e: Event)
    requires ObservedForward(events) && ObservesForward(Run(Init(), events), e)
    requires e.Observe? && Fed(Run(Init(), events), e).Some?
    ensures var s := Run(Init(), events);
            Step(s, e).segment == s.segment + 1 <==> Overshot(events, Fed(s, e).value)
  {
    var s, p := Run(Init(), events), Fed(Run(Init(), events), e).value;
    RestartsIffPassedByABeat(events, e);
    ObservationsStayBehindAnchor(events);
    if PassedByABeat(events, p) {
      var k: nat, q :| FedAt(events, k, s.segment, q) && q >= p + JITTER;
      assert !events[k].Observe?;
    }
  }

  // ---- the tempo at which that can happen ----

  /** The last clock reading of a run. */
  function LastNow(events: seq<Event>): Option<real>
    decreases |events|
  {
    if events == [] then None
    else
      var e := events[|events| - 1];
      if e.Observe? || e.Advance? then Some(e.now) else LastNow(events[..|events| - 1])
  }

  predicate InTime(clock: Option<real>, now: real) { clock.None? || clock.value <= now }

  predicate Later(a: real, b: real, strictly: bool) { if strictly then a < b else a <= b }

  /**
   Time does not run back; what is observed plays at tempo b or slower and, unless it repeats the last reading, is
   later than it; a tick from outside stays between that reading and where the clock has got to.
   */
  predicate Forward(s: State, clock: Option<real>, e: Event, b: real, strictly: bool) {
    match e
    case Observe(reading, now, _, _) =>
      && InTime(clock, now)
      && (Readable(reading) ==>
          && Tempo(reading.value.bpm) <= b
          && (s.anchor.None? || reading == s.lastClock
              || Later(s.anchor.value.position, AnchorAt(reading.value, now).position, strictly)))
    case Advance(now, _, _) => InTime(clock, now)
    case TickAt(position, _, _) =>
      position.Some? ==>
        && s.anchor.Some? && clock.Some? && Later(s.anchor.value.position, position.value, strictly)
        && position.value <= Extrapolated(s.anchor.value, clock.value)
    case Reset => true
  }

  ghost predicate ForwardRun(events: seq<Event>, b: real, strictly: bool) {
    forall k :: 0 <= k < |events| ==> Forward(Run(Init(), events[..k]), LastNow(events[..k]), events[k], b, strictly)
  }

  predicate NeverRestarts(moves: seq<Move>) { forall m :: m in moves ==> !Restarts(m.before, m.position) }

  /** The longest extrapolation, in beats, at tempo b. */
  function Reach(b: real): real { b / 80.0 }

  /** How far the previous position may be past the anchor. */
  predicate Bounded(s: State, clock: Option<real>, b: real, strictly: bool) {
    && (s.anchor.None? ==> s.previous.None?)
    && (s.anchor.Some? ==>
        0.0 <= s.anchor.value.perMs <= b / 60000.0 && clock.Some? && s.anchor.value.at <= clock.value)
    && (s.anchor.Some? && s.previous.Some? ==>
        BoundedAt(s.anchor.value, s.previous.value, clock.value, b, strictly))
  }

  predicate BoundedAt(anchor: Anchor, previous: real, clock: real, b: real, strictly: bool) {
    if strictly then previous < anchor.position + Reach(b) || previous <= Extrapolated(anchor, clock)
    else previous <= anchor.position + Reach(b)
  }

  lemma Product(a: real, b: real, c: real)
    requires 0.0 <= a <= b && 0.0 <= c
    ensures 0.0 <= Times(a, c) <= Times(b, c)
  {
    assert a * c >= 0.0;
    assert (b - a) * c >= 0.0;
    assert b * c == a * c + (b - a) * c;
  }

  /** Extrapolation grows with time, from the anchor to at most the reach of the tempo. */
  lemma ExtrapolationGrows(anchor: Anchor, now: real, later: real, b: real)
    requires 0.0 <= anchor.perMs <= b / 60000.0 && now <= later
    ensures anchor.position <= Extrapolated(anchor, now) <= Extrapolated(anchor, later) <= anchor.position + Reach(b)
  {
    Product(Elapsed(anchor, now), Elapsed(anchor, later), anchor.perMs);
    Product(Elapsed(anchor, later), EXTRAPOLATION_MS, anchor.perMs);
    assert Times(EXTRAPOLATION_MS, anchor.perMs) <= Reach(b);
  }

  predicate Slow(b: real, strictly: bool) { if strictly then b <= 80.0 else b < 80.0 }

  lemma TickStaysForward(s: State, clock: real, p: real, ms: seq<Mapping>, suspended: bool, b: real, strictly: bool)
    requires s.anchor.Some? && Bounded(s, Some(clock), b, strictly) && NeverRestarts(s.moves)
    requires s.previous.Some? ==> s.previous.value - p < JITTER
    requires BoundedAt(s.anchor.value, p, clock, b, strictly)
    ensures var t := Tick(s, Some(p), ms, suspended); Bounded(t, Some(clock), b, strictly) && NeverRestarts(t.moves)
  {
  }

  lemma ObserveStaysForward(s: State, clock: Option<real>, e: Event, b: real, strictly: bool)
    requires e.Observe? && 0.0 < b && Slow(b, strictly)
    requires Bounded(s, clock, b, strictly) && NeverRestarts(s.moves) && Forward(s, clock, e, b, strictly)
    ensures Bounded(Step(s, e), Some(e.now), b, strictly) && NeverRestarts(Step(s, e).moves)
  {
    if s.anchor.Some? { ExtrapolationGrows(s.anchor.value, clock.value, e.now, b); }
    if Fed(s, e).Some? {
      var anchor := AnchorAt(e.clock.value, e.now);
      ExtrapolationGrows(anchor, e.now, e.now, b);
      TickStaysForward(s.(lastClock := e.clock, anchor := Some(anchor)), e.now, anchor.position, e.mappings,
                       e.suspended, b,
                       strictly);
    }
  }

  lemma AdvanceStaysForward(s: State, clock: Option<real>, e: Event, b: real, strictly: bool)
    requires e.Advance? && 0.0 < b && Slow(b, strictly)
    requires Bounded(s, clock, b, strictly) && NeverRestarts(s.moves) && Forward(s, clock, e, b, strictly)
    ensures Bounded(Step(s, e), Some(e.now), b, strictly) && NeverRestarts(Step(s, e).moves)
  {
    if s.anchor.Some? {
      ExtrapolationGrows(s.anchor.value, clock.value, e.now, b);
      TickStaysForward(s, e.now, Extrapolated(s.anchor.value, e.now), e.mappings, e.suspended, b, strictly);
    }
  }

  lemma FedTickStaysForward(s: State, clock: Option<real>, e: Event, b: real, strictly: bool)
    requires e.TickAt? && 0.0 < b && Slow(b, strictly)
    requires Bounded(s, clock, b, strictly) && NeverRestarts(s.moves) && Forward(s, clock, e, b, strictly)
    ensures Bounded(Step(s, e), clock, b, strictly) && NeverRestarts(Step(s, e).moves)
  {
    if e.position.Some? {
      ExtrapolationGrows(s.anchor.value, clock.value, clock.value, b);
      TickStaysForward(s, clock.value, e.position.value, e.mappings, e.suspended, b, strictly);
    }
  }

  lemma {:induction false} SlowRunsNeverRestart(events: seq<Event>, b: real, strictly: bool)
    requires 0.0 < b && Slow(b, strictly) && ForwardRun(events, b, strictly)
    ensures Bounded(Run(Init(), events), LastNow(events), b, strictly) && NeverRestarts(Run(Init(), events).moves)
    decreases |events|
  {
    if events != [] {
      var front, e := events[..|events| - 1], events[|events| - 1];
      forall k | 0 <= k < |front| ensures Forward(Run(Init(), front[..k]), LastNow(front[..k]), front[k], b, strictly) {
        assert front[..k] == events[..k];
        assert Forward(Run(Init(), events[..k]), LastNow(events[..k]), events[k], b, strictly);
      }
      SlowRunsNeverRestart(front, b, strictly);
      assert Forward(Run(Init(), events[..|front|]), LastNow(events[..|front|]), events[|front|], b, strictly);
      var s, clock := Run(Init(), front), LastNow(front);
      match e
      case Observe(_, _, _, _) => ObserveStaysForward(s, clock, e, b, strictly);
      case Advance(_, _, _) => AdvanceStaysForward(s, clock, e, b, strictly);
      case TickAt(_, _, _) => FedTickStaysForward(s, clock, e, b, strictly);
      case Reset =>
    }
  }

  function Sample(bpm: real, counter: real, phase: real, now: real): Event {
    Observe(Some(Clock(Finite(bpm), Finite(counter), Finite(phase))), now, [], false)
  }

  lemma RunAppend(s: State, events: seq<Event>, e: Event)
    ensures Run(s, events + [e]) == Step(Run(s, events), e)
  {
    assert (events + [e])[..|events|] == events;
  }

  predicate Moved(s: State, t: State, before: real, position: real) {
    && |t.moves| == |s.moves| + 1 && t.moves[..|s.moves|] == s.moves
    && t.previous == Some(if position < before && before - position < JITTER then before else position)
    && t.segment == (if Restarts(before, position) then s.segment + 1 else s.segment)
    && t.moves[|s.moves|].segment == s.segment && t.moves[|s.moves|].before == before
    && t.moves[|s.moves|].position == position && !t.moves[|s.moves|].suspended
  }

  lemma SampleMoves(s: State, bpm: real, counter: real, phase: real, now: real)
    requires s.previous.Some? && s.lastClock != Some(Clock(Finite(bpm), Finite(counter), Finite(phase)))
    ensures var t := Step(s, Sample(bpm, counter, phase, now));
            && Moved(s, t, s.previous.value, counter + phase)
            && t.anchor == Some(Anchor(counter + phase, now, Tempo(Finite(bpm)) / 60000.0))
            && t.lastClock == Some(Clock(Finite(bpm), Finite(counter), Finite(phase)))
  {
  }

  lemma FirstSample(bpm: real, counter: real, phase: real, now: real)
    ensures Step(Init(), Sample(bpm, counter, phase, now))
            == State(Some(counter + phase), Some(Anchor(counter + phase, now, Tempo(Finite(bpm)) / 60000.0)),
                     Some(Clock(Finite(bpm), Finite(counter), Finite(phase))), 0, [])
  {
  }

  lemma RunOfTwo(a: Event, b: Event)
    ensures Run(Init(), [a, b]) == Step(Step(Init(), a), b)
  {
    RunAppend(Init(), [], a);
    RunAppend(Init(), [a], b);
    assert [] + [a] == [a] && [a] + [b] == [a, b];
    assert Run(Init(), []) == Init();
  }

  lemma RunOfThree(a: Event, b: Event, c: Event)
    ensures Run(Init(), [a, b, c]) == Step(Run(Init(), [a, b]), c)
  {
    RunAppend(Init(), [a, b], c);
    assert [a, b] + [c] == [a, b, c];
  }

  lemma RunOfFour(a: Event, b: Event, c: Event, d: Event)
    ensures Run(Init(), [a, b, c, d]) == Step(Run(Init(), [a, b, c]), d)
  {
    RunAppend(Init(), [a, b, c], d);
    assert [a, b, c] + [d] == [a, b, c, d];
  }

  lemma RunOfFive(a: Event, b: Event, c: Event, d: Event, e: Event)
    ensures Run(Init(), [a, b, c, d, e]) == Step(Run(Init(), [a, b, c, d]), e)
  {
    RunAppend(Init(), [a, b, c, d], e);
    assert [a, b, c, d] + [e] == [a, b, c, d, e];
  }

  lemma FloorsUsed()
    ensures Boundary(10.5, 1.0) == 10 && Boundary(12.0, 1.0) == 12 && Boundary(11.9, 1.0) == 11
            && Boundary(12.1, 1.0) == 12
  {
  }

  /** At 120 BPM a late snapshot lets extrapolation run over a beat ahead; the restart then fires boundary 12 again. */
  lemma OvershootCanRefire()
    ensures var moves := Run(Init(), [Sample(120.0, 10.0, 0.5, 0.0), Advance(750.0, [], false),
                                      Sample(120.0, 10.0, 0.9, 800.0), Sample(120.0, 11.0, 0.9, 1300.0),
                                      Sample(120.0, 12.0, 0.1, 1400.0)]).moves;
            && |moves| == 4 && Offers(moves[0], 1.0) && Offers(moves[3], 1.0)
            && Boundary(moves[0].position, 1.0) == Boundary(moves[3].position, 1.0) == 12
            && moves[0].segment != moves[3].segment
  {
    var a, b := Sample(120.0, 10.0, 0.5, 0.0), Advance(750.0, [], false);
    var c, d, e := Sample(120.0, 10.0, 0.9, 800.0), Sample(120.0, 11.0, 0.9, 1300.0), Sample(120.0, 12.0, 0.1, 1400.0);
    RunOfTwo(a, b);
    RunOfThree(a, b, c);
    RunOfFour(a, b, c, d);
    RunOfFive(a, b, c, d, e);
    FloorsUsed();
    Overshoots();
    FallsBackAndReturns(Step(Step(Init(), a), b));
  }

  lemma Overshoots()
    ensures var s := Step(Step(Init(), Sample(120.0, 10.0, 0.5, 0.0)), Advance(750.0, [], false));
            && s.previous == Some(12.0) && s.segment == 0 && |s.moves| == 1
            && s.lastClock == Some(Clock(Finite(120.0), Finite(10.0), Finite(0.5)))
            && s.moves[0].segment == 0 && s.moves[0].before == 10.5 && s.moves[0].position == 12.0
               && !s.moves[0].suspended
  {
    FirstSample(120.0, 10.0, 0.5, 0.0);
    var s1 := Step(Init(), Sample(120.0, 10.0, 0.5, 0.0));
    assert Moved(s1, Step(s1, Advance(750.0, [], false)), 10.5, 12.0);
  }

  lemma FallsBackAndReturns(s: State)
    requires s.previous == Some(12.0) && s.segment == 0 && |s.moves| == 1
    requires s.lastClock == Some(Clock(Finite(120.0), Finite(10.0), Finite(0.5)))
    ensures var t := Step(Step(Step(s, Sample(120.0, 10.0, 0.9, 800.0)), Sample(120.0, 11.0, 0.9, 1300.0)),
                          Sample(120.0, 12.0, 0.1, 1400.0));
            && |t.moves| == 4 && t.moves[0] == s.moves[0]
            && t.moves[3].segment == 1 && t.moves[3].before == 11.9 && t.moves[3].position == 12.1
               && !t.moves[3].suspended
  {
    SampleMoves(s, 120.0, 10.0, 0.9, 800.0);
    var a := Step(s, Sample(120.0, 10.0, 0.9, 800.0));
    SampleMoves(a, 120.0, 11.0, 0.9, 1300.0);
    var b := Step(a, Sample(120.0, 11.0, 0.9, 1300.0));
    SampleMoves(b, 120.0, 12.0, 0.1, 1400.0);
    var t := Step(b, Sample(120.0, 12.0, 0.1, 1400.0));
    assert t.moves[0] == t.moves[..3][0] && b.moves[0] == b.moves[..2][0] && a.moves[0] == a.moves[..1][0];
  }

  // ---- and above it ----

  /** The reading of position p that differs from the reading 0 + 0.5. */
  function Reading(b: real, p: real): Clock {
    if p > 0.5 then Clock(Finite(b), Finite(0.0), Finite(p)) else Clock(Finite(b), Finite(p), Finite(0.0))
  }

  /** The milliseconds in which y beats pass at tempo b. */
  function Duration(y: real, b: real): real
    requires b > 0.0
  {
    y * 60000.0 / b
  }

  /** A reading at 0.5, y beats of extrapolation, a reading y - 1 beats on, and one beat of extrapolation. */
  function FallBack(b: real, y: real): seq<Event>
    requires b > 0.0
  {
    [Sample(b, 0.0, 0.5, 0.0), Advance(Duration(y, b), [], false),
     Observe(Some(Reading(b, y - 0.5)), Duration(y, b), [], false),
     Advance(Duration(y, b) + Duration(1.0, b), [], false)]
  }

  lemma DurationPasses(y: real, b: real)
    requires 0.0 < y && 0.0 < b && y <= Reach(b)
    ensures 0.0 < Duration(y, b) <= EXTRAPOLATION_MS
    ensures Times(Duration(y, b), b / 60000.0) == y
  {
    var t := Duration(y, b);
    DividedBack(y * 60000.0, b);
    assert Times(t, b) == y * 60000.0 && Times(0.0, b) == 0.0 && Times(EXTRAPOLATION_MS, b) == 750.0 * b;
    TimesKeepsOrder(t, 0.0, b);
    TimesKeepsOrder(EXTRAPOLATION_MS, t, b);
    SixtyThousandth(t, b);
  }

  lemma DividedBack(x: real, b: real)
    requires b > 0.0
    ensures Times(x / b, b) == x
  {
  }

  lemma SixtyThousandth(t: real, b: real)
    ensures Times(t, b / 60000.0) == Times(t, b) / 60000.0
  {
  }

  lemma TimesKeepsOrder(t: real, u: real, b: real)
    requires 0.0 < b
    ensures t < u ==> Times(t, b) < Times(u, b)
  {
    if t < u {
      Grow(u - t, b);
      assert (u - t) * b == u * b - t * b;
    }
  }

  lemma ExtrapolatesBy(anchor: Anchor, y: real, b: real)
    requires 0.0 < y <= Reach(b) && 0.0 < b && anchor.perMs == b / 60000.0
    ensures Extrapolated(anchor, anchor.at + Duration(y, b)) == anchor.position + y
  {
    DurationPasses(y, b);
    assert Elapsed(anchor, anchor.at + Duration(y, b)) == Duration(y, b);
  }

  predicate CanFallBack(b: real, y: real) { 0.0 < b <= 1000.0 && 1.0 <= y <= 1.25 && y <= Reach(b) }

  /** The four states of that run. */
  function Fallen(b: real, y: real, k: nat): State
    requires b > 0.0 && k <= 4
    decreases k
  {
    if k == 0 then Init() else Step(Fallen(b, y, k - 1), FallBack(b, y)[k - 1])
  }

  lemma {:induction false} FallenRuns(b: real, y: real, k: nat)
    requires b > 0.0 && k <= 4
    ensures Run(Init(), FallBack(b, y)[..k]) == Fallen(b, y, k)
    decreases k
  {
    if k > 0 {
      FallenRuns(b, y, k - 1);
      assert FallBack(b, y)[..k][..k - 1] == FallBack(b, y)[..k - 1];
    }
  }

  lemma FallsFirst(b: real, y: real)
    requires CanFallBack(b, y)
    ensures Fallen(b, y, 1) == State(Some(0.5), Some(Anchor(0.5, 0.0, b / 60000.0)),
                                     Some(Clock(Finite(b), Finite(0.0), Finite(0.5))), 0, [])
  {
    FirstSample(b, 0.0, 0.5, 0.0);
  }

  lemma FallsAhead(b: real, y: real)
    requires CanFallBack(b, y)
    ensures var s := Fallen(b, y, 2);
            && s == Fallen(b, y, 1).(previous := Some(0.5 + y), moves := s.moves)
            && |s.moves| == 1 && s.moves[0] == Move(0, 0.5, 0.5 + y, false, [], s.moves[0].dispatched)
  {
    FallsFirst(b, y);
    ExtrapolatesBy(Anchor(0.5, 0.0, b / 60000.0), y, b);
  }

  lemma FallsBack(b: real, y: real)
    requires CanFallBack(b, y)
    ensures var s := Fallen(b, y, 3);
            && s == State(Some(y - 0.5), Some(Anchor(y - 0.5, Duration(y, b), b / 60000.0)), Some(Reading(b, y - 0.5)),
                          1, s.moves)
            && |s.moves| == 2 && s.moves[0] == Fallen(b, y, 2).moves[0]
            && s.moves[1] == Move(0, 0.5 + y, y - 0.5, false, [], s.moves[1].dispatched)
  {
    FallsFirst(b, y);
    FallsAhead(b, y);
  }

  lemma FallsAheadAgain(b: real, y: real)
    requires CanFallBack(b, y)
    ensures var s := Fallen(b, y, 4);
            && |s.moves| == 3 && s.moves[0] == Fallen(b, y, 3).moves[0] && s.moves[1] == Fallen(b, y, 3).moves[1]
            && s.moves[2] == Move(1, y - 0.5, 0.5 + y, false, [], s.moves[2].dispatched)
  {
    FallsBack(b, y);
    ExtrapolatesBy(Anchor(y - 0.5, Duration(y, b), b / 60000.0), 1.0, b);
  }

  lemma FallBackIsForward(b: real, y: real, strictly: bool)
    requires CanFallBack(b, y) && (strictly ==> y > 1.0)
    ensures ForwardRun(FallBack(b, y), b, strictly)
  {
    var events := FallBack(b, y);
    FallsFirst(b, y);
    FallsAhead(b, y);
    FallsBack(b, y);
    DurationPasses(y, b);
    DurationPasses(1.0, b);
    assert events[..1] == [events[0]] && events[..2] == [events[0], events[1]]
           && events[..3] == [events[0], events[1], events[2]];
    assert LastNow(events[..0]) == None && LastNow(events[..1]) == Some(0.0);
    assert LastNow(events[..2]) == Some(Duration(y, b)) && LastNow(events[..3]) == Some(Duration(y, b));
    forall k | 0 <= k < 4 ensures Forward(Run(Init(), events[..k]), LastNow(events[..k]), events[k], b, strictly) {
      FallenRuns(b, y, k);
    }
  }

  /** From 80 BPM up that run restarts and fires its boundary twice. */
  lemma FallBackRefires(b: real, y: real)
    requires CanFallBack(b, y)
    ensures var moves := Run(Init(), FallBack(b, y)).moves;
            && |moves| == 3 && Restarts(moves[1].before, moves[1].position)
            && Offers(moves[0], 1.0) && Offers(moves[2], 1.0) && moves[0].position == moves[2].position
  {
    FallenRuns(b, y, 4);
    assert FallBack(b, y)[..4] == FallBack(b, y);
    FallsAhead(b, y);
    FallsBack(b, y);
    FallsAheadAgain(b, y);
    assert Boundary(0.5, 1.0) == 0;
    BoundaryIsMonotone(1.5, 0.5 + y, 1.0);
    assert Boundary(1.5, 1.0) == 1;
    OneBeatFurther(y - 0.5);
  }

  lemma OneBeatFurther(p: real)
    ensures Boundary(p + 1.0, 1.0) == Boundary(p, 1.0) + 1
  {
  }

  /** The overshoot used at tempo b: as far as it reaches, at most a beat and a quarter. */
  function Excess(b: real): real { if Reach(b) > 1.25 then 1.25 else Reach(b) }

  lemma FastRunsFallBack(b: real, strictly: bool)
    requires 0.0 < b <= 1000.0 && !Slow(b, strictly)
    ensures CanFallBack(b, Excess(b)) && (strictly ==> Excess(b) > 1.0)
  {
  }

  ghost predicate AllForwardRunsNeverRestart(b: real, strictly: bool) {
    forall events :: ForwardRun(events, b, strictly) ==> NeverRestarts(Run(Init(), events).moves)
  }

  /**
   At tempos up to b no forward run ever restarts the clock if and only if extrapolation cannot get a beat ahead:
   up to 80 BPM when every new reading is later than the last, below 80 BPM when it may be the same position.
   */
  lemma NoRestartIffSlow(b: real, strictly: bool)
    requires 0.0 < b <= 1000.0
    ensures AllForwardRunsNeverRestart(b, strictly) <==> Slow(b, strictly)
  {
    if Slow(b, strictly) {
      forall events | ForwardRun(events, b, strictly) ensures NeverRestarts(Run(Init(), events).moves) {
        SlowRunsNeverRestart(events, b, strictly);
      }
    } else {
      var y := Excess(b);
      FastRunsFallBack(b, strictly);
      FallBackIsForward(b, y, strictly);
      FallBackRefires(b, y);
      var moves := Run(Init(), FallBack(b, y)).moves;
      assert moves[1] in moves;
    }
  }

  /** The clock is never reset, unreadable or fed nothing. */
  predicate Uninterrupted(e: Event) {
    !e.Reset? && (e.Observe? ==> Readable(e.clock)) && (e.TickAt? ==> e.position.Some?)
  }

  ghost predicate AllUninterrupted(events: seq<Event>) { forall e :: e in events ==> Uninterrupted(e) }

  predicate FiresTwice(moves: seq<Move>, i: nat, j: nat, beats: real) {
    && i < j < |moves| && Offers(moves[i], beats) && Offers(moves[j], beats)
    && Boundary(moves[i].position, beats) >= Boundary(moves[j].position, beats)
  }

  ghost predicate NoBoundaryTwice(moves: seq<Move>) {
    forall i: nat, j: nat, beats :: !FiresTwice(moves, i, j, beats)
  }

  lemma UninterruptedStep(s: State, e: Event)
    requires s.segment == 0 && Uninterrupted(e) && NeverRestarts(Step(s, e).moves)
    requires forall m :: m in s.moves ==> m.segment == 0
    ensures Step(s, e).segment == 0 && forall m :: m in Step(s, e).moves ==> m.segment == 0
  {
    var t := Step(s, e);
    if |t.moves| > |s.moves| { assert t.moves[|s.moves|] in t.moves; }
  }

  lemma MovesGrow(s: State, e: Event)
    ensures NeverRestarts(Step(s, e).moves) ==> NeverRestarts(s.moves)
  {
    assert forall m :: m in s.moves ==> m in Step(s, e).moves;
  }

  lemma {:induction false} OneSegment(events: seq<Event>)
    requires AllUninterrupted(events) && NeverRestarts(Run(Init(), events).moves)
    ensures Run(Init(), events).segment == 0 && forall m :: m in Run(Init(), events).moves ==> m.segment == 0
    decreases |events|
  {
    if events != [] {
      var front, e := events[..|events| - 1], events[|events| - 1];
      assert e in events && forall x :: x in front ==> x in events;
      MovesGrow(Run(Init(), front), e);
      OneSegment(front);
      UninterruptedStep(Run(Init(), front), e);
    }
  }

  ghost predicate AllForwardRunsFireOnce(b: real, strictly: bool) {
    forall events :: ForwardRun(events, b, strictly) && AllUninterrupted(events) ==>
      NoBoundaryTwice(Run(Init(), events).moves)
  }

  lemma SlowRunsFireOnce(events: seq<Event>, b: real, strictly: bool)
    requires 0.0 < b && Slow(b, strictly) && ForwardRun(events, b, strictly) && AllUninterrupted(events)
    ensures NoBoundaryTwice(Run(Init(), events).moves)
  {
    var moves := Run(Init(), events).moves;
    SlowRunsNeverRestart(events, b, strictly);
    OneSegment(events);
    forall i: nat, j: nat, beats ensures !FiresTwice(moves, i, j, beats) {
      if i < j < |moves| && Offers(moves[i], beats) && Offers(moves[j], beats) {
        assert moves[i] in moves && moves[j] in moves;
        EachBoundaryFiresOnce(events, i, j, beats);
      }
    }
  }

  /** And so exactly up to that tempo no boundary of any division fires twice in an uninterrupted forward run. */
  lemma NoRefireIffSlow(b: real, strictly: bool)
    requires 0.0 < b <= 1000.0
    ensures AllForwardRunsFireOnce(b, strictly) <==> Slow(b, strictly)
  {
    if Slow(b, strictly) {
      forall events | ForwardRun(events, b, strictly) && AllUninterrupted(events)
        ensures NoBoundaryTwice(Run(Init(), events).moves)
      {
        SlowRunsFireOnce(events, b, strictly);
      }
    } else {
      var y := Excess(b);
      FastRunsFallBack(b, strictly);
      FallBackIsForward(b, y, strictly);
      FallBackRefires(b, y);
      assert AllUninterrupted(FallBack(b, y));
      assert FiresTwice(Run(Init(), FallBack(b, y)).moves, 0, 2, 1.0);
    }
  }

  /** A snapshot that repeats the clock leaves the anchor where it was, and extrapolation stops after 750 ms. */
  lemma RepeatedClockHoldsTheAnchor(s: State, now: real, later: real, ms: seq<Mapping>, suspended: bool)
    requires s.anchor.Some? && Readable(s.lastClock) && s.anchor.value.perMs >= 0.0
    ensures Step(s, Observe(s.lastClock, now, ms, suspended)) == s
    ensures Extrapolated(s.anchor.value, later) <= s.anchor.value.position + 750.0 * s.anchor.value.perMs
  {
    Product(Elapsed(s.anchor.value, later), EXTRAPOLATION_MS, s.anchor.value.perMs);
  }

  // ---- the stateful object ----

  /** createBeatTriggerScheduler. */
  class BeatTriggerScheduler {
    var previous: Option<real>
    var anchor: Option<Anchor>
    var lastClock: Option<Clock>
    ghost var segment: nat
    ghost var moves: seq<Move>
    ghost var history: seq<Event>

    ghost function View(): State
      reads this
    {
      State(previous, anchor, lastClock, segment, moves)
    }

    ghost predicate Valid()
      reads this
    {
      View() == Run(Init(), history)
    }

    constructor ()
      ensures Valid() && history == []
    {
      previous, anchor, lastClock := None, None, None;
      segment, moves, history := 0, [], [];
    }

    /** One call: the state follows Step, and what it dispatched is what the new move records. */
    twostate predicate Did(e: Event, due: seq<Input>)
      reads this
    {
      && View() == Step(old(View()), e) && history == old(history) + [e] && Valid()
      && (|moves| == |old(moves)| ==> due == [])
      && (|moves| > |old(moves)| ==> due == moves[|old(moves)|].dispatched)
    }

    method Recall(clock: Option<Clock>, now: real, ms: seq<Mapping>, suspended: bool) returns (due: seq<Input>)
      requires Valid()
      modifies this
      ensures Did(Observe(clock, now, ms, suspended), due)
    {
      RunAppend(Init(), history, Observe(clock, now, ms, suspended));
      history := history + [Observe(clock, now, ms, suspended)];
      if clock.None? || !clock.value.counter.Finite? || !clock.value.phase.Finite? {
        ForgetAll();
        return [];
      }
      if clock == lastClock && anchor.Some? { return []; }
      lastClock := clock;
      var next := AnchorAt(clock.value, now);
      anchor := Some(next);
      due := TickTo(Some(next.position), ms, suspended);
    }

    method AdvanceTo(now: real, ms: seq<Mapping>, suspended: bool) returns (due: seq<Input>)
      requires Valid()
      modifies this
      ensures Did(Advance(now, ms, suspended), due)
    {
      RunAppend(Init(), history, Advance(now, ms, suspended));
      history := history + [Advance(now, ms, suspended)];
      if anchor.None? { return []; }
      due := TickTo(Some(Extrapolated(anchor.value, now)), ms, suspended);
    }

    method Feed(position: Option<real>, ms: seq<Mapping>, suspended: bool) returns (due: seq<Input>)
      requires Valid()
      modifies this
      ensures Did(TickAt(position, ms, suspended), due)
    {
      RunAppend(Init(), history, TickAt(position, ms, suspended));
      history := history + [TickAt(position, ms, suspended)];
      due := TickTo(position, ms, suspended);
    }

    method ResetAll()
      requires Valid()
      modifies this
      ensures Did(Reset, [])
    {
      RunAppend(Init(), history, Reset);
      history := history + [Reset];
      ForgetAll();
    }

    method ForgetAll()
      modifies this`previous, this`anchor, this`lastClock, this`segment
      ensures View() == Forget(old(View()))
    {
      previous, anchor, lastClock := None, None, None;
      segment := segment + 1;
    }

    method TickTo(position: Option<real>, ms: seq<Mapping>, suspended: bool) returns (due: seq<Input>)
      modifies this`previous, this`segment, this`moves
      ensures View() == Tick(old(View()), position, ms, suspended)
      ensures |moves| == |old(moves)| ==> due == []
      ensures |moves| > |old(moves)| ==> due == moves[|old(moves)|].dispatched
    {
      due := [];
      if position.None? {
        previous := None;
        segment := segment + 1;
        return;
      }
      var before, p := previous, position.value;
      previous := Some(if before.Some? && p < before.value && before.value - p < JITTER then before.value else p);
      if before.None? { return; }
      if !suspended {
        due := Collect(before.value, p, ms);
        due := MoveToEnd((i: Input) => i.action.VideoTake?, due);
      }
      moves := moves + [Move(segment, before.value, p, suspended, ms, due)];
      if Restarts(before.value, p) { segment := segment + 1; }
    }

    /** The loop over the mappings. */
    method Collect(before: real, position: real, ms: seq<Mapping>) returns (due: seq<Input>)
      ensures due == Due(ms, before, position)
    {
      due := [];
      for k := 0 to |ms|
        invariant due == Due(ms[..k], before, position)
      {
        assert ms[..k + 1][..k] == ms[..k];
        if ms[k].onBeat && Beats(ms[k].number).Some? && Crossed(before, position, Beats(ms[k].number).value) {
          var input := InputFor(ms[k]);
          if input.Some? { due := due + [input.value]; }
        }
      }
      assert ms[..|ms|] == ms;
    }
  }
}
