/**
 The beat scheduler of app/src/controlMappingPerform.ts told from its history: the clock it extrapolates is the latest
 news, every move runs from the highest position so far to the one just fed, and what it dispatches is, in order, one
 input for each usable mapping whose division has a boundary in between.
 */
module BeatHistory {
  import opened Prelude
  import opened BeatScheduler

  // ---- divisions and boundaries ----

  function Power(n: nat): nat { if n == 0 then 1 else 2 * Power(n - 1) }

  /** Division n lasts 2 to the n quarter beats; there are eight. */
  lemma DivisionsDouble(n: int)
    ensures Beats(n).Some? <==> 0 <= n <= 7
    ensures Beats(n).Some? ==> Beats(n).value == 0.25 * Power(n) as real
  {
    if 0 <= n <= 7 { Powers(); }
  }

  lemma Powers()
    ensures Power(0) == 1 && Power(1) == 2 && Power(2) == 4 && Power(3) == 8
    ensures Power(4) == 16 && Power(5) == 32 && Power(6) == 64 && Power(7) == 128
  {
    assert Power(3) == 2 * Power(2);
    assert Power(4) == 2 * Power(3);
    assert Power(5) == 2 * Power(4);
    assert Power(6) == 2 * Power(5);
    assert Power(7) == 2 * Power(6);
  }

  function Multiple(k: int, beats: real): real { k as real * beats }

  /** A multiple of the division lies after one position and not after the other. */
  ghost predicate BoundaryBetween(a: real, b: real, beats: real) {
    exists k: int :: a < Multiple(k, beats) <= b
  }

  lemma FloorIsLastMultiple(x: real, beats: real, k: int)
    requires beats > 0.0
    ensures Multiple(k, beats) <= x <==> k <= Boundary(x, beats)
  {
    var q := x / beats;
    assert q * beats == x;
    if k as real <= q { NotLess(k as real, q, beats); } else { LessTimes(q, k as real, beats); }
  }

  lemma NotLess(a: real, b: real, c: real)
    requires a <= b && c > 0.0
    ensures a * c <= b * c
  {
    assert (b - a) * c >= 0.0;
  }

  lemma LessTimes(a: real, b: real, c: real)
    requires a < b && c > 0.0
    ensures a * c < b * c
  {
    assert (b - a) * c > 0.0;
  }

  /** A division is crossed exactly if the position moved on by at most four beats and passed a multiple of it. */
  lemma CrossedIffBetween(a: real, b: real, beats: real)
    requires beats > 0.0
    ensures Crossed(a, b, beats) <==> a < b && b - a <= 4.0 && BoundaryBetween(a, b, beats)
  {
    var k := Boundary(b, beats);
    FloorIsLastMultiple(b, beats, k);
    FloorIsLastMultiple(a, beats, k);
    if BoundaryBetween(a, b, beats) {
      var j: int :| a < Multiple(j, beats) <= b;
      FloorIsLastMultiple(b, beats, j);
      FloorIsLastMultiple(a, beats, j);
    }
  }

  // ---- what a mapping asks for ----

  predicate PositiveId(id: Option<int>) { id.None? || 1 <= id.value <= 9007199254740991 }

  /** An action that fires once per trigger. */
  predicate FiresOnce(a: Action) {
    match a
    case VideoClipSlotTrigger => true
    case VideoTake => true
    case VideoLayerStop => true
    case VideoIsfStageEnabled => true
    case VideoGroupSolo => true
    case VideoGroupBypass => true
    case VideoGroupEnabled => true
    case _ => false
  }

  predicate OnGroup(a: Action) { a.VideoGroupSolo? || a.VideoGroupBypass? || a.VideoGroupEnabled? }

  /** A group action names its group and nothing else; any other names no group. */
  predicate Asks(m: Mapping) {
    && m.onBeat && FiresOnce(m.action)
    && PositiveId(m.layer) && PositiveId(m.slot) && PositiveId(m.stage) && PositiveId(m.group)
    && if OnGroup(m.action) then m.group.Some? && m.layer.None? && m.slot.None? && m.stage.None? else m.group.None?
  }

  /** What is asked for: the mapping's own target, flipped by stage and group flags and set by the others. */
  function AskedBy(m: Mapping): Input {
    Input(m.action, m.layer, m.slot, m.stage, m.group, OnGroup(m.action) || m.action.VideoIsfStageEnabled?)
  }

  lemma InputIsAsked(m: Mapping)
    ensures InputFor(m) == if Asks(m) then Some(AskedBy(m)) else None
  {
  }

  ghost predicate DueAt(m: Mapping, before: real, position: real) {
    Asks(m) && 0 <= m.number <= 7 && before < position && position - before <= 4.0
    && BoundaryBetween(before, position, 0.25 * Power(m.number) as real)
  }

  ghost function Asked(ms: seq<Mapping>, before: real, position: real): seq<Input>
    decreases |ms|
  {
    if ms == [] then []
    else
      Asked(ms[..|ms| - 1], before, position)
      + if DueAt(ms[|ms| - 1], before, position) then [AskedBy(ms[|ms| - 1])] else []
  }

  lemma {:induction false} DueIsAsked(ms: seq<Mapping>, before: real, position: real)
    ensures Due(ms, before, position) == Asked(ms, before, position)
    decreases |ms|
  {
    if ms != [] {
      var m := ms[|ms| - 1];
      DueIsAsked(ms[..|ms| - 1], before, position);
      InputIsAsked(m);
      DivisionsDouble(m.number);
      if Beats(m.number).Some? {
        PowerIsPositive(m.number);
        CrossedIffBetween(before, position, Beats(m.number).value);
      }
    }
  }

  lemma {:induction false} PowerIsPositive(n: nat)
    ensures Power(n) >= 1
  {
    if n > 0 { PowerIsPositive(n - 1); }
  }

  /** What one move sends: in the order of the mappings, but Takes, in their order, after everything else. */
  ghost function Sent(ms: seq<Mapping>, before: real, position: real, suspended: bool): seq<Input> {
    if suspended then []
    else MoveToEnd((i: Input) => i.action.VideoTake?, Asked(ms, before, position))
  }

  // ---- the clock ----

  /** The clock last heard of, and when it was first heard. */
  datatype News = News(clock: Clock, at: real)

  predicate Heard(clock: Option<Clock>) { clock.Some? && clock.value.counter.Finite? && clock.value.phase.Finite? }

  function Latest(events: seq<Event>): Option<News>
    decreases |events|
  {
    if events == [] then None
    else
      var before := Latest(events[..|events| - 1]);
      match events[|events| - 1]
      case Observe(clock, now, _, _) =>
        if !Heard(clock) then None
        else if before.Some? && before.value.clock == clock.value then before
        else Some(News(clock.value, now))
      case Reset => None
      case _ => before
  }

  function Position(c: Clock): real
    requires c.counter.Finite? && c.phase.Finite?
  {
    c.counter.value + c.phase.value
  }

  /** Beats in a millisecond; a tempo that makes no sense stands still. */
  function Rate(bpm: Number): real {
    if bpm.Finite? && 0.0 < bpm.value <= 1000.0 then bpm.value / 60000.0 else 0.0
  }

  /** The anchor is the latest news. */
  predicate Anchored(s: State, news: Option<News>) {
    match news
    case None => s.anchor.None? && s.lastClock.None?
    case Some(n) =>
      Heard(Some(n.clock)) && s.lastClock == Some(n.clock)
      && s.anchor == Some(Anchor(Position(n.clock), n.at, Rate(n.clock.bpm)))
  }

  lemma {:induction false} AnchorIsTheNews(events: seq<Event>)
    ensures Anchored(Run(Init(), events), Latest(events))
    decreases |events|
  {
    if events != [] { AnchorIsTheNews(events[..|events| - 1]); }
  }

  /** What an event feeds: news of the clock, its extrapolation for at most 750 ms, or a given position. */
  function FedFrom(news: Option<News>, e: Event): Option<real> {
    match e
    case Observe(clock, _, _, _) =>
      if !Heard(clock) || (news.Some? && news.value.clock == clock.value) then None else Some(Position(clock.value))
    case Advance(now, _, _) =>
      if news.None? || !Heard(Some(news.value.clock)) then None
      else
        var elapsed := Max(0.0, Min(750.0, now - news.value.at));
        Some(Position(news.value.clock) + Times(elapsed, Rate(news.value.clock.bpm)))
    case TickAt(position, _, _) => position
    case Reset => None
  }

  /** The event loses the position: no clock, no position, a reset. */
  predicate Loses(e: Event) {
    (e.Observe? && !Heard(e.clock)) || (e.TickAt? && e.position.None?) || e.Reset?
  }

  ghost predicate Moves(s: State, news: Option<News>, e: Event, t: State) {
    match FedFrom(news, e)
    case None => t.moves == s.moves && t.previous == (if Loses(e) then None else s.previous)
    case Some(p) =>
      if s.previous.None? then t.moves == s.moves && t.previous == Some(p)
      else
        var sent := Sent(e.mappings, s.previous.value, p, e.suspended);
        t.moves == s.moves + [Move(s.segment, s.previous.value, p, e.suspended, e.mappings, sent)]
  }

  /**
   Over every run each event that feeds a position makes one move to it from the position before, if there is one,
   and sends exactly what the mappings ask of that move; HighestSoFar says what the position before is.
   */
  lemma MovesFollow(events: seq<Event>, e: Event)
    ensures Moves(Run(Init(), events), Latest(events), e, Step(Run(Init(), events), e))
  {
    AnchorIsTheNews(events);
    FedIsFedFrom(Run(Init(), events), Latest(events), e);
    MoveStep(Run(Init(), events), Latest(events), e);
  }

  lemma FedIsFedFrom(s: State, news: Option<News>, e: Event)
    requires Anchored(s, news)
    ensures Fed(s, e) == FedFrom(news, e)
  {
  }

  lemma MoveStep(s: State, news: Option<News>, e: Event)
    requires Anchored(s, news) && Fed(s, e) == FedFrom(news, e)
    ensures Moves(s, news, e, Step(s, e))
  {
    if FedFrom(news, e).Some? {
      FedTicks(s, e);
      if s.previous.Some? { DueIsAsked(e.mappings, s.previous.value, FedFrom(news, e).value); }
    }
  }

  /** An event that feeds a position ticks to it. */
  lemma FedTicks(s: State, e: Event)
    requires Fed(s, e).Some?
    ensures var r, t := Tick(s, Fed(s, e), e.mappings, e.suspended), Step(s, e);
            t.moves == r.moves && t.previous == r.previous
  {
  }

  /** The position before a move is the highest one fed since the clock was last lost or restarted. */
  lemma HighestSoFar(events: seq<Event>)
    requires Run(Init(), events).previous.Some?
    ensures var s := Run(Init(), events);
            && (exists k: nat :: FedAt(events, k, s.segment, s.previous.value))
            && (forall k: nat, q :: FedAt(events, k, s.segment, q) ==> q <= s.previous.value)
  {
    PreviousIsHighest(events);
  }
}
