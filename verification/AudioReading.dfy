/**
 What one read of the evaluator of app/src/audioControlMapping.ts returns and leaves behind: which mappings it
 samples, what each sample is made of, when it fires, and the values and triggers that go out.
 */
module AudioReading {
  import opened Prelude
  import opened AudioMapping

  // ---- the value of a level ----

  /** A silent signal gives `low`, a full one `high`, and equal steps of the level give proportional steps between. */
  lemma ValueFollowsLevel(a: real, b: real, low: real, high: real)
    requires 0.0 <= a <= 1.0 && 0.0 <= b <= 1.0
    ensures MappingValue(0.0, 1.0, low, high) == low && MappingValue(1.0, 1.0, low, high) == high
    ensures MappingValue(a, 1.0, low, high) - MappingValue(b, 1.0, low, high) == (high - low) * (a - b)
    ensures low <= high && a <= b ==> MappingValue(a, 1.0, low, high) <= MappingValue(b, 1.0, low, high)
    ensures low >= high && a <= b ==> MappingValue(a, 1.0, low, high) >= MappingValue(b, 1.0, low, high)
  {
    var d := high - low;
    ValueAt(a, low, high);
    ValueAt(b, low, high);
    ValueAt(0.0, low, high);
    ValueAt(1.0, low, high);
    Difference(d, a, b);
    if a <= b {
      Difference(d, b, a);
      if low <= high { Product(d, b - a); } else { Product(-d, b - a); Negated(d, b - a); }
    }
  }

  lemma ValueAt(level: real, low: real, high: real)
    requires 0.0 <= level <= 1.0
    ensures MappingValue(level, 1.0, low, high) == low + (high - low) * level
  {
    assert Clamp01(level * 1.0) == level;
  }

  lemma Difference(d: real, a: real, b: real)
    ensures d * a - d * b == d * (a - b)
  {
  }

  lemma Negated(x: real, y: real)
    ensures (-x) * y == -(x * y)
  {
  }

  lemma Product(x: real, y: real)
    requires x >= 0.0 && y >= 0.0
    ensures x * y >= 0.0
  {
  }

  /** The gain applies to the signal before the level is cut to the unit range. */
  lemma GainScalesTheSignal(signal: real, gain: real, low: real, high: real)
    ensures MappingValue(signal, gain, low, high) == MappingValue(Clamp01(signal * gain), 1.0, low, high)
  {
  }

  /** Of the way to the new signal, a rise takes the share its attack gives, a fall the share its release gives. */
  lemma SmoothingTakesItsShare(previous: real, next: real, elapsed: real, attack: real, release: real, rise: Rise)
    requires elapsed >= 0.0
    ensures var t := Smooth(previous, next, elapsed, attack, release, rise);
            && (next > previous && attack > 0.0 ==> t - previous == (next - previous) * rise(elapsed, attack))
            && (next > previous && attack <= 0.0 ==> t == next)
            && (next < previous && release > 0.0 ==> previous - t == (previous - next) * rise(elapsed, release))
            && (next < previous && release <= 0.0 ==> t == next)
            && (next == previous ==> t == next)
  {
    if next < previous && release > 0.0 {
      var f := rise(elapsed, release);
      assert (next - previous) * f == -((previous - next) * f);
    }
  }

  // ---- which mappings are sampled ----

  /** A well-set mapping, the first of its identity. */
  predicate ChosenAt(ms: seq<Mapping>, i: nat)
    requires i < |ms|
  {
    ValidSettings(ms[i]) && forall j :: 0 <= j < i ==> !(ValidSettings(ms[j]) && ms[j].id == ms[i].id)
  }

  function Chosen(ms: seq<Mapping>): seq<Mapping>
    decreases |ms|
  {
    if ms == [] then []
    else Chosen(ms[..|ms| - 1]) + if ChosenAt(ms, |ms| - 1) then [ms[|ms| - 1]] else []
  }

  predicate IdChosen(ms: seq<Mapping>, id: string) {
    exists i :: 0 <= i < |ms| && ValidSettings(ms[i]) && ms[i].id == id
  }

  // ---- what a sample is made of ----

  /** The level the mapping hears now. */
  function Heard(m: Mapping, f: Frame): real {
    var level := if m.feature in f.levels && f.levels[m.feature].Finite? then f.levels[m.feature].value else 0.0;
    Clamp01(Clamp01(level) * m.gain)
  }

  /** What is remembered of exactly this configuration under the generation of the frame. */
  function Remembered(e: Evaluator, m: Mapping, f: Frame): Option<Memory> {
    if e.generation == Some(f.generation) && m.id in e.memories && e.memories[m.id].mapping == m
    then Some(e.memories[m.id]) else None
  }

  predicate Crosses(m: Mapping, before: Option<Memory>, smoothed: real) {
    if before.Some? && before.value.above then smoothed > Max(0.0, m.threshold - 0.05)
    else smoothed > 0.0 && smoothed >= m.threshold
  }

  /** The sample of a mapping, given what was remembered of it: level, threshold with hysteresis, edge. */
  predicate SampleOf(x: Sample, before: Option<Memory>, m: Mapping, f: Frame, isNew: bool, now: real, rise: Rise) {
    && x.mapping == m && x.generation == f.generation && x.sequence == f.sequence && x.isNew == isNew
    && x.before == before && x.onset == f.onset
    && x.smoothed == (if before.None? then Heard(m, f)
                      else Smooth(before.value.value, Heard(m, f), Min(1000.0, Max(0.0, now - before.value.at)),
                                  m.attackMs, m.releaseMs, rise))
    && x.above == Crosses(m, before, x.smoothed)
    && x.after == Memory(m, x.smoothed, if isNew || before.None? then x.above else before.value.above, now)
    && (x.fired <==> && isNew && before.Some? && (m.action.VideoClipSlotTrigger? || m.action.VideoTake?)
                     && if m.mode.OnsetMode? then f.onset else x.above && !before.value.above)
  }

  function ValuesOf(samples: seq<Sample>): seq<Value>
    decreases |samples|
  {
    if samples == [] then []
    else
      var x := samples[|samples| - 1];
      ValuesOf(samples[..|samples| - 1])
      + if x.mapping.mode.Continuous? && IsContinuous(x.mapping.action)
        then [Value(x.mapping.id, MappingValue(x.smoothed, 1.0, x.mapping.low, x.mapping.high))] else []
  }

  function FiringsOf(samples: seq<Sample>): seq<Trigger>
    decreases |samples|
  {
    if samples == [] then []
    else
      var x := samples[|samples| - 1];
      FiringsOf(samples[..|samples| - 1]) + if x.fired then [Trigger(x.mapping.id, x.mapping.action)] else []
  }

  // ---- one visit after the other ----

  ghost predicate Sampled(acc: Acc, ms: seq<Mapping>, memories: map<string, Memory>, o: Observation, isNew: bool,
                          now: real, rise: Rise)
  {
    && AllSampled(acc.samples, Chosen(ms), memories, o, isNew, now, rise)
    && acc.values == ValuesOf(acc.samples) && acc.triggers == FiringsOf(acc.samples)
    && (forall id :: id in acc.active <==> IdChosen(ms, id))
    && Unvisited(acc, memories)
    && LeavesAfters(acc.memories, acc.active, acc.samples)
  }

  ghost predicate AllSampled(samples: seq<Sample>, chosen: seq<Mapping>, memories: map<string, Memory>, o: Observation,
                             isNew: bool, now: real, rise: Rise)
  {
    && |samples| == |chosen|
    && forall k :: 0 <= k < |samples| ==> SampledAt(samples[k], chosen[k], memories, o, isNew, now, rise)
  }

  /** What is remembered of mappings not yet visited. */
  ghost predicate Unvisited(acc: Acc, memories: map<string, Memory>) {
    && (forall id :: id !in acc.active ==> (id in acc.memories <==> id in memories))
    && (forall id :: id !in acc.active && id in memories ==> acc.memories[id] == memories[id])
  }

  predicate SampledAt(x: Sample, m: Mapping, memories: map<string, Memory>, o: Observation, isNew: bool, now: real,
                      rise: Rise)
  {
    SampleOf(x, if m.id in memories && memories[m.id].mapping == m then Some(memories[m.id]) else None, m, o.frame,
             isNew, now, rise)
  }

  /** Every sampled mapping is remembered as its sample left it. */
  predicate LeavesAfters(memories: map<string, Memory>, active: set<string>, samples: seq<Sample>) {
    && (forall x :: x in samples ==> x.mapping.id in active && x.mapping.id in memories
                                     && memories[x.mapping.id] == x.after)
    && (forall id :: id in active ==> exists x :: x in samples && x.mapping.id == id)
  }

  /** The visits to all of the mappings, from these memories, are sampled. */
  ghost predicate AllVisited(ms: seq<Mapping>, memories: map<string, Memory>, o: Observation, isNew: bool, now: real,
                             rise: Rise)
  {
    Sampled(VisitAll(ms, memories, o, isNew, now, rise), ms, memories, o, isNew, now, rise)
  }

  lemma {:induction false} VisitsSample(ms: seq<Mapping>, memories: map<string, Memory>, o: Observation, isNew: bool,
                                        now: real, rise: Rise)
    ensures AllVisited(ms, memories, o, isNew, now, rise)
    decreases |ms|
  {
    if ms == [] {
      NoVisits(memories, o, isNew, now, rise);
    } else {
      var front, m := ms[..|ms| - 1], ms[|ms| - 1];
      VisitsSample(front, memories, o, isNew, now, rise);
      assert ms == front + [m];
      VisitsOneMore(front, m, memories, o, isNew, now, rise);
    }
  }

  lemma VisitsOneMore(front: seq<Mapping>, m: Mapping, memories: map<string, Memory>, o: Observation, isNew: bool,
                      now: real, rise: Rise)
    requires AllVisited(front, memories, o, isNew, now, rise)
    ensures AllVisited(front + [m], memories, o, isNew, now, rise)
  {
    OneMoreVisit(VisitAll(front, memories, o, isNew, now, rise), front, m, memories, o, isNew, now, rise);
    VisitNext(front, m, memories, o, isNew, now, rise);
  }

  lemma VisitNext(front: seq<Mapping>, m: Mapping, memories: map<string, Memory>, o: Observation, isNew: bool,
                  now: real, rise: Rise)
    ensures VisitAll(front + [m], memories, o, isNew, now, rise)
            == Visit(VisitAll(front, memories, o, isNew, now, rise), m, o, isNew, now, rise)
  {
    assert (front + [m])[..|front|] == front;
  }

  lemma NoVisits(memories: map<string, Memory>, o: Observation, isNew: bool, now: real, rise: Rise)
    ensures AllVisited([], memories, o, isNew, now, rise)
  {
  }

  lemma ChosenNext(front: seq<Mapping>, m: Mapping)
    ensures var ms := front + [m];
            var more := ValidSettings(m) && !IdChosen(front, m.id);
            && Chosen(ms) == Chosen(front) + (if more then [m] else [])
            && (forall id :: IdChosen(ms, id) <==> IdChosen(front, id) || (ValidSettings(m) && m.id == id))
  {
    var ms := front + [m];
    assert ms[..|front|] == front && ms[|front|] == m;
    forall id ensures IdChosen(ms, id) <==> IdChosen(front, id) || (ValidSettings(m) && m.id == id) {
      if IdChosen(front, id) {
        var i :| 0 <= i < |front| && ValidSettings(front[i]) && front[i].id == id;
        assert ms[i] == front[i];
      }
      if ValidSettings(m) && m.id == id { assert ms[|front|].id == id; }
    }
    assert ChosenAt(ms, |front|) <==> ValidSettings(m) && !IdChosen(front, m.id) by {
      assert forall j :: 0 <= j < |front| ==> ms[j] == front[j];
    }
  }

  lemma OneMoreVisit(acc: Acc, front: seq<Mapping>, m: Mapping, memories: map<string, Memory>, o: Observation,
                     isNew: bool, now: real, rise: Rise)
    requires Sampled(acc, front, memories, o, isNew, now, rise)
    ensures Sampled(Visit(acc, m, o, isNew, now, rise), front + [m], memories, o, isNew, now, rise)
  {
    ChosenNext(front, m);
    if ValidSettings(m) && m.id !in acc.active {
      var x := Visited(acc, memories, m, o, isNew, now, rise);
      var t := Visit(acc, m, o, isNew, now, rise);
      SampledSnoc(acc.samples, x, Chosen(front), m, memories, o, isNew, now, rise);
      AfterVisit(acc, t, x, m);
      OutputsSnoc(acc.samples, x);
      TakenVisit(acc, t, front, m, memories);
    }
  }

  lemma OutputsSnoc(samples: seq<Sample>, x: Sample)
    ensures ValuesOf(samples + [x])
            == ValuesOf(samples)
               + if x.mapping.mode.Continuous? && IsContinuous(x.mapping.action)
                 then [Value(x.mapping.id, MappingValue(x.smoothed, 1.0, x.mapping.low, x.mapping.high))] else []
    ensures FiringsOf(samples + [x])
            == FiringsOf(samples) + if x.fired then [Trigger(x.mapping.id, x.mapping.action)] else []
  {
    assert (samples + [x])[..|samples|] == samples;
  }

  lemma TakenVisit(acc: Acc, t: Acc, front: seq<Mapping>, m: Mapping, memories: map<string, Memory>)
    requires Unvisited(acc, memories) && t.active == acc.active + {m.id} && m.id in t.memories
    requires t.memories == acc.memories[m.id := t.memories[m.id]] && ValidSettings(m)
    requires forall id :: id in acc.active <==> IdChosen(front, id)
    ensures Unvisited(t, memories) && forall id :: id in t.active <==> IdChosen(front + [m], id)
  {
    ChosenNext(front, m);
  }

  lemma Visited(acc: Acc, memories: map<string, Memory>, m: Mapping, o: Observation, isNew: bool, now: real,
                rise: Rise) returns (x: Sample)
    requires ValidSettings(m) && m.id !in acc.active && Unvisited(acc, memories)
    ensures SampledAt(x, m, memories, o, isNew, now, rise) && x.mapping == m
    ensures Visit(acc, m, o, isNew, now, rise)
            == Acc(acc.memories[m.id := x.after], acc.active + {m.id},
                   if m.mode.Continuous? && IsContinuous(m.action)
                   then acc.values + [Value(m.id, MappingValue(x.smoothed, 1.0, m.low, m.high))] else acc.values,
                   if x.fired then acc.triggers + [Trigger(m.id, m.action)] else acc.triggers, acc.samples + [x])
  {
    x := Update(if m.id in memories then Some(memories[m.id]) else None, m, o, isNew, now, rise);
    UpdateSamples(if m.id in memories then Some(memories[m.id]) else None, m, o, isNew, now, rise);
  }

  lemma SampledSnoc(samples: seq<Sample>, x: Sample, chosen: seq<Mapping>, m: Mapping, memories: map<string, Memory>,
                    o: Observation, isNew: bool, now: real, rise: Rise)
    requires AllSampled(samples, chosen, memories, o, isNew, now, rise)
    requires SampledAt(x, m, memories, o, isNew, now, rise)
    ensures AllSampled(samples + [x], chosen + [m], memories, o, isNew, now, rise)
  {
  }

  lemma UpdateSamples(memory: Option<Memory>, m: Mapping, o: Observation, isNew: bool, now: real, rise: Rise)
    ensures SampleOf(Update(memory, m, o, isNew, now, rise),
                     if memory.Some? && memory.value.mapping == m then memory else None, m, o.frame, isNew, now, rise)
  {
  }

  lemma AfterVisit(acc: Acc, t: Acc, x: Sample, m: Mapping)
    requires LeavesAfters(acc.memories, acc.active, acc.samples) && m.id !in acc.active
    requires t.samples == acc.samples + [x] && x.mapping == m
    requires t.memories == acc.memories[m.id := x.after] && t.active == acc.active + {m.id}
    ensures LeavesAfters(t.memories, t.active, t.samples)
  {
    forall id | id in t.active ensures exists y :: y in t.samples && y.mapping.id == id {
      if id == m.id {
        assert x in t.samples;
      } else {
        var y :| y in acc.samples && y.mapping.id == id;
        assert y in t.samples;
      }
    }
  }

  // ---- one read ----

  /** The reading can be trusted: running, whole, and less than a quarter of a second old. */
  predicate Readable(o: Option<Observation>, now: real, suspended: bool) {
    && !suspended && o.Some? && o.value.frame.running && !o.value.frame.stale && !o.value.frame.clearPending
    && 0 < o.value.frame.generation <= MAX_SAFE_INTEGER && 0 < o.value.frame.sequence <= MAX_SAFE_INTEGER
    && 0.0 <= now - o.value.observedAt < 250.0
  }

  /** Nothing newer was read before. */
  predicate NotOlder(e: Evaluator, f: Frame) {
    e.generation.Some? ==>
      e.generation.value < f.generation
      || (e.generation.value == f.generation && (e.sequence.Some? ==> e.sequence.value <= f.sequence))
  }

  predicate Repeated(e: Evaluator, f: Frame) { e.generation == Some(f.generation) && e.sequence == Some(f.sequence) }

  function Heeded(ms: seq<Mapping>): seq<Mapping> {
    var audio := Filter((m: Mapping) => m.isAudio, ms);
    Chosen(if |audio| <= 128 then audio else audio[..128])
  }

  ghost predicate ReadOf(e: Evaluator, ms: seq<Mapping>, o: Option<Observation>, now: real, suspended: bool, rise: Rise,
                         r: Result)
  {
    if !Readable(o, now, suspended) then
      r == Result(Evaluator(map[], None, None), 0, 0, [], [], [])
    else if !NotOlder(e, o.value.frame) then
      r == Result(e.(memories := map[]), 0, 0, [], [], [])
    else TakenAs(e, Heeded(ms), o.value.frame, now, rise, r)
  }

  ghost predicate TakenAs(e: Evaluator, ms: seq<Mapping>, f: Frame, now: real, rise: Rise, r: Result) {
    && r.generation == f.generation && r.sequence == f.sequence
    && r.evaluator.generation == Some(f.generation) && r.evaluator.sequence == Some(f.sequence)
    && SamplesOf(e, ms, f, now, rise, r.samples)
    && r.values == ValuesOf(r.samples)
    && r.triggers == MoveToEnd((t: Trigger) => t.action.VideoTake?, FiringsOf(r.samples))
    && Remembers(r.evaluator.memories, r.samples)
  }

  ghost predicate SamplesOf(e: Evaluator, ms: seq<Mapping>, f: Frame, now: real, rise: Rise, samples: seq<Sample>) {
    && |samples| == |ms|
    && forall k :: 0 <= k < |ms| ==>
         SampleOf(samples[k], Remembered(e, ms[k], f), ms[k], f, !Repeated(e, f), now, rise)
  }

  /** Exactly the sampled mappings are remembered, as their samples left them. */
  ghost predicate Remembers(memories: map<string, Memory>, samples: seq<Sample>) {
    && (forall x :: x in samples ==> x.mapping.id in memories && memories[x.mapping.id] == x.after)
    && (forall id :: id in memories ==> exists x :: x in samples && x.mapping.id == id)
  }

  /**
   Every read: an unusable reading returns nothing and forgets everything, one older than what was read returns
   nothing and forgets the levels, and any other samples each heeded mapping once, in order, sends its continuous
   values and its firings, Takes last, and remembers exactly what it sampled.
   */
  lemma ReadAnswers(e: Evaluator, ms: seq<Mapping>, o: Option<Observation>, now: real, suspended: bool, rise: Rise)
    requires InvariantEvaluator(e)
    ensures ReadOf(e, ms, o, now, suspended, rise, Evaluate(e, ms, o, now, suspended, rise))
  {
    if Readable(o, now, suspended) && NotOlder(e, o.value.frame) {
      TakenRead(e, ms, o.value, now, rise);
      TakenResult(e, ms, o.value, now, rise);
    } else {
      RefusedRead(e, ms, o, now, suspended, rise);
    }
  }

  lemma RefusedRead(e: Evaluator, ms: seq<Mapping>, o: Option<Observation>, now: real, suspended: bool, rise: Rise)
    requires !(Readable(o, now, suspended) && NotOlder(e, o.value.frame))
    ensures Evaluate(e, ms, o, now, suspended, rise)
            == Result(if Readable(o, now, suspended) then e.(memories := map[]) else Evaluator(map[], None, None),
                      0, 0, [], [], [])
  {
  }

  function Known(e: Evaluator, f: Frame): map<string, Memory> {
    if e.generation != Some(f.generation) then map[] else e.memories
  }

  function TakenOf(e: Evaluator, ms: seq<Mapping>, o: Observation, now: real, rise: Rise): Result {
    var acc := VisitAll(AudioOnly(ms), Known(e, o.frame), o, !Repeated(e, o.frame), now, rise);
    Result(Evaluator(map id | id in acc.memories && id in acc.active :: acc.memories[id],
                     Some(o.frame.generation), Some(o.frame.sequence)),
           o.frame.generation, o.frame.sequence, acc.values, TakesLast(acc.triggers), acc.samples)
  }

  lemma TakenResult(e: Evaluator, ms: seq<Mapping>, o: Observation, now: real, rise: Rise)
    requires Readable(Some(o), now, false) && NotOlder(e, o.frame) && InvariantEvaluator(e)
    ensures Evaluate(e, ms, Some(o), now, false, rise) == TakenOf(e, ms, o, now, rise)
  {
  }

  lemma TakenRead(e: Evaluator, ms: seq<Mapping>, o: Observation, now: real, rise: Rise)
    ensures TakenAs(e, Heeded(ms), o.frame, now, rise, TakenOf(e, ms, o, now, rise))
  {
    VisitsSample(AudioOnly(ms), Known(e, o.frame), o, !Repeated(e, o.frame), now, rise);
    var acc := VisitAll(AudioOnly(ms), Known(e, o.frame), o, !Repeated(e, o.frame), now, rise);
    ReadSamples(e, AudioOnly(ms), Known(e, o.frame), acc, o, now, rise);
    ReadRemembers(acc, map id | id in acc.memories && id in acc.active :: acc.memories[id]);
  }

  /** A generation is known whenever a sequence is. */
  predicate InvariantEvaluator(e: Evaluator) { e.generation.None? ==> e.sequence.None? }

  lemma ReadSamples(e: Evaluator, ms: seq<Mapping>, memories: map<string, Memory>, acc: Acc, o: Observation, now: real,
                    rise: Rise)
    requires Sampled(acc, ms, memories, o, !Repeated(e, o.frame), now, rise)
    requires memories == if e.generation != Some(o.frame.generation) then map[] else e.memories
    ensures SamplesOf(e, Chosen(ms), o.frame, now, rise, acc.samples)
  {
    assert AllSampled(acc.samples, Chosen(ms), memories, o, !Repeated(e, o.frame), now, rise);
    forall k | 0 <= k < |acc.samples|
      ensures SampleOf(acc.samples[k], Remembered(e, Chosen(ms)[k], o.frame), Chosen(ms)[k], o.frame,
                       !Repeated(e, o.frame), now, rise)
    {
      assert SampledAt(acc.samples[k], Chosen(ms)[k], memories, o, !Repeated(e, o.frame), now, rise);
    }
  }

  lemma ReadRemembers(acc: Acc, memories: map<string, Memory>)
    requires LeavesAfters(acc.memories, acc.active, acc.samples)
    requires memories == map id | id in acc.memories && id in acc.active :: acc.memories[id]
    ensures Remembers(memories, acc.samples)
  {
  }

  /** So in every run each read of the held observation is answered, and logged, like that. */
  lemma EveryReadAnswers(events: seq<Event>, ms: seq<Mapping>, now: real, suspended: bool, rise: Rise)
    ensures var s, t := Run(Init(), events), Step(Run(Init(), events), Advance(ms, now, suspended, rise));
            var r := Evaluate(s.evaluator, ms, s.source.observation, now, suspended, rise);
            && t.evaluator == r.evaluator && t.source == s.source && t.log == s.log + r.samples
            && ReadOf(s.evaluator, ms, s.source.observation, now, suspended, rise, r)
  {
    EvaluatorKnows(events);
    ReadAnswers(Run(Init(), events).evaluator, ms, Run(Init(), events).source.observation, now, suspended, rise);
  }

  lemma {:induction false} EvaluatorKnows(events: seq<Event>)
    ensures InvariantEvaluator(Run(Init(), events).evaluator)
    decreases |events|
  {
    if events != [] { EvaluatorKnows(events[..|events| - 1]); }
  }

  /** Each mapping heeded is one of the first 128 audio mappings, well set, and no identity is heeded twice. */
  lemma {:induction false} ChosenAreDistinct(ms: seq<Mapping>)
    ensures forall m :: m in Chosen(ms) ==> m in ms && ValidSettings(m)
    ensures forall i, j :: 0 <= i < j < |Chosen(ms)| ==> Chosen(ms)[i].id != Chosen(ms)[j].id
    ensures forall m :: m in ms && ValidSettings(m) ==> exists c :: c in Chosen(ms) && c.id == m.id
    decreases |ms|
  {
    if ms != [] {
      var front, m := ms[..|ms| - 1], ms[|ms| - 1];
      ChosenAreDistinct(front);
      assert front + [m] == ms;
      ChosenNext(front, m);
      ChosenSnoc(front, m);
    }
  }

  lemma ChosenSnoc(front: seq<Mapping>, m: Mapping)
    requires forall c :: c in Chosen(front) ==> c in front && ValidSettings(c)
    requires forall c :: c in front && ValidSettings(c) ==> exists d :: d in Chosen(front) && d.id == c.id
    requires forall i, j :: 0 <= i < j < |Chosen(front)| ==> Chosen(front)[i].id != Chosen(front)[j].id
    ensures var ms := front + [m];
            && (forall c :: c in Chosen(ms) ==> c in ms && ValidSettings(c))
            && (forall i, j :: 0 <= i < j < |Chosen(ms)| ==> Chosen(ms)[i].id != Chosen(ms)[j].id)
            && (forall c :: c in ms && ValidSettings(c) ==> exists d :: d in Chosen(ms) && d.id == c.id)
  {
    ChosenNext(front, m);
    var ms, more := front + [m], ValidSettings(m) && !IdChosen(front, m.id);
    forall i, j | 0 <= i < j < |Chosen(ms)| ensures Chosen(ms)[i].id != Chosen(ms)[j].id {
      if j == |Chosen(front)| {
        assert Chosen(ms)[i] == Chosen(front)[i] && Chosen(front)[i] in front;
        var k :| 0 <= k < |front| && front[k] == Chosen(front)[i];
      }
    }
    forall c | c in ms && ValidSettings(c) ensures exists d :: d in Chosen(ms) && d.id == c.id {
      if c in front {
        var d :| d in Chosen(front) && d.id == c.id;
        assert d in Chosen(ms);
      } else if more {
        assert m in Chosen(ms);
      } else {
        var k :| 0 <= k < |front| && ValidSettings(front[k]) && front[k].id == m.id;
        assert front[k] in front;
        var d :| d in Chosen(front) && d.id == front[k].id;
        assert d in Chosen(ms);
      }
    }
  }
}
