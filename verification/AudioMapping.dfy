/**
 Audio control mappings: the evaluator of app/src/audioControlMapping.ts fed by the publication
 source of app/src/audioControlRuntime.ts.

 Signal levels and times are reals.  `1 - exp(-elapsed / duration)` is an arbitrary function into
 [0, 1), passed in as `rise`.  A mapping is compared by value where the source compares its JSON.
 */
module AudioMapping {
  import opened Prelude

  const FRESHNESS_MS: real := 250.0
  const MAX_ELAPSED_MS: real := 1000.0
  const HYSTERESIS: real := 0.05
  const MAX_MAPPINGS: nat := 128

  datatype Level = Finite(value: real) | NotFinite

  datatype Feature =
    Low | Mid | High | Rms | Peak | SpectralFlux | SpectralCentroid | DensityFast | DensitySlow | Kick | Snare | Onset

  datatype Mode = Continuous | Threshold | OnsetMode

  datatype Action =
    | VideoClipSlotTrigger | VideoTake
    | VideoParamOpacity | VideoLayerFade | VideoGroupOpacity | VideoMaster | VideoIsfParam
    | OtherAction

  /** `groupOk` is the outcome of the group identity check; `target` the remaining identity fields. */
  datatype Mapping = Mapping(isAudio: bool, id: string, feature: Feature, gain: real, attackMs: real, releaseMs: real,
                             threshold: real, mode: Mode, action: Action, low: real, high: real,
                             groupOk: bool, target: string)

  datatype Frame = Frame(generation: int, sequence: int, running: bool, stale: bool, clearPending: bool,
                         levels: map<Feature, Level>, onset: bool)

  datatype Observation = Observation(frame: Frame, observedAt: real)

  /** What an update of one mapping leaves behind. */
  datatype Memory = Memory(mapping: Mapping, value: real, above: bool, at: real)

  type Rise = (real, real) -> real

  ghost predicate ValidRise(rise: Rise) {
    forall elapsed, duration :: 0.0 <= rise(elapsed, duration) < 1.0
  }

  function Clamp01(x: real): real { Max(0.0, Min(1.0, x)) }

  function Signal(feature: Feature, levels: map<Feature, Level>): (r: real)
    ensures 0.0 <= r <= 1.0
  {
    if feature in levels && levels[feature].Finite? then Clamp01(levels[feature].value) else 0.0
  }

  function Smooth(previous: real, next: real, elapsed: real, attack: real, release: real, rise: Rise): real {
    var duration := if next > previous then attack else release;
    if duration <= 0.0 then next else previous + (next - previous) * rise(Max(0.0, elapsed), duration)
  }

  /** A smoothed value lies between the previous value and the new signal. */
  lemma SmoothStaysBetween(previous: real, next: real, elapsed: real, attack: real, release: real, rise: Rise)
    requires ValidRise(rise)
    ensures Min(previous, next) <= Smooth(previous, next, elapsed, attack, release, rise) <= Max(previous, next)
  {
    var duration := if next > previous then attack else release;
    var f := rise(Max(0.0, elapsed), duration);
    Blend(previous, next, f);
  }

  /** Going a fraction of the way from `a` to `b` stays between them. */
  lemma Blend(a: real, b: real, f: real)
    requires 0.0 <= f <= 1.0
    ensures Min(a, b) <= a + (b - a) * f <= Max(a, b)
  {
    var d := b - a;
    var p := d * f;
    if d > 0.0 {
      Scaled(d, f);
      assert 0.0 <= p <= d;
    } else {
      Scaled(-d, f);
      assert -p == (-d) * f;
      assert d <= p <= 0.0;
    }
    assert a + (b - a) * f == a + p;
  }

  lemma Scaled(a: real, f: real)
    requires 0.0 <= a && 0.0 <= f <= 1.0
    ensures 0.0 <= a * f <= a
  {
    assert a * (1.0 - f) == a - a * f;
  }

  function MappingValue(signal: real, gain: real, low: real, high: real): real {
    low + (high - low) * Clamp01(signal * gain)
  }

  /** The value of a continuous control stays in its authored range, whichever end is larger. */
  lemma MappingValueInRange(signal: real, gain: real, low: real, high: real)
    ensures Min(low, high) <= MappingValue(signal, gain, low, high) <= Max(low, high)
  {
    Blend(low, high, Clamp01(signal * gain));
  }

  predicate IsTrigger(a: Action) { a.VideoClipSlotTrigger? || a.VideoTake? }

  predicate IsContinuous(a: Action) {
    a.VideoParamOpacity? || a.VideoLayerFade? || a.VideoGroupOpacity? || a.VideoMaster? || a.VideoIsfParam?
  }

  predicate ValidId(id: string) {
    1 <= |id| <= 80 && forall c :: c in id ==>
      'A' <= c <= 'Z' || 'a' <= c <= 'z' || '0' <= c <= '9' || c == '_' || c == '-'
  }

  predicate ValidSettings(m: Mapping) {
    && m.groupOk && ValidId(m.id)
    && 0.0 <= m.gain <= 16.0 && 0.0 <= m.attackMs <= 10000.0 && 0.0 <= m.releaseMs <= 10000.0
    && 0.0 <= m.threshold <= 1.0 && 0.0 <= m.low <= 1.0 && 0.0 <= m.high <= 1.0
  }

  predicate PositiveSafe(n: int) { 0 < n <= MAX_SAFE_INTEGER }

  predicate Usable(f: Frame) {
    f.running && !f.stale && !f.clearPending && PositiveSafe(f.generation) && PositiveSafe(f.sequence)
  }

  // ---- the publication source ----

  datatype Source = Source(observation: Option<Observation>, generation: int, sequence: int)

  function Accept(src: Source, f: Frame, now: real): Source {
    if !Usable(f) then src.(observation := None)
    else if f.generation < src.generation || (f.generation == src.generation && f.sequence <= src.sequence) then src
    else Source(Some(Observation(f, now)), f.generation, f.sequence)
  }

  // ---- one update of one mapping ----

  datatype Sample = Sample(mapping: Mapping, generation: int, sequence: int, isNew: bool, onset: bool,
                           before: Option<Memory>, smoothed: real, above: bool, after: Memory, fired: bool)

  function LowMark(threshold: real): real { Max(0.0, threshold - HYSTERESIS) }

  function SignalLevel(m: Mapping, levels: map<Feature, Level>): (r: real)
    ensures 0.0 <= r <= 1.0
  {
    Clamp01(Signal(m.feature, levels) * m.gain)
  }

  function SmoothedLevel(before: Option<Memory>, signal: real, m: Mapping, now: real, rise: Rise): real {
    if before.Some? then
      Smooth(before.value.value, signal, Min(MAX_ELAPSED_MS, Max(0.0, now - before.value.at)), m.attackMs, m.releaseMs,
             rise)
    else signal
  }

  function Update(memory: Option<Memory>, m: Mapping, o: Observation, isNew: bool, now: real, rise: Rise): Sample {
    var before := if memory.Some? && memory.value.mapping == m then memory else None;
    var signal := SignalLevel(m, o.frame.levels);
    var smoothed := SmoothedLevel(before, signal, m, now, rise);
    var above := if before.Some? && before.value.above then smoothed > LowMark(m.threshold)
                 else smoothed > 0.0 && smoothed >= m.threshold;
    var held := if isNew then above else if before.Some? then before.value.above else above;
    var edge := if m.mode.OnsetMode? then o.frame.onset else above && before.Some? && !before.value.above;
    Sample(m, o.frame.generation, o.frame.sequence, isNew, o.frame.onset, before, smoothed, above,
           Memory(m, smoothed, held, now),
           !(m.mode.Continuous? && IsContinuous(m.action)) && isNew && before.Some? && IsTrigger(m.action) && edge)
  }

  // ---- one evaluation ----

  datatype Value = Value(id: string, value: real)
  datatype Trigger = Trigger(id: string, action: Action)

  datatype Acc = Acc(memories: map<string, Memory>, active: set<string>, values: seq<Value>, triggers: seq<Trigger>,
                     samples: seq<Sample>)

  /** The loop body for one mapping. */
  function Visit(acc: Acc, m: Mapping, o: Observation, isNew: bool, now: real, rise: Rise): Acc {
    if !ValidSettings(m) || m.id in acc.active then acc
    else
      var s := Update(if m.id in acc.memories then Some(acc.memories[m.id]) else None, m, o, isNew, now, rise);
      Acc(acc.memories[m.id := s.after], acc.active + {m.id},
          if m.mode.Continuous? && IsContinuous(m.action)
          then acc.values + [Value(m.id, MappingValue(s.smoothed, 1.0, m.low, m.high))] else acc.values,
          if s.fired then acc.triggers + [Trigger(m.id, m.action)] else acc.triggers,
          acc.samples + [s])
  }

  function VisitAll(ms: seq<Mapping>, memories: map<string, Memory>, o: Observation, isNew: bool, now: real,
                    rise: Rise): Acc
    decreases |ms|
  {
    if ms == [] then Acc(memories, {}, [], [], [])
    else Visit(VisitAll(ms[..|ms| - 1], memories, o, isNew, now, rise), ms[|ms| - 1], o, isNew, now, rise)
  }

  datatype Evaluator = Evaluator(memories: map<string, Memory>, generation: Option<int>, sequence: Option<int>)

  datatype Result = Result(evaluator: Evaluator, generation: int, sequence: int, values: seq<Value>,
                           triggers: seq<Trigger>, samples: seq<Sample>)

  function Nothing(e: Evaluator): Result { Result(e, 0, 0, [], [], []) }

  function Cleared(): Evaluator { Evaluator(map[], None, None) }

  predicate Admissible(o: Option<Observation>, now: real, suspended: bool) {
    && !suspended && o.Some? && Usable(o.value.frame)
    && o.value.observedAt <= now && now - o.value.observedAt < FRESHNESS_MS
  }

  function AudioOnly(ms: seq<Mapping>): seq<Mapping> {
    var audio := Filter((m: Mapping) => m.isAudio, ms);
    if |audio| <= MAX_MAPPINGS then audio else audio[..MAX_MAPPINGS]
  }

  /** Array.prototype.sort by "is a Take", which is stable. */
  function TakesLast(ts: seq<Trigger>): seq<Trigger> {
    MoveToEnd((t: Trigger) => t.action.VideoTake?, ts)
  }

  function Evaluate(e: Evaluator, ms: seq<Mapping>, o: Option<Observation>, now: real, suspended: bool,
                    rise: Rise): Result {
    if !Admissible(o, now, suspended) then Nothing(Cleared())
    else
      var f := o.value.frame;
      if e.generation.Some? && f.generation < e.generation.value then Nothing(e.(memories := map[]))
      else
        var changed := e.generation != Some(f.generation);
        var memories := if changed then map[] else e.memories;
        var sequence := if changed then None else e.sequence;
        if !changed && sequence.Some? && f.sequence < sequence.value then Nothing(e.(memories := map[]))
        else
          var acc := VisitAll(AudioOnly(ms), memories, o.value, sequence != Some(f.sequence), now, rise);
          Result(Evaluator(map id | id in acc.memories && id in acc.active :: acc.memories[id],
                           Some(f.generation), Some(f.sequence)),
                 f.generation, f.sequence, acc.values, TakesLast(acc.triggers), acc.samples)
  }

  // ---- source and evaluator together ----

  datatype System = System(source: Source, evaluator: Evaluator, log: seq<Sample>)

  datatype Event =
    | Publish(frame: Frame, at: real)
    | ClearSource
    | ResetEvaluator
    | Advance(mappings: seq<Mapping>, now: real, suspended: bool, rise: Rise)

  function Init(): System { System(Source(None, 0, 0), Cleared(), []) }

  function Step(s: System, e: Event): System {
    match e
    case Publish(frame, at) => s.(source := Accept(s.source, frame, at))
    case ClearSource => s.(source := s.source.(observation := None))
    case ResetEvaluator => s.(evaluator := Cleared())
    case Advance(mappings, now, suspended, rise) =>
      var r := Evaluate(s.evaluator, mappings, s.source.observation, now, suspended, rise);
      s.(evaluator := r.evaluator, log := s.log + r.samples)
  }

  function Run(s: System, events: seq<Event>): System
    decreases |events|
  {
    if events == [] then s
    else Step(Run(s, events[..|events| - 1]), events[|events| - 1])
  }

  // ---- the history of samples ----

  function LastOf(log: seq<Sample>, id: string): Option<Sample>
    decreases |log|
  {
    if log == [] then None
    else if log[|log| - 1].mapping.id == id then Some(log[|log| - 1])
    else LastOf(log[..|log| - 1], id)
  }

  lemma LastOfAppend(log: seq<Sample>, x: Sample, id: string)
    ensures LastOf(log + [x], id) == if x.mapping.id == id then Some(x) else LastOf(log, id)
  {
    assert (log + [x])[..|log|] == log;
  }

  predicate Before(x: Sample, generation: int, sequence: int) {
    x.generation < generation || (x.generation == generation && x.sequence < sequence)
  }

  predicate NotAfter(x: Sample, generation: int, sequence: int) {
    x.generation < generation || (x.generation == generation && x.sequence <= sequence)
  }

  predicate NoneAfter(log: seq<Sample>, generation: int, sequence: int) {
    forall x :: x in log ==> NotAfter(x, generation, sequence)
  }

  /** The comparison of one sample, with its hysteresis, and when it fires. */
  predicate Coherent(x: Sample) {
    && x.after.mapping == x.mapping && x.after.value == x.smoothed
    && (x.above <==>
        if x.before.Some? && x.before.value.above then x.smoothed > LowMark(x.mapping.threshold)
        else x.smoothed > 0.0 && x.smoothed >= x.mapping.threshold)
    && (x.isNew ==> x.after.above == x.above)
    && (!x.isNew && x.before.Some? ==> x.after.above == x.before.value.above)
    && (x.fired ==> x.isNew && x.before.Some? && IsTrigger(x.mapping.action))
    && (x.fired && x.mapping.mode.OnsetMode? ==> x.onset)
    && (x.fired && !x.mapping.mode.OnsetMode? ==> x.above && !x.before.value.above)
  }

  /** `x` goes on from the newest earlier sample of its mapping, in the same generation. */
  predicate Continues(past: seq<Sample>, x: Sample) {
    var last := LastOf(past, x.mapping.id);
    && last.Some? && x.before.Some? && last.value.after == x.before.value && last.value.mapping == x.mapping
    && last.value.generation == x.generation && last.value.sequence <= x.sequence
    && (x.isNew ==> last.value.sequence < x.sequence)
  }

  predicate Follows(past: seq<Sample>, x: Sample) {
    && Coherent(x)
    && (x.before.Some? ==> Continues(past, x))
    && (x.fired ==> NoEarlier(past, x))
  }

  /** Every earlier sample of the same mapping saw an older publication. */
  predicate NoEarlier(past: seq<Sample>, x: Sample) {
    forall y :: y in past && y.mapping.id == x.mapping.id ==> Before(y, x.generation, x.sequence)
  }

  predicate Lawful(log: seq<Sample>) {
    forall i :: 0 <= i < |log| ==> Follows(log[..i], log[i])
  }

  lemma LawfulAppend(log: seq<Sample>, x: Sample)
    requires Lawful(log) && Follows(log, x)
    ensures Lawful(log + [x])
  {
    var all := log + [x];
    forall i | 0 <= i < |all| ensures Follows(all[..i], all[i]) {
      assert all[..i] == log[..i];
      assert i == |log| ==> log[..i] == log;
    }
  }

  // ---- what one evaluation adds to the history ----

  /** Each memory is what the newest sample of that mapping left, in the generation being read. */
  predicate Remembers(memories: map<string, Memory>, log: seq<Sample>, generation: int) {
    forall id :: id in memories ==> RemembersOne(memories[id], LastOf(log, id), generation)
  }

  predicate RemembersOne(m: Memory, last: Option<Sample>, generation: int) {
    last.Some? && last.value.after == m && last.value.mapping == m.mapping && last.value.generation == generation
  }

  /** The history before this evaluation, seen by a mapping not visited yet. */
  predicate Earlier(past: seq<Sample>, memories: map<string, Memory>, f: Frame, isNew: bool) {
    && NoneAfter(past, f.generation, f.sequence)
    && (memories != map[] && isNew ==> forall x :: x in past ==> Before(x, f.generation, f.sequence))
  }

  predicate SampledNow(samples: seq<Sample>, active: set<string>, f: Frame) {
    forall x :: x in samples ==> x.mapping.id in active && x.generation == f.generation && x.sequence == f.sequence
  }

  ghost predicate Visited(past: seq<Sample>, memories: map<string, Memory>, acc: Acc, f: Frame) {
    && acc.memories.Keys <= memories.Keys + acc.active
    && SampledNow(acc.samples, acc.active, f)
    && Remembers(acc.memories, past + acc.samples, f.generation)
    && Lawful(past + acc.samples)
  }

  lemma LastOfMember(log: seq<Sample>, id: string)
    ensures LastOf(log, id).Some? ==> LastOf(log, id).value in log && LastOf(log, id).value.mapping.id == id
    ensures LastOf(log, id).None? ==> forall x :: x in log ==> x.mapping.id != id
  {
    if log != [] && log[|log| - 1].mapping.id != id {
      LastOfMember(log[..|log| - 1], id);
    }
  }

  lemma UpdateIsCoherent(memory: Option<Memory>, m: Mapping, o: Observation, isNew: bool, now: real, rise: Rise)
    ensures Coherent(Update(memory, m, o, isNew, now, rise))
  {
  }

  lemma {:induction false} SampleFollows(past: seq<Sample>, memories: map<string, Memory>, acc: Acc, m: Mapping,
                                         o: Observation, isNew: bool, now: real, rise: Rise)
    requires Earlier(past, memories, o.frame, isNew) && Visited(past, memories, acc, o.frame)
    requires m.id !in acc.active
    ensures Follows(past + acc.samples,
                    Update(if m.id in acc.memories then Some(acc.memories[m.id]) else None, m, o, isNew, now, rise))
  {
    var memory := if m.id in acc.memories then Some(acc.memories[m.id]) else None;
    var x := Update(memory, m, o, isNew, now, rise);
    UpdateIsCoherent(memory, m, o, isNew, now, rise);
    LastOfMember(past + acc.samples, m.id);
    if x.before.Some? {
      assert m.id in memories;
      assert RemembersOne(acc.memories[m.id], LastOf(past + acc.samples, m.id), o.frame.generation);
      assert LastOf(past + acc.samples, m.id).value in past;
    }
  }

  lemma {:induction false} VisitKeeps(past: seq<Sample>, memories: map<string, Memory>, acc: Acc, m: Mapping,
                                      o: Observation, isNew: bool, now: real, rise: Rise)
    requires Earlier(past, memories, o.frame, isNew) && Visited(past, memories, acc, o.frame)
    ensures Visited(past, memories, Visit(acc, m, o, isNew, now, rise), o.frame)
  {
    var next := Visit(acc, m, o, isNew, now, rise);
    if next != acc {
      var x := Update(if m.id in acc.memories then Some(acc.memories[m.id]) else None, m, o, isNew, now, rise);
      var log := past + acc.samples;
      SampleFollows(past, memories, acc, m, o, isNew, now, rise);
      LawfulAppend(log, x);
      assert past + next.samples == log + [x];
      forall id | id in next.memories
        ensures RemembersOne(next.memories[id], LastOf(log + [x], id), o.frame.generation)
      {
        LastOfAppend(log, x, id);
        assert id != m.id ==> RemembersOne(acc.memories[id], LastOf(log, id), o.frame.generation);
      }
    }
  }

  lemma {:induction false} VisitAllKeeps(past: seq<Sample>, ms: seq<Mapping>, memories: map<string, Memory>,
                                         o: Observation, isNew: bool, now: real, rise: Rise)
    requires Earlier(past, memories, o.frame, isNew)
    requires Remembers(memories, past, o.frame.generation) && Lawful(past)
    ensures Visited(past, memories, VisitAll(ms, memories, o, isNew, now, rise), o.frame)
    decreases |ms|
  {
    if ms == [] {
      assert past + [] == past;
    } else {
      VisitAllKeeps(past, ms[..|ms| - 1], memories, o, isNew, now, rise);
      VisitKeeps(past, memories, VisitAll(ms[..|ms| - 1], memories, o, isNew, now, rise), ms[|ms| - 1], o, isNew, now,
                 rise);
    }
  }

  // ---- every run ----

  predicate SourceOk(src: Source) {
    && src.generation >= 0
    && (src.observation.Some? ==>
        && Usable(src.observation.value.frame)
        && src.observation.value.frame.generation == src.generation
        && src.observation.value.frame.sequence == src.sequence)
  }

  /** The evaluator has read nothing newer than the source holds, and everything sampled is no newer than that. */
  predicate InStep(s: System) {
    && NoneAfter(s.log, s.source.generation, s.source.sequence)
    && (s.evaluator.generation.Some? <==> s.evaluator.sequence.Some?)
    && (s.evaluator.generation.None? ==> s.evaluator.memories == map[])
    && (s.evaluator.generation.Some? ==>
        && (s.evaluator.generation.value < s.source.generation
            || (s.evaluator.generation.value == s.source.generation && s.evaluator.sequence.value <= s.source.sequence))
        && NoneAfter(s.log, s.evaluator.generation.value, s.evaluator.sequence.value)
        && Remembers(s.evaluator.memories, s.log, s.evaluator.generation.value))
  }

  ghost predicate Invariant(s: System) {
    SourceOk(s.source) && InStep(s) && Lawful(s.log)
  }

  lemma AcceptKeeps(s: System, f: Frame, at: real)
    requires Invariant(s)
    ensures Invariant(s.(source := Accept(s.source, f, at)))
  {
    var next := Accept(s.source, f, at);
    assert s.source.generation < next.generation
           || (s.source.generation == next.generation && s.source.sequence <= next.sequence);
  }

  lemma {:induction false} EvaluateKeeps(s: System, ms: seq<Mapping>, now: real, suspended: bool, rise: Rise)
    requires Invariant(s)
    ensures Invariant(Step(s, Advance(ms, now, suspended, rise)))
  {
    var e, o := s.evaluator, s.source.observation;
    var r := Evaluate(e, ms, o, now, suspended, rise);
    if Admissible(o, now, suspended) {
      var f := o.value.frame;
      var changed := e.generation != Some(f.generation);
      var memories := if changed then map[] else e.memories;
      var sequence := if changed then None else e.sequence;
      var isNew := sequence != Some(f.sequence);
      VisitAllKeeps(s.log, AudioOnly(ms), memories, o.value, isNew, now, rise);
      var acc := VisitAll(AudioOnly(ms), memories, o.value, isNew, now, rise);
      assert r.samples == acc.samples;
      assert NoneAfter(s.log + acc.samples, f.generation, f.sequence);
    } else {
      assert s.log + [] == s.log;
    }
  }

  lemma {:induction false} StepKeeps(s: System, e: Event)
    requires Invariant(s)
    ensures Invariant(Step(s, e))
  {
    match e
    case Publish(frame, at) => AcceptKeeps(s, frame, at);
    case ClearSource =>
    case ResetEvaluator =>
    case Advance(ms, now, suspended, rise) => EvaluateKeeps(s, ms, now, suspended, rise);
  }

  lemma {:induction false} EveryRun(events: seq<Event>)
    ensures Invariant(Run(Init(), events))
    decreases |events|
  {
    if events != [] {
      EveryRun(events[..|events| - 1]);
      StepKeeps(Run(Init(), events[..|events| - 1]), events[|events| - 1]);
    }
  }

  // ---- what every run promises ----

  lemma SampleFollowsAt(events: seq<Event>, i: nat)
    requires i < |Run(Init(), events).log|
    ensures Follows(Run(Init(), events).log[..i], Run(Init(), events).log[i])
  {
    EveryRun(events);
  }

  /** Two firings of one mapping, anywhere in a run, answer different publications, the later one newer. */
  lemma FiresOncePerPublication(events: seq<Event>, i: nat, j: nat)
    requires i < j < |Run(Init(), events).log|
    requires Run(Init(), events).log[i].mapping.id == Run(Init(), events).log[j].mapping.id
    requires Run(Init(), events).log[j].fired
    ensures Before(Run(Init(), events).log[i], Run(Init(), events).log[j].generation,
                   Run(Init(), events).log[j].sequence)
  {
    SampleFollowsAt(events, j);
    assert Run(Init(), events).log[i] in Run(Init(), events).log[..j];
  }

  /** A firing goes on from a baseline: the newest earlier sample had the same configuration and generation. */
  lemma FiresOnlyAfterABaseline(events: seq<Event>, j: nat)
    requires j < |Run(Init(), events).log| && Run(Init(), events).log[j].fired
    ensures
      var x, last := Run(Init(), events).log[j],
        LastOf(Run(Init(), events).log[..j], Run(Init(), events).log[j].mapping.id);
      && x.isNew && IsTrigger(x.mapping.action)
      && last.Some? && last.value.mapping == x.mapping && last.value.generation == x.generation
      && last.value.sequence < x.sequence
      && (x.mapping.mode.OnsetMode? ==> x.onset)
      && (!x.mapping.mode.OnsetMode? ==>
          !last.value.after.above && x.smoothed > 0.0 && x.smoothed >= x.mapping.threshold)
  {
    SampleFollowsAt(events, j);
  }

  /** A new publication whose level fell to the re-arm mark. */
  predicate Rearms(x: Sample, m: Mapping) {
    x.mapping == m && x.isNew && x.smoothed <= LowMark(m.threshold)
  }

  predicate NoBaseline(log: seq<Sample>, id: string, from: nat, upto: nat)
    requires upto <= |log|
  {
    forall k :: from < k < upto && log[k].mapping.id == id ==> log[k].before.Some?
  }

  ghost predicate RearmedBetween(log: seq<Sample>, m: Mapping, from: nat, upto: nat)
    requires upto <= |log|
  {
    exists k :: from < k < upto && Rearms(log[k], m)
  }

  /** Going back from position `upto`: the configuration is unchanged, and "not above" means a re-arm in between. */
  lemma {:induction false} BelowMeansRearmed(log: seq<Sample>, i: nat, upto: nat)
    requires Lawful(log) && i < upto <= |log| && log[i].after.above
    requires NoBaseline(log, log[i].mapping.id, i, upto)
    ensures LastOf(log[..upto], log[i].mapping.id).Some?
    ensures LastOf(log[..upto], log[i].mapping.id).value.mapping == log[i].mapping
    ensures !LastOf(log[..upto], log[i].mapping.id).value.after.above ==> RearmedBetween(log, log[i].mapping, i, upto)
    decreases upto
  {
    var x := log[upto - 1];
    assert log[..upto][..upto - 1] == log[..upto - 1];
    if upto - 1 > i {
      BelowMeansRearmed(log, i, upto - 1);
      assert Follows(log[..upto - 1], x);
      if x.mapping.id == log[i].mapping.id {
        assert Continues(log[..upto - 1], x);
        assert x.before.value.above && !x.after.above ==> Rearms(log[upto - 1], log[i].mapping);
      }
    }
    assert upto - 1 > i && RearmedBetween(log, log[i].mapping, i, upto - 1) ==>
             RearmedBetween(log, log[i].mapping, i, upto);
  }

  /**
   Between two threshold firings with no baseline of that mapping in between, some newer
   publication had brought the smoothed level down to max(0, threshold - 0.05).
   */
  lemma ThresholdRearms(events: seq<Event>, i: nat, j: nat)
    requires i < j < |Run(Init(), events).log|
    requires Run(Init(), events).log[i].fired && Run(Init(), events).log[j].fired
    requires Run(Init(), events).log[i].mapping.id == Run(Init(), events).log[j].mapping.id
    requires !Run(Init(), events).log[i].mapping.mode.OnsetMode? && !Run(Init(), events).log[j].mapping.mode.OnsetMode?
    requires NoBaseline(Run(Init(), events).log, Run(Init(), events).log[i].mapping.id, i, j)
    ensures RearmedBetween(Run(Init(), events).log, Run(Init(), events).log[i].mapping, i, j)
  {
    EveryRun(events);
    SampleFollowsAt(events, i);
    FiresOnlyAfterABaseline(events, j);
    BelowMeansRearmed(Run(Init(), events).log, i, j);
  }

  predicate Unit(x: real) { 0.0 <= x <= 1.0 }

  ghost predicate RisesAreValid(events: seq<Event>) {
    forall e :: e in events && e.Advance? ==> ValidRise(e.rise)
  }

  predicate Levels(memories: map<string, Memory>, samples: seq<Sample>) {
    (forall id :: id in memories ==> Unit(memories[id].value)) && (forall x :: x in samples ==> Unit(x.smoothed))
  }

  lemma UpdateStaysUnit(memory: Option<Memory>, m: Mapping, o: Observation, isNew: bool, now: real, rise: Rise)
    requires ValidRise(rise) && (memory.Some? ==> Unit(memory.value.value))
    ensures Unit(Update(memory, m, o, isNew, now, rise).smoothed)
  {
    var before := if memory.Some? && memory.value.mapping == m then memory else None;
    SmoothedLevelStaysUnit(before, SignalLevel(m, o.frame.levels), m, now, rise);
  }

  lemma SmoothedLevelStaysUnit(before: Option<Memory>, signal: real, m: Mapping, now: real, rise: Rise)
    requires ValidRise(rise) && Unit(signal) && (before.Some? ==> Unit(before.value.value))
    ensures Unit(SmoothedLevel(before, signal, m, now, rise))
  {
    if before.Some? {
      SmoothStaysUnit(before.value.value, signal, Min(MAX_ELAPSED_MS, Max(0.0, now - before.value.at)), m.attackMs,
                      m.releaseMs, rise);
    }
  }

  lemma SmoothStaysUnit(previous: real, next: real, elapsed: real, attack: real, release: real, rise: Rise)
    requires ValidRise(rise) && Unit(previous) && Unit(next)
    ensures Unit(Smooth(previous, next, elapsed, attack, release, rise))
  {
    SmoothStaysBetween(previous, next, elapsed, attack, release, rise);
  }

  lemma {:induction false} VisitAllStaysUnit(ms: seq<Mapping>, memories: map<string, Memory>, o: Observation,
                                             isNew: bool, now: real, rise: Rise)
    requires ValidRise(rise) && Levels(memories, [])
    ensures Levels(VisitAll(ms, memories, o, isNew, now, rise).memories,
                   VisitAll(ms, memories, o, isNew, now, rise).samples)
    decreases |ms|
  {
    if ms != [] {
      VisitAllStaysUnit(ms[..|ms| - 1], memories, o, isNew, now, rise);
      var acc, m := VisitAll(ms[..|ms| - 1], memories, o, isNew, now, rise), ms[|ms| - 1];
      UpdateStaysUnit(if m.id in acc.memories then Some(acc.memories[m.id]) else None, m, o, isNew, now, rise);
    }
  }

  /** Every smoothed level of a run lies in [0, 1]. */
  lemma {:induction false} LevelsStayUnit(events: seq<Event>)
    requires RisesAreValid(events)
    ensures Levels(Run(Init(), events).evaluator.memories, Run(Init(), events).log)
    decreases |events|
  {
    if events != [] {
      var s, e := Run(Init(), events[..|events| - 1]), events[|events| - 1];
      assert forall x :: x in events[..|events| - 1] ==> x in events;
      assert e in events;
      LevelsStayUnit(events[..|events| - 1]);
      if e.Advance? {
        EvaluateStaysUnit(s.evaluator, e.mappings, s.source.observation, e.now, e.suspended, e.rise);
      }
    }
  }

  lemma EvaluateStaysUnit(e: Evaluator, ms: seq<Mapping>, o: Option<Observation>, now: real, suspended: bool,
                          rise: Rise)
    requires ValidRise(rise) && Levels(e.memories, [])
    ensures Levels(Evaluate(e, ms, o, now, suspended, rise).evaluator.memories,
                   Evaluate(e, ms, o, now, suspended, rise).samples)
  {
    if Admissible(o, now, suspended) {
      var changed := e.generation != Some(o.value.frame.generation);
      var sequence := if changed then None else e.sequence;
      VisitAllStaysUnit(AudioOnly(ms), if changed then map[] else e.memories, o.value,
                        sequence != Some(o.value.frame.sequence), now, rise);
    }
  }

  // ---- the batch and the triggers of one evaluation ----

  predicate InAuthoredRange(v: Value, ms: seq<Mapping>) {
    exists m :: m in ms && m.id == v.id && Min(m.low, m.high) <= v.value <= Max(m.low, m.high)
  }

  predicate AllInRange(vs: seq<Value>, ms: seq<Mapping>) {
    forall v :: v in vs ==> InAuthoredRange(v, ms)
  }

  lemma {:induction false} VisitAllInRange(ms: seq<Mapping>, memories: map<string, Memory>, o: Observation, isNew: bool,
                                           now: real, rise: Rise)
    ensures AllInRange(VisitAll(ms, memories, o, isNew, now, rise).values, ms)
    decreases |ms|
  {
    if ms != [] {
      var front, m := ms[..|ms| - 1], ms[|ms| - 1];
      VisitAllInRange(front, memories, o, isNew, now, rise);
      var acc := VisitAll(front, memories, o, isNew, now, rise);
      assert AllInRange(acc.values, ms) by {
        forall v | v in acc.values ensures InAuthoredRange(v, ms) {
          assert InAuthoredRange(v, front);
        }
      }
      var x := Update(if m.id in acc.memories then Some(acc.memories[m.id]) else None, m, o, isNew, now, rise);
      MappingValueInRange(x.smoothed, 1.0, m.low, m.high);
      assert m in ms;
      assert InAuthoredRange(Value(m.id, MappingValue(x.smoothed, 1.0, m.low, m.high)), ms);
    }
  }

  /** Whatever is sent to the runtime lies between the low and high ends its mapping was given. */
  lemma ContinuousValuesStayInRange(e: Evaluator, ms: seq<Mapping>, o: Option<Observation>, now: real, suspended: bool,
                                    rise: Rise)
    ensures AllInRange(Evaluate(e, ms, o, now, suspended, rise).values, ms)
  {
    if Admissible(o, now, suspended) {
      var changed := e.generation != Some(o.value.frame.generation);
      var sequence := if changed then None else e.sequence;
      var all := VisitAll(AudioOnly(ms), if changed then map[] else e.memories, o.value,
                          sequence != Some(o.value.frame.sequence), now, rise).values;
      VisitAllInRange(AudioOnly(ms), if changed then map[] else e.memories, o.value,
                      sequence != Some(o.value.frame.sequence), now, rise);
      forall v | v in all ensures InAuthoredRange(v, ms) {
        assert InAuthoredRange(v, AudioOnly(ms));
      }
    }
  }

  function Fires(samples: seq<Sample>): seq<Trigger>
    decreases |samples|
  {
    if samples == [] then []
    else
      var x := samples[|samples| - 1];
      Fires(samples[..|samples| - 1]) + if x.fired then [Trigger(x.mapping.id, x.mapping.action)] else []
  }

  lemma {:induction false} TriggersAreFires(ms: seq<Mapping>, memories: map<string, Memory>, o: Observation,
                                            isNew: bool, now: real, rise: Rise)
    ensures var acc := VisitAll(ms, memories, o, isNew, now, rise); acc.triggers == Fires(acc.samples)
    decreases |ms|
  {
    if ms != [] {
      TriggersAreFires(ms[..|ms| - 1], memories, o, isNew, now, rise);
      var acc := VisitAll(ms[..|ms| - 1], memories, o, isNew, now, rise);
      var next := VisitAll(ms, memories, o, isNew, now, rise);
      if next != acc {
        assert next.samples[..|next.samples| - 1] == acc.samples;
      }
    }
  }

  /** The dispatched triggers are the firings of this evaluation, Takes after everything else. */
  lemma TriggersAreTheFirings(e: Evaluator, ms: seq<Mapping>, o: Option<Observation>, now: real, suspended: bool,
                              rise: Rise)
    ensures var r := Evaluate(e, ms, o, now, suspended, rise); r.triggers == TakesLast(Fires(r.samples))
  {
    if Admissible(o, now, suspended) {
      var changed := e.generation != Some(o.value.frame.generation);
      var sequence := if changed then None else e.sequence;
      TriggersAreFires(AudioOnly(ms), if changed then map[] else e.memories, o.value,
                       sequence != Some(o.value.frame.sequence), now, rise);
    }
  }

  /** Ordering the triggers loses and invents none, and no Take precedes another trigger. */
  lemma TakesLastSorts(ts: seq<Trigger>)
    ensures multiset(TakesLast(ts)) == multiset(ts)
    ensures forall i, j :: 0 <= i < j < |TakesLast(ts)| && TakesLast(ts)[i].action.VideoTake? ==>
              TakesLast(ts)[j].action.VideoTake?
  {
    MoveToEndSorts((t: Trigger) => t.action.VideoTake?, ts);
  }

  predicate NoFire(ts: seq<Trigger>, id: string) {
    forall t :: t in ts ==> t.id != id
  }

  /** Whichever of its two causes, an evaluation without memories fires nothing: it is a baseline. */
  lemma {:induction false} BaselineFiresNothing(ms: seq<Mapping>, memories: map<string, Memory>, id: string,
                                                o: Observation, isNew: bool, now: real, rise: Rise)
    requires forall m :: m in ms && m.id == id && id in memories ==> memories[id].mapping != m
    ensures NoFire(VisitAll(ms, memories, o, isNew, now, rise).triggers, id)
    ensures var acc := VisitAll(ms, memories, o, isNew, now, rise);
            id !in acc.active ==>
              (id in acc.memories <==> id in memories) && (id in memories ==> acc.memories[id] == memories[id])
    decreases |ms|
  {
    if ms != [] {
      assert forall m :: m in ms[..|ms| - 1] ==> m in ms;
      assert ms[|ms| - 1] in ms;
      BaselineFiresNothing(ms[..|ms| - 1], memories, id, o, isNew, now, rise);
    }
  }

  /**
   A mapping with no memory of exactly its present configuration does not fire: the first read, the first
   after a reset, after a suspended, stale or stopped read, after a source restart, and after an edit.
   */
  lemma UnknownMappingsDoNotFire(e: Evaluator, ms: seq<Mapping>, id: string, o: Option<Observation>, now: real,
                                 suspended: bool, rise: Rise)
    requires id !in e.memories || e.generation != (if o.Some? then Some(o.value.frame.generation) else None)
             || forall m :: m in ms && m.id == id ==> e.memories[id].mapping != m
    ensures NoFire(Evaluate(e, ms, o, now, suspended, rise).triggers, id)
  {
    if Admissible(o, now, suspended) {
      var changed := e.generation != Some(o.value.frame.generation);
      var sequence := if changed then None else e.sequence;
      assert forall m :: m in AudioOnly(ms) ==> m in ms;
      BaselineFiresNothing(AudioOnly(ms), if changed then map[] else e.memories, id, o.value,
                           sequence != Some(o.value.frame.sequence), now, rise);
    }
  }

  /** A read that is suspended, stale, stopped, expired or missing forgets everything. */
  lemma RefusedReadForgets(e: Evaluator, ms: seq<Mapping>, o: Option<Observation>, now: real, suspended: bool,
                           rise: Rise)
    requires suspended || o.None? || !Usable(o.value.frame) || now < o.value.observedAt
             || now - o.value.observedAt >= FRESHNESS_MS
    ensures var r := Evaluate(e, ms, o, now, suspended, rise);
            r.evaluator.memories == map[] && r.evaluator.generation.None? && r.values == [] && r.triggers == []
  {
  }

  // ---- the lease ----

  /** The time at which the publication held by the source was first published. */
  ghost predicate LeaseSince(src: Source, events: seq<Event>) {
    src.observation.Some? ==>
      exists i :: 0 <= i < |events| && FirstPublished(events, i, src.observation.value)
  }

  ghost predicate FirstPublished(events: seq<Event>, i: nat, o: Observation)
    requires i < |events|
  {
    && events[i] == Publish(o.frame, o.observedAt)
    && forall j :: 0 <= j < i ==> !SamePublication(events[j], o.frame)
  }

  predicate SamePublication(e: Event, f: Frame) {
    e.Publish? && Usable(e.frame) && e.frame.generation == f.generation && e.frame.sequence == f.sequence
  }

  /** The source has seen no publication newer than the one it remembers. */
  ghost predicate SeenUpTo(src: Source, events: seq<Event>) {
    forall e :: e in events && e.Publish? && Usable(e.frame) ==>
      e.frame.generation < src.generation || (e.frame.generation == src.generation && e.frame.sequence <= src.sequence)
  }

  lemma {:induction false} SourceHasSeen(events: seq<Event>)
    ensures SeenUpTo(Run(Init(), events).source, events)
    decreases |events|
  {
    if events != [] {
      SourceHasSeen(events[..|events| - 1]);
      var s, e := Run(Init(), events[..|events| - 1]), events[|events| - 1];
      assert events == events[..|events| - 1] + [e];
      SourceOnlyAdvances(s, e);
    }
  }

  lemma SourceOnlyAdvances(s: System, e: Event)
    ensures var t := Step(s, e).source;
            s.source.generation < t.generation
              || (s.source.generation == t.generation && s.source.sequence <= t.sequence)
  {
  }

  /** A publication is timed by its first arrival: polling it again never renews it, nor revives it once cleared. */
  lemma {:induction false} LeaseRunsFromFirstPublication(events: seq<Event>)
    ensures LeaseSince(Run(Init(), events).source, events)
    decreases |events|
  {
    if events != [] {
      var front, e := events[..|events| - 1], events[|events| - 1];
      var s := Run(Init(), front);
      LeaseRunsFromFirstPublication(front);
      SourceHasSeen(front);
      var next := Step(s, e).source;
      if next.observation.Some? {
        if next.observation == s.source.observation {
          var i :| 0 <= i < |front| && FirstPublished(front, i, s.source.observation.value);
          assert FirstPublished(events, i, next.observation.value);
        } else {
          forall j | 0 <= j < |front| ensures !SamePublication(events[j], next.observation.value.frame) {
            assert events[j] == front[j] && front[j] in front;
          }
          assert FirstPublished(events, |front|, next.observation.value);
        }
      }
    }
  }

  /** Publication (g, q) is newer than any the source has taken. */
  predicate NewerThan(src: Source, g: int, q: int) {
    src.generation < g || (src.generation == g && src.sequence < q)
  }

  /** The event publishes a usable frame newer than any the source has taken. */
  predicate BringsNewer(src: Source, e: Event) {
    e.Publish? && Usable(e.frame) && NewerThan(src, e.frame.generation, e.frame.sequence)
  }

  /** What is held after an event was held before, or is the newer usable publication this event brings. */
  lemma HeldOrNewer(s: System, e: Event)
    ensures var t := Step(s, e).source;
            && (t.observation.Some? ==>
                t == s.source || (BringsNewer(s.source, e) && t.observation == Some(Observation(e.frame, e.at))))
            && (s.source.observation.None? ==>
                (t.observation.Some? <==> BringsNewer(s.source, e)))
  {
  }

  /** The event is the arrival of observation o. */
  ghost predicate Brought(e: Event, o: Observation) { e == Publish(o.frame, o.observedAt) }

  /**
   A source that holds nothing, having been cleared or stopped, holds nothing again until a publication newer
   than every one taken before arrives, and then is timed by that arrival.
   */
  lemma {:induction false} ClearedStaysCleared(events: seq<Event>, i: nat)
    requires i <= |events| && Run(Init(), events[..i]).source.observation.None?
    requires Run(Init(), events).source.observation.Some?
    ensures var past, now := Run(Init(), events[..i]).source, Run(Init(), events).source;
            && NewerThan(past, now.generation, now.sequence)
            && now.observation.value.frame.generation == now.generation
            && now.observation.value.frame.sequence == now.sequence
            && exists k :: i <= k < |events| && Brought(events[k], now.observation.value)
    decreases |events|
  {
    WholePrefix(events);
    if i < |events| {
      var front, e := events[..|events| - 1], events[|events| - 1];
      assert front[..i] == events[..i];
      var s := Run(Init(), front);
      HeldOrNewer(s, e);
      if s.source == Step(s, e).source {
        ClearedStaysCleared(front, i);
        var k :| i <= k < |front| && Brought(front[k], s.source.observation.value);
        assert Brought(events[k], s.source.observation.value);
      } else {
        SourceKeepsAdvancing(events, i);
        assert Brought(events[|front|], Step(s, e).source.observation.value);
      }
    }
  }

  lemma WholePrefix(events: seq<Event>)
    ensures events[..|events|] == events
  {
  }

  lemma {:induction false} SourceKeepsAdvancing(events: seq<Event>, i: nat)
    requires i < |events|
    ensures var past, last := Run(Init(), events[..i]).source, Run(Init(), events[..|events| - 1]).source;
            past.generation < last.generation || (past.generation == last.generation && past.sequence <= last.sequence)
    decreases |events|
  {
    var front := events[..|events| - 1];
    if i < |front| {
      SourceKeepsAdvancing(front, i);
      assert front[..i] == events[..i];
      SourceOnlyAdvances(Run(Init(), front[..|front| - 1]), front[|front| - 1]);
    }
  }

  // ---- the stateful objects ----

  /** createAudioMappingSource. */
  class AudioMappingSource {
    var observation: Option<Observation>
    var generation: int
    var sequence: int

    function View(): Source
      reads this
    {
      Source(observation, generation, sequence)
    }

    constructor ()
      ensures View() == Init().source
    {
      observation, generation, sequence := None, 0, 0;
    }

    method Clear()
      modifies this
      ensures View() == old(View()).(observation := None)
    {
      observation := None;
    }

    method AcceptFrame(frame: Frame, now: real)
      modifies this
      ensures View() == Accept(old(View()), frame, now)
    {
      if !Usable(frame) {
        observation := None;
        return;
      }
      if frame.generation < generation || (frame.generation == generation && frame.sequence <= sequence) { return; }
      generation, sequence := frame.generation, frame.sequence;
      observation := Some(Observation(frame, now));
    }
  }

  /** createAudioMappingEvaluator; `samples` observes what each visit saw. */
  class AudioMappingEvaluator {
    var states: map<string, Memory>
    var generation: Option<int>
    var sequence: Option<int>
    ghost var samples: seq<Sample>

    function View(): Evaluator
      reads this
    {
      Evaluator(states, generation, sequence)
    }

    constructor ()
      ensures View() == Cleared()
    {
      states, generation, sequence := map[], None, None;
    }

    method Reset()
      modifies this
      ensures View() == Cleared() && samples == old(samples)
    {
      states, generation, sequence := map[], None, None;
    }

    /** One evaluation; the result is the batch and the triggers of Evaluate, and the state its successor. */
    method Read(mappings: seq<Mapping>, observation: Option<Observation>, now: real, suspended: bool, rise: Rise)
      returns (audioGeneration: int, featureSequence: int, values: seq<Value>, triggers: seq<Trigger>)
      modifies this
      ensures var r := Evaluate(old(View()), mappings, observation, now, suspended, rise);
              && View() == r.evaluator && samples == old(samples) + r.samples
              && audioGeneration == r.generation && featureSequence == r.sequence
              && values == r.values && triggers == r.triggers
    {
      audioGeneration, featureSequence, values, triggers := 0, 0, [], [];
      if !Admissible(observation, now, suspended) {
        Reset();
        return;
      }
      var frame := observation.value.frame;
      if generation.Some? && frame.generation < generation.value {
        states := map[];
        return;
      }
      var sourceChanged := generation != Some(frame.generation);
      if sourceChanged { states, sequence := map[], None; }
      if !sourceChanged && sequence.Some? && frame.sequence < sequence.value {
        states := map[];
        return;
      }
      var isNew := sequence != Some(frame.sequence);
      generation, sequence := Some(frame.generation), Some(frame.sequence);
      var activeIds: set<string>;
      values, triggers, activeIds := VisitMappings(AudioOnly(mappings), observation.value, isNew, now, rise);
      states := map id | id in states && id in activeIds :: states[id];
      triggers := TakesLast(triggers);
      audioGeneration, featureSequence := frame.generation, frame.sequence;
    }

    /** The loop over the audio mappings. */
    method VisitMappings(mappings: seq<Mapping>, o: Observation, isNew: bool, now: real, rise: Rise)
      returns (values: seq<Value>, triggers: seq<Trigger>, activeIds: set<string>)
      modifies this`states, this`samples
      ensures var acc := VisitAll(mappings, old(states), o, isNew, now, rise);
              && states == acc.memories && activeIds == acc.active && values == acc.values && triggers == acc.triggers
              && samples == old(samples) + acc.samples
    {
      values, triggers, activeIds := [], [], {};
      var n := 0;
      ghost var seen: seq<Sample> := [];
      while n < |mappings|
        invariant 0 <= n <= |mappings|
        invariant Acc(states, activeIds, values, triggers, seen)
                  == VisitAll(mappings[..n], old(states), o, isNew, now, rise)
        invariant samples == old(samples) + seen
      {
        var m := mappings[n];
        assert mappings[..n + 1][..n] == mappings[..n];
        if ValidSettings(m) && m.id !in activeIds {
          activeIds := activeIds + {m.id};
          var x := Update(if m.id in states then Some(states[m.id]) else None, m, o, isNew, now, rise);
          states := states[m.id := x.after];
          if m.mode.Continuous? && IsContinuous(m.action) {
            values := values + [Value(m.id, MappingValue(x.smoothed, 1.0, m.low, m.high))];
          } else if x.fired {
            triggers := triggers + [Trigger(m.id, m.action)];
          }
          seen := seen + [x];
          samples := samples + [x];
        }
        n := n + 1;
      }
      assert mappings[..n] == mappings;
    }
  }
}
