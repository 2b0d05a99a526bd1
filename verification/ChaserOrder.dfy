/**
 Step orders of a chaser and the window of steps that are on: app/src/chaserDraft.ts.

 Numbers are 32-bit where the source makes them so; everything else is an integer, and phases are reals.
 */
module ChaserOrder {
  import opened Prelude

  const TWO32: int := 0x1_0000_0000
  const MULTIPLIER: int := 1664525
  const INCREMENT: int := 1013904223

  datatype Direction = Forward | Reverse | Bounce | Random | BuildUpDown

  function Clamp(x: int, low: int, high: int): int {
    if x < low then low else if x > high then high else x
  }

  // ---- 32-bit arithmetic ----

  /** `x >>> 0`. */
  function ToUint32(x: int): (r: nat)
    ensures r < TWO32
  {
    x % TWO32
  }

  /** Math.imul: the low 32 bits of the product, as a signed number. */
  function Imul(a: int, b: int): int {
    var low := (a * b) % TWO32;
    if low >= 0x8000_0000 then low - TWO32 else low
  }

  /** The remainder of the source's `%`, which takes the sign of the dividend. */
  function Remainder(a: int, b: int): int
    requires b > 0
  {
    if a >= 0 then a % b else -((-a) % b)
  }

  function NextState(state: nat): nat { ToUint32(Imul(state, MULTIPLIER) + INCREMENT) }

  lemma ModShift(x: int, k: int)
    ensures (x + k * TWO32) % TWO32 == x % TWO32
  {
  }

  /** The wrap-around of both operations together is the linear congruential generator modulo 2^32. */
  lemma NextStateIsLinearCongruential(state: nat)
    ensures NextState(state) == (state * MULTIPLIER + INCREMENT) % TWO32
  {
    var p := state * MULTIPLIER;
    var low := p % TWO32;
    assert p == low + (p / TWO32) * TWO32;
    ModShift(low + INCREMENT, p / TWO32);
    ModShift(low + INCREMENT, -1);
  }

  // ---- shuffling ----

  function Identity(n: nat): seq<nat> { seq(n, i requires 0 <= i < n => i) }

  function Swap(s: seq<nat>, i: nat, j: nat): seq<nat>
    requires i < |s| && j < |s|
  {
    s[i := s[j]][j := s[i]]
  }

  /** The shuffled order and the generator state left behind. */
  datatype Shuffled = Shuffled(order: seq<nat>, state: nat)

  function ShuffleFrom(order: seq<nat>, state: nat, index: nat): Shuffled
    requires index < |order| || index == 0
    decreases index
  {
    if index == 0 then Shuffled(order, state)
    else
      var next := NextState(state);
      ShuffleFrom(Swap(order, index, next % (index + 1)), next, index - 1)
  }

  function Shuffle(n: nat, state: nat): Shuffled {
    ShuffleFrom(Identity(n), state, if n == 0 then 0 else n - 1)
  }

  function Cycles(n: nat, state: nat, count: nat): seq<nat>
    decreases count
  {
    if count == 0 then []
    else Shuffle(n, state).order + Cycles(n, Shuffle(n, state).state, count - 1)
  }

  lemma SwapPermutes(s: seq<nat>, i: nat, j: nat)
    requires i < |s| && j < |s|
    ensures multiset(Swap(s, i, j)) == multiset(s)
  {
  }

  lemma {:induction false} ShufflePermutes(order: seq<nat>, state: nat, index: nat)
    requires index < |order| || index == 0
    ensures multiset(ShuffleFrom(order, state, index).order) == multiset(order)
    ensures |ShuffleFrom(order, state, index).order| == |order|
    decreases index
  {
    if index > 0 {
      var next := NextState(state);
      SwapPermutes(order, index, next % (index + 1));
      ShufflePermutes(Swap(order, index, next % (index + 1)), next, index - 1);
    }
  }

  /** Drawing without replacement, the last remaining step filling the gap; the first one drawn goes last. */
  function Draw(remaining: seq<nat>, state: nat): seq<nat>
    decreases |remaining|
  {
    if |remaining| <= 1 then remaining
    else
      var next := NextState(state);
      var last := |remaining| - 1;
      var target := next % |remaining|;
      Draw(remaining[target := remaining[last]][..last], next) + [remaining[target]]
  }

  /** Shuffling in place draws without replacement: what has been placed is never touched again. */
  lemma {:induction false} ShuffleDraws(order: seq<nat>, state: nat, index: nat)
    requires index < |order|
    ensures ShuffleFrom(order, state, index).order == Draw(order[..index + 1], state) + order[index + 1..]
    decreases index
  {
    if index > 0 {
      var next := NextState(state);
      var target := next % (index + 1);
      ShuffleDraws(Swap(order, index, target), next, index - 1);
      SwapSplits(order, index, target);
      DrawOne(order[..index + 1], state);
    } else {
      assert order == order[..1] + order[1..];
    }
  }

  lemma SwapSplits(order: seq<nat>, index: nat, target: nat)
    requires target <= index < |order|
    ensures Swap(order, index, target)[..index] == order[..index + 1][target := order[index]][..index]
    ensures Swap(order, index, target)[index..] == [order[target]] + order[index + 1..]
  {
  }

  lemma DrawOne(remaining: seq<nat>, state: nat)
    requires |remaining| > 1
    ensures var last, target := |remaining| - 1, NextState(state) % |remaining|;
            Draw(remaining, state)
              == Draw(remaining[target := remaining[last]][..last], NextState(state)) + [remaining[target]]
  {
  }

  predicate IsPermutation(s: seq<nat>, n: nat) {
    |s| == n && forall v :: 0 <= v < n ==> multiset(s)[v] == 1
  }

  lemma {:induction false} IdentityIsPermutation(n: nat)
    ensures IsPermutation(Identity(n), n)
    decreases n
  {
    if n > 0 {
      IdentityIsPermutation(n - 1);
      assert Identity(n) == Identity(n - 1) + [n - 1];
      assert n - 1 !in Identity(n - 1);
    }
  }

  lemma ShuffleIsPermutation(n: nat, state: nat)
    ensures IsPermutation(Shuffle(n, state).order, n)
  {
    IdentityIsPermutation(n);
    ShufflePermutes(Identity(n), state, if n == 0 then 0 else n - 1);
  }

  /** Cycle k of an order made of blocks of n. */
  function Block(s: seq<nat>, n: nat, k: nat): seq<nat>
    requires k * n <= (k + 1) * n <= |s|
  {
    s[k * n..(k + 1) * n]
  }

  lemma BlockFits(n: nat, k: nat, count: nat)
    requires k < count
    ensures k * n <= (k + 1) * n <= count * n
  {
    Distribute(k, 1, n);
    Distribute(k + 1, count - k - 1, n);
  }

  lemma Distribute(a: nat, b: nat, n: nat)
    ensures (a + b) * n == a * n + b * n && b * n >= 0
  {
  }

  lemma {:induction false} CyclesLength(n: nat, state: nat, count: nat)
    ensures |Cycles(n, state, count)| == count * n
    decreases count
  {
    if count > 0 {
      ShuffleIsPermutation(n, state);
      CyclesLength(n, Shuffle(n, state).state, count - 1);
      assert count * n == n + (count - 1) * n;
    }
  }

  /** Every cycle plays every step exactly once. */
  lemma {:induction false} EveryCycleIsAPermutation(n: nat, state: nat, count: nat, k: nat)
    requires k < count
    ensures |Cycles(n, state, count)| == count * n && k * n <= (k + 1) * n <= count * n
    ensures IsPermutation(Block(Cycles(n, state, count), n, k), n)
    decreases count
  {
    CyclesLength(n, state, count);
    BlockFits(n, k, count);
    var first := Shuffle(n, state);
    ShuffleIsPermutation(n, state);
    if k == 0 {
      assert Block(Cycles(n, state, count), n, 0) == first.order;
    } else {
      EveryCycleIsAPermutation(n, first.state, count - 1, k - 1);
      LaterBlock(first.order, Cycles(n, first.state, count - 1), n, k);
    }
  }

  lemma LaterBlock(first: seq<nat>, rest: seq<nat>, n: nat, k: nat)
    requires |first| == n && k > 0 && (k - 1) * n <= k * n <= |rest|
    ensures k * n <= (k + 1) * n <= |first + rest|
    ensures Block(first + rest, n, k) == Block(rest, n, k - 1)
  {
    Distribute(k - 1, 1, n);
    Distribute(k, 1, n);
  }

  /** The in-place shuffle. */
  method ShuffleInPlace(order: array<nat>, seed: nat) returns (state: nat)
    modifies order
    ensures Shuffled(order[..], state)
            == ShuffleFrom(old(order[..]), seed, if order.Length == 0 then 0 else order.Length - 1)
  {
    state := seed;
    if order.Length == 0 { return; }
    var index := order.Length - 1;
    while index > 0
      invariant 0 <= index < order.Length
      invariant ShuffleFrom(order[..], state, index) == ShuffleFrom(old(order[..]), seed, order.Length - 1)
    {
      state := NextState(state);
      var target := state % (index + 1);
      ghost var before := order[..];
      order[index], order[target] := order[target], order[index];
      assert order[..] == Swap(before, index, target);
      index := index - 1;
    }
  }

  const MAX_SEED: int := 0xffff_ffff

  function RandomOrder(n: nat, seed: int, cycleCount: int): seq<nat> {
    Cycles(n, Clamp(seed, 0, MAX_SEED), Clamp(cycleCount, 1, 255))
  }

  method OneCycle(n: nat, seed: nat) returns (played: seq<nat>, state: nat)
    ensures Shuffled(played, state) == Shuffle(n, seed)
  {
    var order := new nat[n](i => i);
    assert order[..] == Identity(n);
    state := ShuffleInPlace(order, seed);
    played := order[..];
  }

  /** What has been played and what the generator still gives make up the whole order. */
  predicate Playing(played: seq<nat>, n: nat, state: nat, left: nat, whole: seq<nat>) {
    played + Cycles(n, state, left) == whole
  }

  /** seededStepOrder. */
  method SeededStepOrder(stepCount: nat, seed: int, cycleCount: int) returns (sequence: seq<nat>)
    ensures sequence == RandomOrder(stepCount, seed, cycleCount)
  {
    sequence := [];
    var state: nat := Clamp(seed, 0, MAX_SEED);
    var left: nat := Clamp(cycleCount, 1, 255);
    ghost var whole := RandomOrder(stepCount, seed, cycleCount);
    while left > 0
      invariant Playing(sequence, stepCount, state, left, whole)
    {
      var order, next := OneCycle(stepCount, state);
      NextCycle(stepCount, state, left, sequence, order, next);
      sequence, state, left := sequence + order, next, left - 1;
    }
    assert Cycles(stepCount, state, 0) == [];
  }

  lemma NextCycle(n: nat, state: nat, count: nat, played: seq<nat>, order: seq<nat>, next: nat)
    requires count > 0 && Shuffled(order, next) == Shuffle(n, state)
    ensures (played + order) + Cycles(n, next, count - 1) == played + Cycles(n, state, count)
  {
  }

  // ---- the orders ----

  function Reversed(s: seq<nat>): seq<nat> { seq(|s|, i requires 0 <= i < |s| => s[|s| - 1 - i]) }

  function BounceOrder(n: nat): seq<nat> {
    if n <= 1 then Identity(n) else Identity(n) + Reversed(Identity(n)[1..n - 1])
  }

  function PreviewOrder(stepCount: int, direction: Direction, seed: int, cycleCount: int): seq<nat> {
    var n := if stepCount < 0 then 0 else stepCount;
    match direction
    case Forward => Identity(n)
    case Reverse => Reversed(Identity(n))
    case Bounce => BounceOrder(n)
    case Random => RandomOrder(n, seed, cycleCount)
    case BuildUpDown => Identity(n) + Identity(n)
  }

  /** A bounce climbs to the last step and comes back without repeating either end. */
  lemma BounceShape(n: nat)
    requires n >= 2
    ensures |BounceOrder(n)| == 2 * n - 2
    ensures forall i :: 0 <= i < 2 * n - 2 ==> BounceOrder(n)[i] == if i < n then i else 2 * n - 2 - i
  {
  }

  /** Played in a circle, a bounce always moves to a neighbouring step. */
  lemma BounceMovesByOne(n: nat, i: nat)
    requires n >= 2 && i < |BounceOrder(n)|
    ensures var b := BounceOrder(n); var next := b[if i + 1 == |b| then 0 else i + 1];
            next == b[i] + 1 || next == b[i] - 1
  {
    BounceShape(n);
  }

  predicate Covers(order: seq<nat>, n: nat) {
    (forall x :: x in order ==> x < n) && (forall v :: 0 <= v < n ==> v in order)
  }

  lemma PermutationCovers(s: seq<nat>, n: nat)
    requires multiset(s) == multiset(Identity(n))
    ensures Covers(s, n)
  {
    IdentityIsPermutation(n);
    forall x | x in s ensures x < n {
      assert x in multiset(s);
      assert x in Identity(n);
    }
    forall v | 0 <= v < n ensures v in s {
      assert Identity(n)[v] in multiset(Identity(n));
      assert v in multiset(s);
    }
  }

  lemma {:induction false} CyclesCover(n: nat, state: nat, count: nat)
    requires count > 0
    ensures Covers(Cycles(n, state, count), n)
    decreases count
  {
    ShufflePermutes(Identity(n), state, if n == 0 then 0 else n - 1);
    PermutationCovers(Shuffle(n, state).order, n);
    if count > 1 {
      CyclesCover(n, Shuffle(n, state).state, count - 1);
    }
  }

  lemma ReversedCovers(n: nat)
    ensures Covers(Reversed(Identity(n)), n)
  {
    forall v | 0 <= v < n ensures v in Reversed(Identity(n)) {
      assert Reversed(Identity(n))[n - 1 - v] == v;
    }
  }

  lemma IdentityCovers(n: nat)
    ensures Covers(Identity(n), n)
  {
    forall v | 0 <= v < n ensures v in Identity(n) {
      assert Identity(n)[v] == v;
    }
  }

  /** Whatever the direction, an order plays every step and only steps. */
  lemma EveryOrderCoversTheSteps(stepCount: int, direction: Direction, seed: int, cycleCount: int)
    ensures Covers(PreviewOrder(stepCount, direction, seed, cycleCount), if stepCount < 0 then 0 else stepCount)
  {
    var n := if stepCount < 0 then 0 else stepCount;
    IdentityCovers(n);
    match direction
    case Forward =>
    case Reverse => ReversedCovers(n);
    case Bounce =>
    case Random => CyclesCover(n, Clamp(seed, 0, MAX_SEED), Clamp(cycleCount, 1, 255));
    case BuildUpDown =>
  }

  /** Position i of an order of n steps, direction by direction. */
  lemma OrderOfEachDirection(n: nat, direction: Direction, seed: int, cycleCount: int)
    ensures var order := PreviewOrder(n, direction, seed, cycleCount);
      match direction
      case Forward => |order| == n && forall i :: 0 <= i < n ==> order[i] == i
      case Reverse => |order| == n && forall i :: 0 <= i < n ==> order[i] == n - 1 - i
      case Bounce =>
        && |order| == (if n <= 1 then n else 2 * n - 2)
        && forall i :: 0 <= i < |order| ==> order[i] == if i < n then i else 2 * n - 2 - i
      case BuildUpDown =>
        |order| == 2 * n && forall i :: 0 <= i < 2 * n ==> order[i] == if i < n then i else i - n
      case Random =>
        var cycles := if cycleCount < 1 then 1 else if cycleCount > 255 then 255 else cycleCount;
        |order| == cycles * n && forall k :: 0 <= k < cycles ==> DrawnCycle(order, n, SeedOf(seed), k)
  {
    if direction.Random? {
      var cycles := Clamp(cycleCount, 1, 255);
      CyclesLength(n, SeedOf(seed), cycles);
      forall k | 0 <= k < cycles ensures DrawnCycle(PreviewOrder(n, direction, seed, cycleCount), n, SeedOf(seed), k) {
        EveryCycleIsDrawn(n, SeedOf(seed), cycles, k);
      }
    }
  }

  /** The seed, cut to 32 bits. */
  function SeedOf(seed: int): nat { if seed < 0 then 0 else if seed > 4294967295 then 4294967295 else seed }

  /** The linear congruential generator, k steps on. */
  function Generate(state: nat, k: nat): nat {
    if k == 0 then state else (Generate(state, k - 1) * 1664525 + 1013904223) % 4294967296
  }

  /** How often the generator has run before cycle k: once for each step but one of every cycle before. */
  function RunsBefore(n: nat, k: nat): nat { if n == 0 then 0 else k * (n - 1) }

  /** Cycle k is drawn without replacement from the steps, where the cycles before it left the generator. */
  predicate DrawnCycle(order: seq<nat>, n: nat, seed: nat, k: nat) {
    && 0 <= k * n <= (k + 1) * n <= |order|
    && order[k * n..(k + 1) * n] == Draw(Identity(n), Generate(seed, RunsBefore(n, k)))
  }

  lemma {:induction false} ShuffleGenerates(order: seq<nat>, state: nat, index: nat)
    requires index < |order| || index == 0
    ensures ShuffleFrom(order, state, index).state == Generate(state, index)
    decreases index
  {
    if index > 0 {
      var next := NextState(state);
      NextStateIsLinearCongruential(state);
      ShuffleGenerates(Swap(order, index, next % (index + 1)), next, index - 1);
      GenerateFirst(state, index);
    }
  }

  lemma {:induction false} GenerateFirst(state: nat, k: nat)
    requires k > 0
    ensures Generate(state, k) == Generate((state * 1664525 + 1013904223) % 4294967296, k - 1)
  {
    if k > 1 {
      GenerateFirst(state, k - 1);
    } else {
      assert Generate(state, 0) == state;
    }
  }

  lemma {:induction false} GenerateOn(state: nat, j: nat, k: nat)
    ensures Generate(Generate(state, j), k) == Generate(state, j + k)
    decreases k
  {
    if k > 0 { GenerateOn(state, j, k - 1); }
  }

  lemma ShuffleIsDrawn(n: nat, state: nat)
    ensures Shuffle(n, state).order == Draw(Identity(n), state)
    ensures Shuffle(n, state).state == Generate(state, RunsBefore(n, 1))
  {
    if n > 0 { StepsAreDrawn(n, state); }
  }

  lemma StepsAreDrawn(n: nat, state: nat)
    requires n > 0
    ensures var shuffled := ShuffleFrom(Identity(n), state, n - 1);
            shuffled.order == Draw(Identity(n), state) && shuffled.state == Generate(state, n - 1)
  {
    ShuffleGenerates(Identity(n), state, n - 1);
    ShuffleDraws(Identity(n), state, n - 1);
    assert Identity(n)[..n] == Identity(n) && Identity(n)[n..] == [];
  }

  lemma {:induction false} EveryCycleIsDrawn(n: nat, state: nat, count: nat, k: nat)
    requires k < count
    ensures DrawnCycle(Cycles(n, state, count), n, state, k)
    decreases count
  {
    ShuffleIsDrawn(n, state);
    ShuffleIsPermutation(n, state);
    var first := Shuffle(n, state);
    var rest := Cycles(n, first.state, count - 1);
    assert Cycles(n, state, count) == first.order + rest;
    if k == 0 {
      FirstDrawn(first.order, rest, n, state);
    } else {
      EveryCycleIsDrawn(n, first.state, count - 1, k - 1);
      LaterDrawn(first.order, rest, n, state, first.state, k);
    }
  }

  lemma FirstDrawn(first: seq<nat>, rest: seq<nat>, n: nat, state: nat)
    requires |first| == n && first == Draw(Identity(n), state)
    ensures DrawnCycle(first + rest, n, state, 0)
  {
    assert (first + rest)[0 * n..1 * n] == first;
    assert RunsBefore(n, 0) == 0;
  }

  lemma LaterDrawn(first: seq<nat>, rest: seq<nat>, n: nat, state: nat, next: nat, k: nat)
    requires k > 0 && |first| == n && next == Generate(state, RunsBefore(n, 1)) && DrawnCycle(rest, n, next, k - 1)
    ensures DrawnCycle(first + rest, n, state, k)
  {
    LaterBlock(first, rest, n, k);
    GenerateOn(state, RunsBefore(n, 1), RunsBefore(n, k - 1));
    LaterRuns(n, k);
  }

  lemma LaterRuns(n: nat, k: nat)
    requires k > 0
    ensures RunsBefore(n, 1) + RunsBefore(n, k - 1) == RunsBefore(n, k)
  {
    if n > 0 { Distribute(1, k - 1, n - 1); }
  }

  function ClampUnit(x: real): real { if x < 0.0 then 0.0 else if x > 1.0 then 1.0 else x }

  function OrderPosition(length: nat, phase: real): (r: nat)
    requires length > 0
  {
    Wrapped(Span(ClampUnit(phase), length), length)
  }

  function Span(u: real, length: nat): real { u * length as real }

  function Wrapped(x: real, length: nat): (r: nat)
    requires length > 0
  {
    x.Floor % length
  }

  function PreviewIndex(stepCount: int, direction: Direction, seed: int, phase: real): Option<nat> {
    var order := PreviewOrder(stepCount, direction, seed, 1);
    if order == [] then None else Some(order[OrderPosition(|order|, phase)])
  }

  /** A preview names an existing step whenever there is one. */
  lemma PreviewIndexIsAStep(stepCount: int, direction: Direction, seed: int, phase: real)
    ensures PreviewIndex(stepCount, direction, seed, phase).Some? <==> stepCount > 0
    ensures PreviewIndex(stepCount, direction, seed, phase).Some? ==>
      PreviewIndex(stepCount, direction, seed, phase).value < stepCount
  {
    var order := PreviewOrder(stepCount, direction, seed, 1);
    EveryOrderCoversTheSteps(stepCount, direction, seed, 1);
    CoveredSteps(order, if stepCount < 0 then 0 else stepCount);
  }

  lemma CoveredSteps(order: seq<nat>, n: nat)
    requires Covers(order, n)
    ensures order == [] <==> n == 0
    ensures forall i :: 0 <= i < |order| ==> order[i] < n
  {
    MemberOrEmpty(order);
    forall i | 0 <= i < |order| ensures order[i] < n {
      assert order[i] in order;
    }
    assert n > 0 ==> 0 in order;
  }

  /** The phase, clamped to [0, 1], picks the position whose share x of the order it falls into. */
  lemma PhasePicksItsShare(length: nat, phase: real, x: real)
    requires length > 0 && 0.0 <= phase < 1.0 && x == Span(phase, length)
    ensures InShare(OrderPosition(length, phase), x, length)
  {
    Shares(length, phase);
    FloorWithin(length, x);
    InnerPosition(length, phase);
  }

  lemma InnerPosition(length: nat, phase: real)
    requires length > 0 && 0.0 <= phase <= 1.0
    ensures OrderPosition(length, phase) == Wrapped(Span(phase, length), length)
  {
    assert ClampUnit(phase) == phase;
  }

  predicate InShare(k: nat, x: real, length: nat) {
    k < length && k as real <= x < (k + 1) as real
  }

  /** A full phase wraps to the first position. */
  lemma FullPhaseWraps(length: nat, phase: real)
    requires length > 0 && phase >= 1.0
    ensures OrderPosition(length, phase) == 0
  {
    assert ClampUnit(phase) == 1.0;
    var x := length as real;
    assert 1.0 * x == x && x.Floor == length;
    EuclideanUnique(length, 1, 0, length);
    assert Wrapped(x, length) == 0;
  }

  lemma FloorWithin(length: nat, x: real)
    requires 0.0 <= x < length as real
    ensures InShare(Wrapped(x, length), x, length)
  {
    EuclideanUnique(x.Floor, 0, x.Floor, length);
  }

  lemma Shares(length: nat, phase: real)
    requires length > 0 && 0.0 <= phase < 1.0
    ensures 0.0 <= Span(phase, length) < length as real
  {
    var n, u := length as real, 1.0 - phase;
    ProductIsPositive(u, n);
    ProductIsNotNegative(phase, n);
    Complement(phase, n);
  }

  lemma ProductIsPositive(a: real, b: real)
    requires a > 0.0 && b > 0.0
    ensures a * b > 0.0
  {
  }

  lemma ProductIsNotNegative(a: real, b: real)
    requires a >= 0.0 && b >= 0.0
    ensures a * b >= 0.0
  {
  }

  lemma Complement(a: real, n: real)
    ensures a * n == n - (1.0 - a) * n
  {
  }

  // ---- the window of steps that are on ----

  /** The step `offset` positions before `position`. */
  function StepBack(order: seq<nat>, position: nat, offset: nat): nat
    requires offset < |order|
  {
    order[(position - offset + |order|) % |order|]
  }

  /** The different steps of the last `count` positions, newest first. */
  function Recent(order: seq<nat>, position: nat, count: nat): seq<nat>
    requires count <= |order|
    decreases count
  {
    if count == 0 then []
    else
      var before := Recent(order, position, count - 1);
      var x := StepBack(order, position, count - 1);
      if x in before then before else before + [x]
  }

  predicate NoRepeats(s: seq<nat>) {
    forall i, j :: 0 <= i < j < |s| ==> s[i] != s[j]
  }

  predicate SeenWithin(order: seq<nat>, position: nat, count: nat, x: nat)
    requires count <= |order|
  {
    exists o :: 0 <= o < count && StepBack(order, position, o) == x
  }

  /** Recent lists exactly the steps read within `count` positions, each once. */
  lemma {:induction false} RecentIsWhatWasSeen(order: seq<nat>, position: nat, count: nat)
    requires count <= |order|
    ensures NoRepeats(Recent(order, position, count))
    ensures forall x :: x in Recent(order, position, count) <==> SeenWithin(order, position, count, x)
    decreases count
  {
    if count > 0 {
      RecentIsWhatWasSeen(order, position, count - 1);
      var last := StepBack(order, position, count - 1);
      forall x
        ensures SeenWithin(order, position, count, x) <==> SeenWithin(order, position, count - 1, x) || x == last
      {
        if SeenWithin(order, position, count - 1, x) {
          var o :| 0 <= o < count - 1 && StepBack(order, position, o) == x;
          assert StepBack(order, position, o) == x;
        }
        assert x == last ==> SeenWithin(order, position, count, x);
      }
    }
  }

  lemma WrapsTo(position: nat, n: nat, k: nat) returns (o: nat)
    requires k < n
    ensures o < n && (position - o + n) % n == k
  {
    o := (position - k + n) % n;
    var q := (position - k + n) / n;
    assert position - k + n == q * n + o;
    assert position - o + n == k + q * n;
    MultipleVanishes(k, q, n);
  }

  lemma {:induction false} MultipleVanishes(k: nat, q: nat, n: nat)
    requires k < n
    ensures (k + q * n) % n == k
  {
    if q > 0 {
      MultipleVanishes(k, q - 1, n);
      var x := k + (q - 1) * n;
      assert k + q * n == x + n;
      AddOne(x, n);
    }
  }

  lemma AddOne(x: nat, n: nat)
    requires n > 0
    ensures (x + n) % n == x % n
  {
    var q := x / n;
    assert x == q * n + x % n;
    assert x + n == (q + 1) * n + x % n;
    Unique(x + n, q + 1, x % n, n);
  }

  lemma Unique(x: nat, q: nat, r: nat, n: nat)
    requires n > 0 && x == q * n + r && r < n
    ensures x % n == r
  {
    EuclideanUnique(x, q, r, n);
  }

  lemma EuclideanUnique(x: int, q: int, r: int, n: int)
    requires n > 0 && x == q * n + r && 0 <= r < n
    ensures x % n == r
  {
    assert x == (x / n) * n + x % n;
    Multiples(x / n - q, n);
  }

  lemma Multiples(d: int, n: int)
    requires n > 0
    ensures d >= 1 ==> d * n >= n
    ensures d <= -1 ==> d * n <= -n
  {
    if d >= 1 { assert (d - 1) * n >= 0; }
    if d <= -1 { assert (-1 - d) * n >= 0; }
  }

  /** Going once around reads every step of the order. */
  lemma RecentIsEverything(order: seq<nat>, position: nat)
    ensures forall x :: x in Recent(order, position, |order|) <==> x in order
  {
    RecentIsWhatWasSeen(order, position, |order|);
    forall x | x in order ensures SeenWithin(order, position, |order|, x) {
      var k :| 0 <= k < |order| && order[k] == x;
      var o := WrapsTo(position, |order|, k);
      assert StepBack(order, position, o) == x;
    }
  }

  function Steps(order: seq<nat>): set<nat> { set x | x in order }

  lemma {:induction false} NoRepeatsSize(s: seq<nat>)
    requires NoRepeats(s)
    ensures |Steps(s)| == |s|
    decreases |s|
  {
    if s != [] {
      var front := s[..|s| - 1];
      NoRepeatsSize(front);
      assert Steps(s) == Steps(front) + {s[|s| - 1]};
    }
  }

  lemma RecentSize(order: seq<nat>, position: nat)
    ensures |Recent(order, position, |order|)| == |Steps(order)|
  {
    RecentIsWhatWasSeen(order, position, |order|);
    RecentIsEverything(order, position);
    NoRepeatsSize(Recent(order, position, |order|));
    assert Steps(Recent(order, position, |order|)) == Steps(order);
  }

  function Wanted(order: seq<nat>, requested: int): nat {
    var most := |Steps(order)|;
    if requested < 0 then 0 else if requested < most then requested else most
  }

  /** The steps read within the last `count` positions are on, and no others. */
  ghost predicate IsWindow(order: seq<nat>, position: nat, count: nat, active: seq<nat>) {
    && count <= |order| && NoRepeats(active)
    && (forall x :: x in active <==> SeenWithin(order, position, count, x))
  }

  /**
   The walk back from a position of the order: exactly the requested number of steps, or all there
   are, and they are the ones most recently played.
   */
  method ActiveWindow(order: seq<nat>, position: nat, requested: int) returns (active: seq<nat>)
    ensures |active| == Wanted(order, requested)
    ensures exists count :: IsWindow(order, position, count, active)
    ensures NewestFirst(order, position, active)
    ensures forall x :: x in active ==> x in order
  {
    active := [];
    var target := Wanted(order, requested);
    var offset := 0;
    RecentSize(order, position);
    while offset < |order| && |active| < target
      invariant 0 <= offset <= |order|
      invariant active == Recent(order, position, offset) && |active| <= target
    {
      var step := order[(position - offset + |order|) % |order|];
      if step !in active { active := active + [step]; }
      offset := offset + 1;
    }
    RecentIsWhatWasSeen(order, position, offset);
    RecentIsNewestFirst(order, position, offset);
    assert IsWindow(order, position, offset, active);
    RecentIsEverything(order, position);
    RecentGrows(order, position, offset);
  }

  /** Before the step at j is met going back, the one at i < j is. */
  ghost predicate NewestFirst(order: seq<nat>, position: nat, active: seq<nat>) {
    forall i, j :: 0 <= i < j < |active| ==> SeenBefore(order, position, active[i], active[j])
  }

  ghost predicate SeenBefore(order: seq<nat>, position: nat, x: nat, y: nat) {
    exists count ::
      0 <= count <= |order| && SeenWithin(order, position, count, x) && !SeenWithin(order, position, count, y)
  }

  lemma {:induction false} RecentIsNewestFirst(order: seq<nat>, position: nat, count: nat)
    requires count <= |order|
    ensures NewestFirst(order, position, Recent(order, position, count))
    decreases count
  {
    if count > 0 {
      var before, x := Recent(order, position, count - 1), StepBack(order, position, count - 1);
      RecentIsNewestFirst(order, position, count - 1);
      RecentIsWhatWasSeen(order, position, count - 1);
      if x !in before {
        forall i | 0 <= i < |before| ensures SeenBefore(order, position, before[i], x) {
          assert before[i] in before;
          assert SeenWithin(order, position, count - 1, before[i]) && !SeenWithin(order, position, count - 1, x);
        }
      }
    }
  }

  lemma {:induction false} RecentGrows(order: seq<nat>, position: nat, count: nat)
    requires count <= |order|
    ensures forall x :: x in Recent(order, position, count) ==> x in Recent(order, position, |order|)
  {
    RecentIsWhatWasSeen(order, position, count);
    RecentIsWhatWasSeen(order, position, |order|);
    forall x | SeenWithin(order, position, count, x) ensures SeenWithin(order, position, |order|, x) {
      var o :| 0 <= o < count && StepBack(order, position, o) == x;
      assert StepBack(order, position, o) == x;
    }
  }

  /** The windows of one position are nested, so their size determines them. */
  lemma WindowIsUnique(order: seq<nat>, position: nat, c: nat, d: nat, a: seq<nat>, b: seq<nat>)
    requires IsWindow(order, position, c, a) && IsWindow(order, position, d, b) && |a| == |b|
    ensures Steps(a) == Steps(b)
  {
    if c <= d { Nested(order, position, c, d, a, b); } else { Nested(order, position, d, c, b, a); }
  }

  lemma Nested(order: seq<nat>, position: nat, c: nat, d: nat, a: seq<nat>, b: seq<nat>)
    requires IsWindow(order, position, c, a) && IsWindow(order, position, d, b) && c <= d && |a| == |b|
    ensures Steps(a) == Steps(b)
  {
    forall x | x in a ensures x in b {
      var o :| 0 <= o < c && StepBack(order, position, o) == x;
      assert StepBack(order, position, o) == x;
      assert SeenWithin(order, position, d, x);
    }
    NoRepeatsSize(a);
    NoRepeatsSize(b);
    assert Steps(a) <= Steps(b);
    SubsetOfSameSize(Steps(a), Steps(b));
  }

  lemma SubsetOfSameSize(a: set<nat>, b: set<nat>)
    requires a <= b && |a| == |b|
    ensures a == b
  {
    assert |b - a| == |b| - |a|;
    assert b == a + (b - a);
  }

  // ---- build up, clear down ----

  /** The steps that are on at a position of an order made of the steps twice over. */
  function BuildUpActive(order: seq<nat>, activeOrderPosition: int): seq<nat> {
    if |order| == 0 || |order| % 2 != 0 then []
    else
      var stepCount := |order| / 2;
      RemainderWraps(activeOrderPosition, |order|);
      var position := Remainder(Remainder(activeOrderPosition, |order|) + |order|, |order|);
      if position < stepCount then order[..position + 1] else order[position - stepCount + 1..stepCount]
  }

  /** Taking the remainder twice brings any position, however negative, into the order. */
  lemma RemainderWraps(a: int, n: int)
    requires n > 0
    ensures Remainder(Remainder(a, n) + n, n) == a % n
  {
    var r := Remainder(a, n);
    if a >= 0 {
      assert 0 <= r < n;
      EuclideanUnique(r + n, 1, r, n);
    } else {
      NegativeWraps(-a, n);
      assert r + n == n - (-a) % n;
    }
  }

  lemma NegativeWraps(m: int, n: int)
    requires n > 0 && m > 0
    ensures (n - m % n) % n == (-m) % n
  {
    var r, q := m % n, m / n;
    assert m == q * n + r;
    if r == 0 {
      EuclideanUnique(n, 1, 0, n);
      EuclideanUnique(-m, -q, 0, n);
    } else {
      EuclideanUnique(n - r, 0, n - r, n);
      EuclideanUnique(-m, -q - 1, n - r, n);
    }
  }

  function BuildUpSteps(n: nat, q: int): set<nat> {
    if q < n then set x | x in Identity(n) && x <= q else set x | x in Identity(n) && q - n + 1 <= x
  }

  predicate Consecutive(s: seq<nat>) { forall i :: 0 <= i < |s| ==> s[i] == s[0] + i }

  /** At position q of the 2n, the steps up to q are on while they build up, and those after q - n while they clear. */
  lemma BuildUpIs(n: nat, p: int)
    requires n > 0
    ensures 0 <= p % (2 * n) < 2 * n
    ensures Steps(BuildUpActive(Identity(n) + Identity(n), p)) == BuildUpSteps(n, p % (2 * n))
    ensures NoRepeats(BuildUpActive(Identity(n) + Identity(n), p))
    ensures Consecutive(BuildUpActive(Identity(n) + Identity(n), p))
  {
    var order := Identity(n) + Identity(n);
    RemainderWraps(p, 2 * n);
    var q := p % (2 * n);
    var active := BuildUpActive(order, p);
    if q < n {
      assert active == order[..q + 1];
      forall x | 0 <= x <= q ensures x in active { assert active[x] == x; }
    } else {
      assert active == order[q - n + 1..n];
      forall x | q - n + 1 <= x < n ensures x in active { assert active[x - (q - n + 1)] == x; }
    }
  }

  lemma Successor(p: int, n: int)
    requires n > 0
    ensures (p + 1) % n == if p % n == n - 1 then 0 else p % n + 1
  {
    var q := p / n;
    assert p == q * n + p % n;
    if p % n == n - 1 {
      assert p + 1 == (q + 1) * n + 0;
      EuclideanUnique(p + 1, q + 1, 0, n);
    } else {
      EuclideanUnique(p + 1, q, p % n + 1, n);
    }
  }

  /** The one step by which two sets differ. */
  predicate OneMore(small: set<nat>, large: set<nat>, x: nat) {
    x !in small && large == small + {x}
  }

  /** Moving on by one position, at any position and around the end, turns exactly one step on or off. */
  lemma BuildUpChangesOneStep(n: nat, p: int)
    requires n > 0
    ensures var order := Identity(n) + Identity(n);
            var now, next := Steps(BuildUpActive(order, p)), Steps(BuildUpActive(order, p + 1));
            exists x: nat :: x < n && (OneMore(now, next, x) || OneMore(next, now, x))
  {
    var order := Identity(n) + Identity(n);
    var q := p % (2 * n);
    BuildUpIs(n, p);
    BuildUpIs(n, p + 1);
    Successor(p, 2 * n);
    StepsChange(n, q, (p + 1) % (2 * n));
  }

  lemma StepsChange(n: nat, q: nat, r: nat)
    requires 0 < n && q < 2 * n && r == if q == 2 * n - 1 then 0 else q + 1
    ensures exists x: nat :: x < n && (OneMore(BuildUpSteps(n, q), BuildUpSteps(n, r), x)
                                       || OneMore(BuildUpSteps(n, r), BuildUpSteps(n, q), x))
  {
    IdentityCovers(n);
    if q == 2 * n - 1 {
      assert OneMore(BuildUpSteps(n, q), BuildUpSteps(n, r), 0);
    } else if q < n - 1 {
      assert OneMore(BuildUpSteps(n, q), BuildUpSteps(n, r), q + 1);
    } else {
      assert OneMore(BuildUpSteps(n, r), BuildUpSteps(n, q), q - n + 1);
    }
  }

}
