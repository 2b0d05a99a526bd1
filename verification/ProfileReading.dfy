/**
 How a custom profile text is read, app/src/customFixtureProfile.ts: what each piece says, by its shape, and what
 becomes of it, by what the pieces before it were given.
 */
module ProfileReading {
  import opened Prelude
  import opened FixtureProfile

  // ---- what a piece says ----

  /** A name, and what is said of its start and its resolution. */
  datatype Shape = Shape(name: string, start: Option<string>, resolution: string)

  /** After the last `@`: `start:resolution`, a start in digits, or a resolution. */
  ghost predicate SaysAfterAt(rest: string, start: Option<string>, resolution: string) {
    || (exists s, r :: rest == s + [':'] + r && ':' !in s && start == Some(Trim(s)) && resolution == Trim(r))
    || (':' !in rest && rest != "" && AllDigits(rest) && start == Some(rest) && resolution == "")
    || (':' !in rest && !(rest != "" && AllDigits(rest)) && start.None? && resolution == rest)
  }

  /** `name@...` at the last `@`, else `name:resolution` at the last `:`, else a name alone. */
  ghost predicate Says(text: string, said: Shape) {
    || (exists a, b :: text == a + ['@'] + b && '@' !in b && said.name == Trim(a)
                       && SaysAfterAt(Trim(b), said.start, said.resolution))
    || ('@' !in text && said.start.None?
        && exists a, b :: text == a + [':'] + b && ':' !in b && said.name == Trim(a) && said.resolution == Trim(b))
    || ('@' !in text && ':' !in text && said == Shape(text, None, ""))
  }

  /** Letters in lower case, without hyphens, underscores and spaces. */
  function Plain(s: string): string {
    var kept := Filter((c: char) => c != '-' && c != '_' && !IsSpace(c), s);
    seq(|kept|, i requires 0 <= i < |kept| => LowerAscii(kept[i]))
  }

  /** The start as a channel, if it is one. */
  function Channel(start: string, number: Number): Option<int> {
    var n := if AllDigits(start) then Some(Decimal(start)) else number(start);
    if n.Some? && 1 <= n.value <= 512 then n else None
  }

  /** What a shape means; the first of its faults is the one reported. */
  function Meaning(said: Shape, number: Number): Spec {
    var plain := Plain(said.resolution);
    var channel := if said.start.Some? then Channel(said.start.value, number) else None;
    Spec(said.name, if plain == "16" || plain == "16bit" then SixteenBit else EightBit, channel,
         if said.name == "" then Some(NameRequired)
         else if said.start.Some? && channel.None? then Some(InvalidStart(said.start.value, said.name))
         else if plain in ["", "8", "8bit", "16", "16bit"] then None
         else Some(InvalidResolution(said.resolution, said.name)))
  }

  lemma {:induction false} PlainIsNormal(s: string)
    ensures NormalResolution(s) == Plain(s)
    decreases |s|
  {
    if s != "" {
      PlainIsNormal(s[1..]);
      var keep := (c: char) => c != '-' && c != '_' && !IsSpace(c);
      if keep(s[0]) {
        assert Filter(keep, s) == [s[0]] + Filter(keep, s[1..]);
        assert Plain(s) == [LowerAscii(s[0])] + Plain(s[1..]);
      }
    }
  }

  lemma FinishMeans(name: string, resolution: string, start: Option<string>, number: Number)
    ensures Finish(name, resolution, if start.Some? then ParseStart(name, start.value, number) else (None, None))
            == Meaning(Shape(name, start, resolution), number)
  {
    PlainIsNormal(resolution);
  }

  lemma AfterAtMeans(name: string, rest: string, start: Option<string>, resolution: string, number: Number)
    requires SaysAfterAt(rest, start, resolution)
    ensures ParseAfterAt(name, rest, number) == Meaning(Shape(name, start, resolution), number)
  {
    FinishMeans(name, resolution, start, number);
    if ':' in rest {
      var s, r :| rest == s + [':'] + r && ':' !in s && start == Some(Trim(s)) && resolution == Trim(r);
      IndexBefore(s, ':', r);
      assert rest[..|s|] == s && rest[|s| + 1..] == r;
    } else {
      ColonMissing(rest);
    }
  }

  lemma ColonMissing(rest: string)
    requires ':' !in rest
    ensures IndexOf(rest, ':').None? && LastIndexOf(rest, ':').None?
    ensures forall s, r: string :: rest != s + [':'] + r
  {
    forall s, r: string ensures rest != s + [':'] + r {
      assert (s + [':'] + r)[|s|] == ':';
    }
  }

  /** Every piece is read as what its shape means. */
  lemma PieceMeansItsShape(value: string, said: Shape, number: Number)
    requires Says(Trim(value), said)
    ensures ParseSpec(value, number) == Meaning(said, number)
  {
    var text := Trim(value);
    if '@' in text {
      var a, b :| text == a + ['@'] + b && '@' !in b && said.name == Trim(a)
                  && SaysAfterAt(Trim(b), said.start, said.resolution);
      LastIndexAfter(a, '@', b);
      assert text[..|a|] == a && text[|a| + 1..] == b;
      AfterAtMeans(Trim(a), Trim(b), said.start, said.resolution, number);
    } else {
      WithoutAt(value, said, number);
    }
  }

  lemma WithoutAt(value: string, said: Shape, number: Number)
    requires Says(Trim(value), said) && '@' !in Trim(value)
    ensures ParseSpec(value, number) == Meaning(said, number)
  {
    var text := Trim(value);
    NoAt(text);
    FinishMeans(said.name, said.resolution, None, number);
    if ':' in text {
      var a, b :| text == a + [':'] + b && ':' !in b && said.name == Trim(a) && said.resolution == Trim(b);
      LastIndexAfter(a, ':', b);
      assert text[..|a|] == a && text[|a| + 1..] == b;
    } else {
      ColonMissing(text);
    }
  }

  lemma NoAt(text: string)
    requires '@' !in text
    ensures LastIndexOf(text, '@').None?
    ensures forall a, b: string :: text != a + ['@'] + b
  {
    forall a, b: string ensures text != a + ['@'] + b {
      assert (a + ['@'] + b)[|a|] == '@';
    }
  }

  /** Every piece has a shape. */
  lemma EveryPieceHasAShape(text: string) returns (said: Shape)
    ensures Says(text, said)
  {
    if '@' in text {
      var a, b := LastSplit(text, '@');
      var start, resolution := AfterAtHasAShape(Trim(b));
      said := Shape(Trim(a), start, resolution);
      assert text == a + ['@'] + b && '@' !in b;
    } else if ':' in text {
      var a, b := LastSplit(text, ':');
      said := Shape(Trim(a), None, Trim(b));
      assert text == a + [':'] + b && ':' !in b;
    } else {
      said := Shape(text, None, "");
    }
  }

  lemma {:induction false} LastSplit(text: string, c: char) returns (a: string, b: string)
    requires c in text
    ensures text == a + [c] + b && c !in b
    decreases |text|
  {
    var n := |text| - 1;
    if text[n] == c {
      a, b := text[..n], "";
    } else {
      a, b := LastSplit(text[..n], c);
      b := b + [text[n]];
    }
  }

  lemma {:induction false} FirstSplit(text: string, c: char) returns (a: string, b: string)
    requires c in text
    ensures text == a + [c] + b && c !in a
    decreases |text|
  {
    if text[0] == c {
      a, b := "", text[1..];
    } else {
      a, b := FirstSplit(text[1..], c);
      a := [text[0]] + a;
    }
  }

  lemma AfterAtHasAShape(rest: string) returns (start: Option<string>, resolution: string)
    ensures SaysAfterAt(rest, start, resolution)
  {
    if ':' in rest {
      var s, r := FirstSplit(rest, ':');
      start, resolution := Some(Trim(s)), Trim(r);
    } else if rest != "" && AllDigits(rest) {
      start, resolution := Some(rest), "";
    } else {
      start, resolution := None, rest;
    }
  }

  /** Trimming takes the white space off both ends, and nothing else. */
  lemma TrimTakesTheEnds(s: string) returns (left: string, right: string)
    ensures s == left + Trim(s) + right
    ensures (forall c :: c in left + right ==> IsSpace(c)) && Trimmed(Trim(s))
  {
    left := LeftEnd(s);
    right := RightEnd(TrimLeft(s));
    TrimTrims(s);
  }

  lemma {:induction false} LeftEnd(s: string) returns (left: string)
    ensures s == left + TrimLeft(s) && forall c :: c in left ==> IsSpace(c)
  {
    left := "";
    if s != "" && IsSpace(s[0]) {
      left := LeftEnd(s[1..]);
      left := [s[0]] + left;
    }
  }

  lemma {:induction false} RightEnd(s: string) returns (right: string)
    ensures s == TrimRight(s) + right && forall c :: c in right ==> IsSpace(c)
    decreases |s|
  {
    right := "";
    if s != "" && IsSpace(s[|s| - 1]) {
      right := RightEnd(s[..|s| - 1]);
      right := right + [s[|s| - 1]];
    }
  }

  // ---- what becomes of a piece ----

  predicate Taken(controls: seq<Control>, channel: int) {
    exists i :: 0 <= i < |controls| && channel in controls[i].offsets
  }

  /** The highest channel given so far, or 0. */
  ghost predicate HighestGiven(controls: seq<Control>, n: int) {
    (n == 0 || Taken(controls, n)) && forall o :: Taken(controls, o) ==> 1 <= o <= n
  }

  /** Some earlier piece without a fault in itself had the same name up to case. */
  predicate NamedBefore(chunks: seq<string>, name: string, number: Number, fold: Fold) {
    exists i :: 0 <= i < |chunks| && ParseSpec(chunks[i], number).error.None?
                && fold(ParseSpec(chunks[i], number).attribute) == fold(name)
  }

  predicate Runs(offsets: seq<int>, first: int, width: nat) {
    |offsets| == width && forall k :: 0 <= k < width ==> offsets[k] == first + k
  }

  /** The channel `o` is the lowest of the run that is taken. */
  predicate FirstTaken(controls: seq<Control>, first: int, width: nat, o: int) {
    && first <= o < first + width && Taken(controls, o)
    && forall x :: first <= x < o ==> !Taken(controls, x)
  }

  predicate AnyTaken(controls: seq<Control>, first: int, width: nat) {
    exists o :: first <= o < first + width && Taken(controls, o)
  }

  /** The piece is placed from channel `first` on, or refused for the first of the reasons that hold. */
  ghost predicate Fate(before: Preview, spec: Spec, repeated: bool, first: int, after: Preview) {
    var width := if spec.resolution.SixteenBit? then 2 else 1;
    if spec.error.Some? then Refused(before, spec.error.value, after)
    else if repeated then Refused(before, Duplicate(spec.attribute), after)
    else if first < 1 || first + width - 1 > 512 then Refused(before, ExceedsUniverse(spec.attribute), after)
    else if AnyTaken(before.controls, first, width) then
      exists o :: FirstTaken(before.controls, first, width, o)
                  && Refused(before, Overlaps(spec.attribute, o), after)
    else
      && after.errors == before.errors && |after.controls| == |before.controls| + 1
      && after.controls[..|before.controls|] == before.controls
      && var c := after.controls[|before.controls|];
         c.attribute == spec.attribute && c.resolution == spec.resolution && c.start == spec.start
         && Runs(c.offsets, first, width)
  }

  predicate Refused(before: Preview, error: Error, after: Preview) {
    after.controls == before.controls && after.errors == before.errors + [error]
  }

  /**
   Every piece of every text: faulty in itself, a name already used by any piece before it, out of the universe, on
   a channel already given, or else placed where it says, or after the highest channel given so far.
   */
  lemma PieceFate(chunks: seq<string>, chunk: string, number: Number, fold: Fold) returns (highest: int)
    ensures var before, after := PlaceAll(chunks, number, fold), PlaceAll(chunks + [chunk], number, fold);
            var spec := ParseSpec(chunk, number);
            && HighestGiven(before.controls, highest)
            && Fate(before, spec, NamedBefore(chunks, spec.attribute, number, fold),
                    if spec.start.Some? then spec.start.value else highest + 1, after)
  {
    var before := PlaceAll(chunks, number, fold);
    highest := before.footprint;
    PlacementIsSound(chunks, number, fold);
    SeenAreTheNames(chunks, ParseSpec(chunk, number).attribute, number, fold);
    PlaceAllNext(chunks, chunk, number, fold);
    FootprintIsHighest(before);
    PlaceFate(before, chunk, number, fold);
  }

  predicate SeenMatches(chunks: seq<string>, name: string, number: Number, fold: Fold) {
    fold(name) in PlaceAll(chunks, number, fold).seen <==> NamedBefore(chunks, name, number, fold)
  }

  lemma {:induction false} SeenAreTheNames(chunks: seq<string>, name: string, number: Number, fold: Fold)
    ensures SeenMatches(chunks, name, number, fold)
    decreases |chunks|
  {
    if chunks == [] {
      NoneSeen(name, number, fold);
    } else {
      var front, last := chunks[..|chunks| - 1], chunks[|chunks| - 1];
      SeenAreTheNames(front, name, number, fold);
      assert front + [last] == chunks;
      SeenNext(front, last, name, number, fold);
    }
  }

  lemma NoneSeen(name: string, number: Number, fold: Fold)
    ensures SeenMatches([], name, number, fold)
  {
  }

  lemma SeenNext(front: seq<string>, last: string, name: string, number: Number, fold: Fold)
    requires SeenMatches(front, name, number, fold)
    ensures SeenMatches(front + [last], name, number, fold)
  {
    PlaceAllNext(front, last, number, fold);
    PlaceSees(PlaceAll(front, number, fold), last, number, fold);
    NamedNext(front, last, name, number, fold);
  }

  lemma NamedNext(front: seq<string>, last: string, name: string, number: Number, fold: Fold)
    ensures NamedBefore(front + [last], name, number, fold)
            <==> NamedBefore(front, name, number, fold)
                 || (ParseSpec(last, number).error.None? && fold(ParseSpec(last, number).attribute) == fold(name))
  {
    var chunks := front + [last];
    assert chunks[|front|] == last && forall i :: 0 <= i < |front| ==> chunks[i] == front[i];
  }

  lemma PlaceSees(p: Preview, chunk: string, number: Number, fold: Fold)
    ensures var spec := ParseSpec(chunk, number);
            Place(p, chunk, number, fold).seen
            == p.seen + if spec.error.None? then {fold(spec.attribute)} else {}
  {
  }

  lemma TakenIsOccupied(p: Preview, o: int)
    requires Sound(p)
    ensures o in p.occupied <==> Taken(p.controls, o)
  {
    if Taken(p.controls, o) {
      var i :| 0 <= i < |p.controls| && o in p.controls[i].offsets;
      assert p.controls[i] in p.controls && ControlOk(p.controls[i], p.occupied);
    }
    if o in p.occupied { assert Held(p.controls, o); }
  }

  lemma FootprintIsHighest(p: Preview)
    requires Sound(p)
    ensures HighestGiven(p.controls, p.footprint)
  {
    forall o ensures o in p.occupied <==> Taken(p.controls, o) { TakenIsOccupied(p, o); }
  }

  lemma PlaceFate(p: Preview, chunk: string, number: Number, fold: Fold)
    requires Sound(p)
    ensures var spec := ParseSpec(chunk, number);
            Fate(p, spec, fold(spec.attribute) in p.seen,
                 if spec.start.Some? then spec.start.value else p.footprint + 1, Place(p, chunk, number, fold))
  {
    var spec := ParseSpec(chunk, number);
    if spec.error.None? && fold(spec.attribute) !in p.seen {
      AllocateFate(p.(seen := p.seen + {fold(spec.attribute)}), spec);
    }
  }

  lemma AllocateFate(p: Preview, spec: Spec)
    requires Sound(p) && spec.error.None?
    ensures Fate(p, spec, false, if spec.start.Some? then spec.start.value else p.footprint + 1, Allocate(p, spec))
  {
    var first := if spec.start.Some? then spec.start.value else p.footprint + 1;
    var width := Width(spec.resolution);
    OffsetsOf(first, spec.resolution);
    assert Runs(Offsets(first, width), first, width);
    forall o ensures o in p.occupied <==> Taken(p.controls, o) { TakenIsOccupied(p, o); }
    FirstOccupiedIsFirst(p, first, width);
    if InRange(Offsets(first, width)) && FirstOccupied(Offsets(first, width), p.occupied).Some? {
      assert FirstTaken(p.controls, first, width, FirstOccupied(Offsets(first, width), p.occupied).value);
    }
  }

  lemma FirstOccupiedIsFirst(p: Preview, first: int, width: nat)
    requires forall o :: o in p.occupied <==> Taken(p.controls, o)
    ensures var r := FirstOccupied(Offsets(first, width), p.occupied);
            && (r.Some? <==> AnyTaken(p.controls, first, width))
            && (r.Some? ==> FirstTaken(p.controls, first, width, r.value))
    decreases width
  {
    if width > 0 {
      FirstOccupiedIsFirst(p, first + 1, width - 1);
      assert Offsets(first, width)[1..] == Offsets(first + 1, width - 1);
      var r := FirstOccupied(Offsets(first, width), p.occupied);
      if first !in p.occupied && AnyTaken(p.controls, first, width) {
        var o :| first <= o < first + width && Taken(p.controls, o);
        assert o != first;
      }
      assert first in p.occupied ==> Taken(p.controls, first);
      if AnyTaken(p.controls, first + 1, width - 1) {
        var o :| first + 1 <= o < first + width && Taken(p.controls, o);
      }
    }
  }
}
