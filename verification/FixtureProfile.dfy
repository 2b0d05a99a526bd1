/**
 The text form of a custom fixture profile: app/src/customFixtureProfile.ts.

 Attributes are listed with commas, each `name@start:resolution`, `name:resolution`, `name@start` or
 `name`.  Two built-ins are parameters: `number`, what Number() makes of a text that is neither empty
 nor all digits (the integer it denotes, if any), and `fold`, toLowerCase on an attribute name.
 */
module FixtureProfile {
  import opened Prelude

  const CHANNELS: int := 512

  datatype Resolution = EightBit | SixteenBit

  datatype Draft = Draft(attribute: string, resolution: Resolution, start: string)

  datatype Error =
    | NameRequired
    | InvalidStart(raw: string, attribute: string)
    | InvalidResolution(raw: string, attribute: string)
    | Duplicate(attribute: string)
    | ExceedsUniverse(attribute: string)
    | Overlaps(attribute: string, channel: int)
    | FootprintExceeds(footprint: int)

  datatype Spec = Spec(attribute: string, resolution: Resolution, start: Option<int>, error: Option<Error>)

  type Number = string -> Option<int>
  type Fold = string -> string

  // ---- text built-ins ----

  /** White space and line terminators, as trim() removes them. */
  predicate IsSpace(c: char) {
    var n := c as int;
    || 9 <= n <= 13 || n == 32 || n == 0xA0 || n == 0x1680 || 0x2000 <= n <= 0x200A || n == 0x2028 || n == 0x2029
    || n == 0x202F || n == 0x205F || n == 0x3000 || n == 0xFEFF
  }

  function TrimLeft(s: string): string {
    if s != "" && IsSpace(s[0]) then TrimLeft(s[1..]) else s
  }

  function TrimRight(s: string): string {
    if s != "" && IsSpace(s[|s| - 1]) then TrimRight(s[..|s| - 1]) else s
  }

  function Trim(s: string): string { TrimRight(TrimLeft(s)) }

  predicate Trimmed(s: string) {
    s != "" ==> !IsSpace(s[0]) && !IsSpace(s[|s| - 1])
  }

  function IndexOf(s: string, c: char): (r: Option<nat>)
    ensures r.Some? ==> r.value < |s| && s[r.value] == c
    ensures r.None? ==> c !in s
  {
    if s == "" then None
    else if s[0] == c then Some(0)
    else
      var rest := IndexOf(s[1..], c);
      if rest.None? then None else Some(rest.value + 1)
  }

  function LastIndexOf(s: string, c: char): (r: Option<nat>)
    ensures r.Some? ==> r.value < |s| && s[r.value] == c
    ensures r.None? ==> c !in s
    decreases |s|
  {
    if s == "" then None
    else if s[|s| - 1] == c then Some(|s| - 1)
    else LastIndexOf(s[..|s| - 1], c)
  }

  /** split(","). */
  function Split(s: string): (r: seq<string>)
    ensures r != []
  {
    if s == "" then [""]
    else
      var rest := Split(s[1..]);
      if s[0] == ',' then [""] + rest else [[s[0]] + rest[0]] + rest[1..]
  }

  /** join(", "). */
  function Join(parts: seq<string>): string {
    if parts == [] then ""
    else if |parts| == 1 then parts[0]
    else parts[0] + ", " + Join(parts[1..])
  }

  predicate IsDigit(c: char) { '0' <= c <= '9' }

  predicate AllDigits(s: string) { forall c :: c in s ==> IsDigit(c) }

  function Decimal(s: string): nat
    requires AllDigits(s)
    decreases |s|
  {
    if s == "" then 0
    else
      var front, last := s[..|s| - 1], s[|s| - 1];
      assert last in s && forall c :: c in front ==> c in s;
      10 * Decimal(front) + (last as int - '0' as int)
  }

  /** Number() where it is an integer. */
  function ToNumber(s: string, number: Number): Option<int> {
    if AllDigits(s) then Some(Decimal(s)) else number(s)
  }

  function Digit(n: nat): char
    requires n < 10
  {
    ('0' as int + n) as char
  }

  /** String() of a positive integer. */
  function ToText(n: nat): string {
    if n < 10 then [Digit(n)] else ToText(n / 10) + [Digit(n % 10)]
  }

  function LowerAscii(c: char): char {
    if 'A' <= c <= 'Z' then (c as int + 32) as char else c
  }

  /** Lower case without hyphens, underscores and white space; only ASCII letters matter to its uses. */
  function NormalResolution(s: string): string {
    if s == "" then ""
    else
      var rest := NormalResolution(s[1..]);
      if s[0] == '-' || s[0] == '_' || IsSpace(s[0]) then rest else [LowerAscii(s[0])] + rest
  }

  // ---- one attribute ----

  function ParseStart(attribute: string, raw: string, number: Number): (Option<int>, Option<Error>) {
    var n := ToNumber(raw, number);
    if n.None? || n.value < 1 || n.value > CHANNELS then (None, Some(InvalidStart(raw, attribute))) else (n, None)
  }

  function Finish(attribute: string, rawResolution: string, start: (Option<int>, Option<Error>)): Spec {
    var normal := NormalResolution(rawResolution);
    Spec(attribute,
         if normal == "16" || normal == "16bit" then SixteenBit else EightBit,
         start.0,
         if attribute == "" then Some(NameRequired)
         else if start.1.Some? then start.1
         else if normal !in ["", "8", "8bit", "16", "16bit"] then Some(InvalidResolution(rawResolution, attribute))
         else None)
  }

  /** `rest` is what follows the last `@`: a start, a start and a resolution, or a resolution. */
  function ParseAfterAt(attribute: string, rest: string, number: Number): Spec {
    var colon := IndexOf(rest, ':');
    if colon.Some? then
      Finish(attribute, Trim(rest[colon.value + 1..]), ParseStart(attribute, Trim(rest[..colon.value]), number))
    else if rest != "" && AllDigits(rest) then Finish(attribute, "", ParseStart(attribute, rest, number))
    else Finish(attribute, rest, (None, None))
  }

  function ParseSpec(value: string, number: Number): Spec {
    var text := Trim(value);
    var at := LastIndexOf(text, '@');
    if at.Some? then
      ParseAfterAt(Trim(text[..at.value]), Trim(text[at.value + 1..]), number)
    else
      var colon := LastIndexOf(text, ':');
      if colon.Some? then Finish(Trim(text[..colon.value]), Trim(text[colon.value + 1..]), (None, None))
      else Finish(text, "", (None, None))
  }

  // ---- drafts and their text ----

  function TrimAll(parts: seq<string>): seq<string> {
    seq(|parts|, i requires 0 <= i < |parts| => Trim(parts[i]))
  }

  predicate NotEmpty(s: string) { s != "" }

  function Nonempty(parts: seq<string>): seq<string> { Filter(NotEmpty, TrimAll(parts)) }

  /** The trimmed, nonempty pieces between commas. */
  function Chunks(text: string): seq<string> { Nonempty(Split(text)) }

  function DraftOf(spec: Spec): Draft
    requires spec.start.Some? ==> spec.start.value >= 1
  {
    Draft(spec.attribute, spec.resolution, if spec.start.None? then "" else ToText(spec.start.value))
  }

  lemma StartsArePositive(value: string, number: Number)
    ensures ParseSpec(value, number).start.Some? ==> 1 <= ParseSpec(value, number).start.value <= CHANNELS
  {
  }

  function ParseDraft(chunk: string, number: Number): Draft {
    StartsArePositive(chunk, number);
    DraftOf(ParseSpec(chunk, number))
  }

  function ParseAll(chunks: seq<string>, number: Number): seq<Draft> {
    seq(|chunks|, i requires 0 <= i < |chunks| => ParseDraft(chunks[i], number))
  }

  function ParseDrafts(text: string, number: Number): seq<Draft> { ParseAll(Chunks(text), number) }

  function ResolutionText(r: Resolution): string { if r.SixteenBit? then "16" else "8" }

  function Format(d: Draft): string {
    var start := Trim(d.start);
    Trim(d.attribute) + (if start != "" then "@" + start else "") + ":" + ResolutionText(d.resolution)
  }

  function FormatAll(ds: seq<Draft>): seq<string> {
    seq(|ds|, i requires 0 <= i < |ds| => Format(ds[i]))
  }

  function PrintDrafts(ds: seq<Draft>): string { Join(FormatAll(ds)) }

  // ---- laws of the text built-ins ----

  lemma {:induction false} TrimLeftIsSuffix(s: string)
    ensures |TrimLeft(s)| <= |s| && TrimLeft(s) == s[|s| - |TrimLeft(s)|..]
    ensures TrimLeft(s) != "" ==> !IsSpace(TrimLeft(s)[0])
  {
    if s != "" && IsSpace(s[0]) { TrimLeftIsSuffix(s[1..]); }
  }

  lemma {:induction false} TrimRightIsPrefix(s: string)
    ensures |TrimRight(s)| <= |s| && TrimRight(s) == s[..|TrimRight(s)|]
    ensures TrimRight(s) != "" ==> !IsSpace(TrimRight(s)[|TrimRight(s)| - 1])
    decreases |s|
  {
    if s != "" && IsSpace(s[|s| - 1]) {
      TrimRightIsPrefix(s[..|s| - 1]);
      assert s[..|s| - 1][..|TrimRight(s)|] == s[..|TrimRight(s)|];
    }
  }

  predicate Within(a: string, b: string) { forall c :: c in a ==> c in b }

  /** Trimming leaves a trimmed piece of the text, and leaves a trimmed text alone. */
  lemma TrimTrims(s: string)
    ensures Trimmed(Trim(s)) && |Trim(s)| <= |s|
    ensures Within(Trim(s), s)
    ensures Trimmed(s) ==> Trim(s) == s
  {
    var left := TrimLeft(s);
    TrimLeftIsSuffix(s);
    TrimRightIsPrefix(left);
    assert TrimRight(left) != "" ==> TrimRight(left)[0] == left[0];
    assert forall c :: c in left ==> c in s;
    assert forall c :: c in left[..|Trim(s)|] ==> c in left;
  }

  lemma TrimLeadingSpace(s: string)
    ensures Trim(" " + s) == Trim(s)
  {
    assert (" " + s)[1..] == s;
  }

  lemma {:induction false} LastIndexAfter(a: string, c: char, b: string)
    requires c !in b
    ensures LastIndexOf(a + [c] + b, c) == Some(|a|)
    decreases |b|
  {
    var s := a + [c] + b;
    if b != "" {
      assert s[..|s| - 1] == a + [c] + b[..|b| - 1];
      assert s[|s| - 1] == b[|b| - 1];
      assert forall x :: x in b[..|b| - 1] ==> x in b;
      LastIndexAfter(a, c, b[..|b| - 1]);
    }
  }

  lemma {:induction false} IndexBefore(a: string, c: char, b: string)
    requires c !in a
    ensures IndexOf(a + [c] + b, c) == Some(|a|)
    decreases |a|
  {
    var s := a + [c] + b;
    if a != "" {
      assert s[1..] == a[1..] + [c] + b;
      assert s[0] == a[0] && a[0] in a;
      assert forall x :: x in a[1..] ==> x in a;
      IndexBefore(a[1..], c, b);
    }
  }

  lemma {:induction false} IndexOfIsFirst(s: string, c: char)
    ensures IndexOf(s, c).Some? ==> c !in s[..IndexOf(s, c).value]
    decreases |s|
  {
    if s != "" && s[0] != c {
      IndexOfIsFirst(s[1..], c);
      if IndexOf(s, c).Some? {
        var k := IndexOf(s, c).value;
        assert s[..k] == [s[0]] + s[1..][..k - 1];
      }
    }
  }

  lemma {:induction false} DecimalOfText(n: nat)
    ensures ToText(n) != "" && AllDigits(ToText(n)) && Decimal(ToText(n)) == n
  {
    if n < 10 {
      assert ToText(n)[..0] == "";
    } else {
      DecimalOfText(n / 10);
      var front := ToText(n / 10);
      assert ToText(n) == front + [Digit(n % 10)];
      assert ToText(n)[..|front|] == front;
    }
  }

  // ---- splitting what was joined ----

  lemma {:induction false} SplitPlain(s: string)
    requires ',' !in s
    ensures Split(s) == [s]
  {
    if s != "" {
      assert s[0] in s;
      assert forall x :: x in s[1..] ==> x in s;
      SplitPlain(s[1..]);
      assert [s[0]] + s[1..] == s;
    }
  }

  lemma {:induction false} SplitAtComma(a: string, b: string)
    requires ',' !in a
    ensures Split(a + "," + b) == [a] + Split(b)
    decreases |a|
  {
    var s := a + "," + b;
    if a == "" {
      assert s[1..] == b;
    } else {
      assert a[0] in a;
      assert forall x :: x in a[1..] ==> x in a;
      assert s[1..] == a[1..] + "," + b;
      SplitAtComma(a[1..], b);
      assert [s[0]] + a[1..] == a;
    }
  }

  predicate Plain(parts: seq<string>) {
    forall i :: 0 <= i < |parts| ==> ',' !in parts[i] && parts[i] != "" && Trimmed(parts[i])
  }

  /** The first piece of a text with a space in front has that space in front, and nothing else changes. */
  lemma SplitSpace(s: string)
    ensures Split(" " + s) == [" " + Split(s)[0]] + Split(s)[1..]
  {
    assert (" " + s)[1..] == s;
  }

  lemma {:induction false} ChunksOfJoin(parts: seq<string>)
    requires Plain(parts)
    ensures TrimAll(Split(Join(parts))) == if parts == [] then [""] else parts
    decreases |parts|
  {
    if parts == [] {
      assert Join(parts) == "";
      TrimTrims("");
    } else if |parts| == 1 {
      SplitPlain(parts[0]);
      TrimTrims(parts[0]);
      assert TrimAll([parts[0]]) == [parts[0]] + TrimAll([]);
    } else {
      var rest := Join(parts[1..]);
      assert parts[0] + ", " + rest == parts[0] + "," + (" " + rest);
      SplitAtComma(parts[0], " " + rest);
      SplitSpace(rest);
      ChunksOfJoin(parts[1..]);
      TrimTrims(parts[0]);
      TrimLeadingSpace(Split(rest)[0]);
      var all := Split(Join(parts));
      assert all == [parts[0]] + ([" " + Split(rest)[0]] + Split(rest)[1..]);
      forall i | 0 <= i < |all| ensures Trim(all[i]) == parts[i] {
        if i > 0 {
          assert TrimAll(Split(rest))[i - 1] == parts[1..][i - 1];
        }
      }
    }
  }

  lemma {:induction false} FilterAll(parts: seq<string>)
    requires forall i :: 0 <= i < |parts| ==> parts[i] != ""
    ensures Filter(NotEmpty, parts) == parts
    decreases |parts|
  {
    if parts != [] { FilterAll(parts[1..]); }
  }

  lemma ChunksAreTheParts(parts: seq<string>)
    requires Plain(parts)
    ensures Chunks(Join(parts)) == parts
  {
    ChunksOfJoin(parts);
    if parts == [] {
      assert Filter(NotEmpty, [""]) == [];
    } else {
      FilterAll(parts);
    }
  }

  // ---- the round trip ----

  /** Empty, or String() of a channel number. */
  predicate CanonicalStart(start: string) {
    start != "" ==> AllDigits(start) && 1 <= Decimal(start) <= CHANNELS && ToText(Decimal(start)) == start
  }

  lemma ChannelTextIsCanonical(n: nat)
    requires 1 <= n <= CHANNELS
    ensures CanonicalStart(ToText(n))
  {
    DecimalOfText(n);
  }

  /** The name can stand between commas and keeps its own text; an `@` in it needs a start after it. */
  predicate WellFormed(d: Draft) {
    && Trimmed(d.attribute) && ',' !in d.attribute
    && CanonicalStart(d.start)
    && (d.start == "" ==> '@' !in d.attribute)
  }

  lemma ResolutionTextParses(r: Resolution)
    ensures NormalResolution(ResolutionText(r)) == ResolutionText(r)
    ensures Trimmed(ResolutionText(r)) && ResolutionText(r) != ""
    ensures forall c :: c in ResolutionText(r) ==> IsDigit(c)
  {
    assert NormalResolution("8") == ['8'] + NormalResolution("");
    assert NormalResolution("16") == ['1'] + NormalResolution("6");
    assert NormalResolution("6") == ['6'] + NormalResolution("");
  }

  lemma FinishRestores(attribute: string, r: Resolution, start: (Option<int>, Option<Error>))
    ensures var spec := Finish(attribute, ResolutionText(r), start);
            spec.attribute == attribute && spec.resolution == r && spec.start == start.0
  {
    ResolutionTextParses(r);
  }

  lemma DigitsAreTrimmed(s: string)
    requires AllDigits(s)
    ensures Trimmed(s) && '@' !in s && ':' !in s && ',' !in s
  {
    if s != "" { assert s[0] in s && s[|s| - 1] in s; }
  }

  lemma TextEnds(a: string, c: char, r: string)
    requires Trimmed(a) && !IsSpace(c) && r != "" && !IsSpace(r[|r| - 1])
    ensures Trimmed(a + [c] + r)
  {
  }

  lemma FormatWithoutStart(d: Draft)
    requires Trimmed(d.attribute) && d.start == ""
    ensures Format(d) == d.attribute + [':'] + ResolutionText(d.resolution)
  {
    TrimTrims(d.attribute);
    TrimTrims("");
  }

  lemma FormatWithStart(d: Draft)
    requires Trimmed(d.attribute) && CanonicalStart(d.start) && d.start != ""
    ensures Format(d) == d.attribute + ['@'] + (d.start + [':'] + ResolutionText(d.resolution))
  {
    DigitsAreTrimmed(d.start);
    TrimTrims(d.attribute);
    TrimTrims(d.start);
    Regroup(d.attribute, "@", d.start, ":", ResolutionText(d.resolution));
  }

  lemma Regroup(a: string, b: string, c: string, d: string, e: string)
    ensures a + (b + c) + d + e == a + b + (c + d + e)
  {
  }

  /** Printed drafts are trimmed and not empty; a comma in one comes from the draft. */
  lemma FormatIsTrimmed(d: Draft)
    ensures Trimmed(Format(d)) && Format(d) != ""
    ensures ',' !in d.attribute && ',' !in d.start ==> ',' !in Format(d)
  {
    var name, start, r := Trim(d.attribute), Trim(d.start), ResolutionText(d.resolution);
    TrimTrims(d.attribute);
    TrimTrims(d.start);
    ResolutionTextParses(d.resolution);
    if start != "" {
      TextEnds(start, ':', r);
      TextEnds(name, '@', start + [':'] + r);
      Regroup(name, "@", start, ":", r);
      assert Format(d) == name + ['@'] + (start + [':'] + r);
    } else {
      TextEnds(name, ':', r);
      assert Format(d) == name + [':'] + r;
    }
  }

  lemma ParseWithoutStart(d: Draft, number: Number)
    requires WellFormed(d) && d.start == ""
    ensures ParseDraft(Format(d), number) == d
  {
    var r := ResolutionText(d.resolution);
    FormatWithoutStart(d);
    ResolutionTextParses(d.resolution);
    SpecWithoutStart(d.attribute, r, number);
    FinishRestores(d.attribute, d.resolution, (None, None));
  }

  lemma SpecWithoutStart(attribute: string, r: string, number: Number)
    requires Trimmed(attribute) && Trimmed(r) && r != "" && '@' !in attribute && '@' !in r && ':' !in r
    ensures ParseSpec(attribute + [':'] + r, number) == Finish(attribute, r, (None, None))
  {
    var text := attribute + [':'] + r;
    TextEnds(attribute, ':', r);
    TrimTrims(text);
    assert '@' !in text;
    LastIndexAfter(attribute, ':', r);
    assert text[..|attribute|] == attribute && text[|attribute| + 1..] == r;
    TrimTrims(attribute);
    TrimTrims(r);
  }

  lemma SpecWithStart(attribute: string, start: string, r: string, number: Number)
    requires Trimmed(attribute) && AllDigits(start) && start != "" && Trimmed(r) && r != "" && '@' !in r
    ensures ParseSpec(attribute + ['@'] + (start + [':'] + r), number)
            == Finish(attribute, r, ParseStart(attribute, start, number))
  {
    var rest := start + [':'] + r;
    DigitsAreTrimmed(start);
    TextEnds(start, ':', r);
    SpecAfterAt(attribute, rest, number);
    AfterAtWithStart(attribute, start, r, number);
  }

  lemma SpecAfterAt(attribute: string, rest: string, number: Number)
    requires Trimmed(attribute) && Trimmed(rest) && rest != "" && '@' !in rest
    ensures ParseSpec(attribute + ['@'] + rest, number) == ParseAfterAt(attribute, rest, number)
  {
    var text := attribute + ['@'] + rest;
    TextEnds(attribute, '@', rest);
    TrimTrims(text);
    LastIndexAfter(attribute, '@', rest);
    assert text[..|attribute|] == attribute && text[|attribute| + 1..] == rest;
    TrimTrims(attribute);
    TrimTrims(rest);
  }

  lemma AfterAtWithStart(attribute: string, start: string, r: string, number: Number)
    requires AllDigits(start) && Trimmed(r)
    ensures ParseAfterAt(attribute, start + [':'] + r, number)
            == Finish(attribute, r, ParseStart(attribute, start, number))
  {
    var rest := start + [':'] + r;
    DigitsAreTrimmed(start);
    IndexBefore(start, ':', r);
    assert rest[..|start|] == start && rest[|start| + 1..] == r;
    TrimTrims(start);
    TrimTrims(r);
  }

  lemma ParseWithStart(d: Draft, number: Number)
    requires WellFormed(d) && d.start != ""
    ensures ParseDraft(Format(d), number) == d
  {
    var r := ResolutionText(d.resolution);
    FormatWithStart(d);
    ResolutionTextParses(d.resolution);
    SpecWithStart(d.attribute, d.start, r, number);
    FinishRestores(d.attribute, d.resolution, ParseStart(d.attribute, d.start, number));
  }

  predicate CommaFree(ds: seq<Draft>) {
    forall i :: 0 <= i < |ds| ==> ',' !in ds[i].attribute && ',' !in ds[i].start
  }

  lemma PrintedParts(ds: seq<Draft>)
    requires CommaFree(ds)
    ensures Chunks(PrintDrafts(ds)) == FormatAll(ds)
  {
    forall i | 0 <= i < |ds| ensures ',' !in FormatAll(ds)[i] && FormatAll(ds)[i] != "" && Trimmed(FormatAll(ds)[i]) {
      FormatIsTrimmed(ds[i]);
    }
    ChunksAreTheParts(FormatAll(ds));
  }

  /** Printing well-formed drafts and parsing the text gives exactly those drafts. */
  lemma ParseOfPrint(ds: seq<Draft>, number: Number)
    requires forall i :: 0 <= i < |ds| ==> WellFormed(ds[i])
    ensures ParseDrafts(PrintDrafts(ds), number) == ds
  {
    forall i | 0 <= i < |ds| ensures ',' !in ds[i].attribute && ',' !in ds[i].start {
      assert WellFormed(ds[i]);
      DigitsAreTrimmed(ds[i].start);
    }
    PrintedParts(ds);
    forall i | 0 <= i < |ds| ensures ParseDraft(FormatAll(ds)[i], number) == ds[i] {
      if ds[i].start == "" { ParseWithoutStart(ds[i], number); } else { ParseWithStart(ds[i], number); }
    }
  }

  /** A printed well-formed draft is read without error, unless it has no name. */
  lemma PrintedDraftIsAccepted(d: Draft, number: Number)
    requires WellFormed(d)
    ensures ParseSpec(Format(d), number).error == if d.attribute == "" then Some(NameRequired) else None
  {
    var r := ResolutionText(d.resolution);
    ResolutionTextParses(d.resolution);
    if d.start == "" {
      FormatWithoutStart(d);
      SpecWithoutStart(d.attribute, r, number);
    } else {
      FormatWithStart(d);
      SpecWithStart(d.attribute, d.start, r, number);
    }
  }

  // ---- and conversely ----

  lemma {:induction false} SplitHasNoCommas(s: string)
    ensures forall i :: 0 <= i < |Split(s)| ==> ',' !in Split(s)[i]
  {
    if s != "" {
      SplitHasNoCommas(s[1..]);
      var rest := Split(s[1..]);
      forall i | 0 <= i < |Split(s)| ensures ',' !in Split(s)[i] {
        if s[0] == ',' {
          assert i > 0 ==> Split(s)[i] == rest[i - 1];
        } else {
          assert i > 0 ==> Split(s)[i] == rest[i];
        }
      }
    }
  }

  lemma ChunkHasNoComma(text: string, i: nat)
    requires i < |Chunks(text)|
    ensures ',' !in Chunks(text)[i] && Chunks(text)[i] != "" && Trimmed(Chunks(text)[i])
  {
    SplitHasNoCommas(text);
    assert Chunks(text)[i] in TrimAll(Split(text));
    var k :| 0 <= k < |Split(text)| && TrimAll(Split(text))[k] == Chunks(text)[i];
    TrimTrims(Split(text)[k]);
  }

  /** A parsed name is trimmed and made of characters of the text; a parsed start is canonical. */
  lemma ParsedDraft(value: string, number: Number)
    ensures var d := ParseDraft(value, number);
            && Trimmed(d.attribute) && CanonicalStart(d.start)
            && (',' !in value ==> ',' !in d.attribute)
  {
    var text := Trim(value);
    TrimTrims(value);
    StartsArePositive(value, number);
    var at, colon := LastIndexOf(text, '@'), LastIndexOf(text, ':');
    var cut := if at.Some? then at.value else if colon.Some? then colon.value else 0;
    assert forall c :: c in text[..cut] ==> c in text;
    TrimTrims(text[..cut]);
    var spec := ParseSpec(value, number);
    if spec.start.Some? { ChannelTextIsCanonical(spec.start.value); }
  }

  /** A name with an `@` and no start is read back as what precedes its last `@`. */
  lemma AtWithoutStartIsLost(d: Draft, number: Number)
    requires Trimmed(d.attribute) && ',' !in d.attribute && d.start == "" && '@' in d.attribute
    ensures LastIndexOf(d.attribute, '@').Some?
    ensures ParseDraft(Format(d), number).attribute == Trim(d.attribute[..LastIndexOf(d.attribute, '@').value])
    ensures ParseDraft(Format(d), number) != d
  {
    var r := ResolutionText(d.resolution);
    FormatIsTrimmed(d);
    FormatWithoutStart(d);
    TrimTrims(Format(d));
    ResolutionTextParses(d.resolution);
    LastIsNotLater(d.attribute, '@');
    var k := LastIndexOf(d.attribute, '@').value;
    LastStaysLast(d.attribute, '@', [':'] + r);
    assert Format(d) == d.attribute + ([':'] + r);
    assert Format(d)[..k] == d.attribute[..k];
    AttributeBeforeAt(Format(d), number, k);
    TrimTrims(d.attribute[..k]);
  }

  lemma {:induction false} LastStaysLast(s: string, c: char, tail: string)
    requires c in s && c !in tail
    ensures LastIndexOf(s + tail, c) == LastIndexOf(s, c)
  {
    LastIsNotLater(s, c);
    var k := LastIndexOf(s, c).value;
    var rest := s[k + 1..] + tail;
    assert s + tail == s[..k] + [c] + rest;
    LastIndexAfter(s[..k], c, rest);
  }

  lemma AttributeBeforeAt(value: string, number: Number, k: nat)
    requires LastIndexOf(Trim(value), '@') == Some(k)
    ensures ParseSpec(value, number).attribute == Trim(Trim(value)[..k])
  {
  }

  lemma {:induction false} LastIsNotLater(s: string, c: char)
    requires c in s
    ensures LastIndexOf(s, c).Some? && c !in s[LastIndexOf(s, c).value + 1..]
    decreases |s|
  {
    if s[|s| - 1] != c {
      assert s == s[..|s| - 1] + [s[|s| - 1]];
      LastIsNotLater(s[..|s| - 1], c);
      var k := LastIndexOf(s, c).value;
      assert s[k + 1..] == s[..|s| - 1][k + 1..] + [s[|s| - 1]];
    }
  }

  /** Drafts survive printing and parsing if and only if every one of them is well formed. */
  lemma RoundTripIffWellFormed(ds: seq<Draft>, number: Number)
    ensures ParseDrafts(PrintDrafts(ds), number) == ds <==> forall i :: 0 <= i < |ds| ==> WellFormed(ds[i])
  {
    if forall i :: 0 <= i < |ds| ==> WellFormed(ds[i]) {
      ParseOfPrint(ds, number);
    }
    if ParseDrafts(PrintDrafts(ds), number) == ds {
      forall i | 0 <= i < |ds|
        ensures Trimmed(ds[i].attribute) && ',' !in ds[i].attribute && CanonicalStart(ds[i].start)
      {
        ChunkHasNoComma(PrintDrafts(ds), i);
        ParsedDraft(Chunks(PrintDrafts(ds))[i], number);
      }
      forall i | 0 <= i < |ds| ensures ',' !in ds[i].attribute && ',' !in ds[i].start {
        DigitsAreTrimmed(ds[i].start);
      }
      PrintedParts(ds);
      forall i | 0 <= i < |ds| ensures WellFormed(ds[i]) {
        assert ParseDraft(FormatAll(ds)[i], number) == ds[i];
        if ds[i].start == "" && '@' in ds[i].attribute { AtWithoutStartIsLost(ds[i], number); }
      }
    }
  }

  /** Reformatting a text is stable exactly when no attribute has an `@` in its name and no start. */
  lemma ReformatStableIff(text: string, number: Number)
    ensures var ds := ParseDrafts(text, number);
            ParseDrafts(PrintDrafts(ds), number) == ds
            <==> forall i :: 0 <= i < |ds| && ds[i].start == "" ==> '@' !in ds[i].attribute
  {
    var ds := ParseDrafts(text, number);
    RoundTripIffWellFormed(ds, number);
    forall i | 0 <= i < |ds|
      ensures Trimmed(ds[i].attribute) && ',' !in ds[i].attribute && CanonicalStart(ds[i].start)
    {
      ChunkHasNoComma(text, i);
      ParsedDraft(Chunks(text)[i], number);
    }
  }

  /** The text `a@b@16bit` reads as attribute `a@b`, whose own text reads as attribute `a`. */
  lemma ReformatCanChangeTheName(number: Number)
    ensures var d := ParseDraft("a@b" + ['@'] + "16bit", number);
            && d == Draft("a@b", SixteenBit, "")
            && ParseDraft(Format(d), number).attribute == "a"
  {
    ReadsNameWithAt("a@b", number);
    AtInShortName(number);
  }

  lemma ReadsNameWithAt(name: string, number: Number)
    requires Trimmed(name)
    ensures ParseDraft(name + ['@'] + "16bit", number) == Draft(name, SixteenBit, "")
  {
    var r := "16bit";
    assert r[2] in r && !IsDigit(r[2]);
    SpecOfResolution(name, r, number);
    SixteenBitText();
  }

  lemma AtInShortName(number: Number)
    ensures ParseDraft(Format(Draft("a@b", SixteenBit, "")), number).attribute == "a"
  {
    var name := "a@b";
    assert name[1] == '@';
    AtWithoutStartIsLost(Draft(name, SixteenBit, ""), number);
    assert name == "a" + ['@'] + "b";
    LastIndexAfter("a", '@', "b");
    assert name[..1] == "a";
    TrimTrims("a");
  }

  lemma SpecOfResolution(attribute: string, r: string, number: Number)
    requires Trimmed(attribute) && Trimmed(r) && r != "" && ':' !in r && '@' !in r && !AllDigits(r)
    ensures ParseSpec(attribute + ['@'] + r, number) == Finish(attribute, r, (None, None))
  {
    SpecAfterAt(attribute, r, number);
    assert IndexOf(r, ':').None?;
  }

  lemma SixteenBitText()
    ensures NormalResolution("16bit") == "16bit"
  {
    assert NormalResolution("t") == ['t'] + NormalResolution("");
    assert NormalResolution("it") == ['i'] + NormalResolution("t");
    assert NormalResolution("bit") == ['b'] + NormalResolution("it");
    assert NormalResolution("6bit") == ['6'] + NormalResolution("bit");
  }

  // ---- the channel allocator ----

  datatype Control = Control(attribute: string, resolution: Resolution, start: Option<int>, offsets: seq<int>)

  datatype Preview = Preview(controls: seq<Control>, errors: seq<Error>, seen: set<string>, occupied: set<int>,
                             nextOffset: int, footprint: int)

  const EMPTY: Preview := Preview([], [], {}, {}, 1, 0)

  function Width(r: Resolution): nat { if r.SixteenBit? then 2 else 1 }

  function Offsets(start: int, width: nat): seq<int> { seq(width, i => start + i) }

  function FirstOccupied(offsets: seq<int>, occupied: set<int>): Option<int> {
    if offsets == [] then None
    else if offsets[0] in occupied then Some(offsets[0])
    else FirstOccupied(offsets[1..], occupied)
  }

  predicate InRange(offsets: seq<int>) { forall o :: o in offsets ==> 1 <= o <= CHANNELS }

  function Largest(offsets: seq<int>, least: int): int {
    if offsets == [] then least else Largest(offsets[1..], if offsets[0] > least then offsets[0] else least)
  }

  /** Gives an accepted attribute its channels, or reports why it has none. */
  function Allocate(p: Preview, spec: Spec): Preview {
    var start := if spec.start.Some? then spec.start.value else p.nextOffset;
    var width := Width(spec.resolution);
    var offsets := Offsets(start, width);
    if !InRange(offsets) then p.(errors := p.errors + [ExceedsUniverse(spec.attribute)])
    else
      var overlap := FirstOccupied(offsets, p.occupied);
      if overlap.Some? then p.(errors := p.errors + [Overlaps(spec.attribute, overlap.value)])
      else
        p.(occupied := p.occupied + (set o | o in offsets), footprint := Largest(offsets, p.footprint),
           controls := p.controls + [Control(spec.attribute, spec.resolution, spec.start, offsets)],
           nextOffset := if p.nextOffset > start + width then p.nextOffset else start + width)
  }

  function Place(p: Preview, chunk: string, number: Number, fold: Fold): Preview {
    var spec := ParseSpec(chunk, number);
    if spec.error.Some? then p.(errors := p.errors + [spec.error.value])
    else if fold(spec.attribute) in p.seen then p.(errors := p.errors + [Duplicate(spec.attribute)])
    else Allocate(p.(seen := p.seen + {fold(spec.attribute)}), spec)
  }

  function PlaceAll(chunks: seq<string>, number: Number, fold: Fold): Preview
    decreases |chunks|
  {
    if chunks == [] then EMPTY
    else Place(PlaceAll(chunks[..|chunks| - 1], number, fold), chunks[|chunks| - 1], number, fold)
  }

  function PreviewOf(text: string, number: Number, fold: Fold): Preview {
    var p := PlaceAll(Chunks(text), number, fold);
    if p.footprint > CHANNELS then p.(errors := p.errors + [FootprintExceeds(p.footprint)]) else p
  }

  predicate Apart(a: seq<int>, b: seq<int>) { forall o :: o in a ==> o !in b }

  predicate Disjoint(controls: seq<Control>) {
    forall i, j :: 0 <= i < j < |controls| ==> Apart(controls[i].offsets, controls[j].offsets)
  }

  predicate ControlOk(c: Control, occupied: set<int>) {
    && |c.offsets| == Width(c.resolution)
    && (forall i :: 0 <= i < |c.offsets| ==> c.offsets[i] == c.offsets[0] + i)
    && (c.start.Some? ==> c.offsets[0] == c.start.value)
    && (forall o :: o in c.offsets ==> o in occupied)
  }

  ghost predicate Held(controls: seq<Control>, o: int) {
    exists i :: 0 <= i < |controls| && o in controls[i].offsets
  }

  /** The footprint is the largest channel in use, and the next free implicit channel follows it. */
  predicate Bounded(p: Preview) {
    && (forall o :: o in p.occupied ==> 1 <= o <= p.footprint)
    && (if p.footprint == 0 then p.occupied == {} else p.footprint in p.occupied)
    && 0 <= p.footprint <= CHANNELS && p.nextOffset == p.footprint + 1
  }

  ghost predicate Sound(p: Preview) {
    && Bounded(p) && Disjoint(p.controls)
    && (forall c :: c in p.controls ==> ControlOk(c, p.occupied))
    && (forall o :: o in p.occupied ==> Held(p.controls, o))
  }

  lemma {:induction false} FirstOccupiedNone(offsets: seq<int>, occupied: set<int>)
    ensures FirstOccupied(offsets, occupied).None? <==> forall o :: o in offsets ==> o !in occupied
    ensures FirstOccupied(offsets, occupied).Some? ==>
      FirstOccupied(offsets, occupied).value in offsets && FirstOccupied(offsets, occupied).value in occupied
  {
    if offsets != [] {
      FirstOccupiedNone(offsets[1..], occupied);
      assert offsets[0] in offsets && forall o :: o in offsets <==> o == offsets[0] || o in offsets[1..];
    }
  }

  lemma OffsetsOf(start: int, r: Resolution)
    ensures forall o :: o in Offsets(start, Width(r)) <==> start <= o < start + Width(r)
    ensures InRange(Offsets(start, Width(r))) <==> 1 <= start && start + Width(r) - 1 <= CHANNELS
  {
    var offsets := Offsets(start, Width(r));
    OneOrTwo(start, r);
    assert start in offsets && start + Width(r) - 1 in offsets;
  }

  lemma OneOrTwo(start: int, r: Resolution)
    ensures Offsets(start, Width(r)) == if r.SixteenBit? then [start, start + 1] else [start]
  {
  }

  lemma LargestOf(start: int, r: Resolution, least: int)
    ensures Largest(Offsets(start, Width(r)), least)
            == if start + Width(r) - 1 > least then start + Width(r) - 1 else least
  {
    var offsets := Offsets(start, Width(r));
    OneOrTwo(start, r);
    var first := if start > least then start else least;
    assert Largest(offsets, least) == Largest(offsets[1..], first);
    if r.SixteenBit? {
      assert offsets[1..] == [start + 1] && [start + 1][1..] == [];
      assert Largest([start + 1], first) == Largest([], if start + 1 > first then start + 1 else first);
    } else {
      assert offsets[1..] == [];
    }
  }

  /** An attribute is placed exactly when its channels are in range and free. */
  lemma AllocateDecides(p: Preview, spec: Spec)
    ensures var start := if spec.start.Some? then spec.start.value else p.nextOffset;
            var width := Width(spec.resolution);
            var placed := 1 <= start && start + width - 1 <= CHANNELS
                          && forall o :: start <= o < start + width ==> o !in p.occupied;
            var q := Allocate(p, spec);
            if placed then q.errors == p.errors && |q.controls| == |p.controls| + 1
            else q == p.(errors := q.errors) && |q.errors| == |p.errors| + 1
  {
    var start := if spec.start.Some? then spec.start.value else p.nextOffset;
    OffsetsOf(start, spec.resolution);
    FirstOccupiedNone(Offsets(start, Width(spec.resolution)), p.occupied);
  }

  lemma AllocatedBounded(p: Preview, spec: Spec)
    requires Bounded(p)
    ensures Bounded(Allocate(p, spec))
  {
    var start := if spec.start.Some? then spec.start.value else p.nextOffset;
    OffsetsOf(start, spec.resolution);
    LargestOf(start, spec.resolution, p.footprint);
  }

  lemma AllocateKeeps(p: Preview, spec: Spec)
    requires Sound(p)
    ensures Sound(Allocate(p, spec))
  {
    var q := Allocate(p, spec);
    AllocatedBounded(p, spec);
    if |q.controls| > |p.controls| {
      var start := if spec.start.Some? then spec.start.value else p.nextOffset;
      var offsets := Offsets(start, Width(spec.resolution));
      var c := Control(spec.attribute, spec.resolution, spec.start, offsets);
      FirstOccupiedNone(offsets, p.occupied);
      forall d | d in q.controls ensures ControlOk(d, q.occupied) {
        assert d in p.controls ==> ControlOk(d, p.occupied);
        assert d == c || d in p.controls;
      }
      forall i, j | 0 <= i < j < |q.controls| ensures Apart(q.controls[i].offsets, q.controls[j].offsets) {
        assert q.controls[i] in p.controls;
        assert ControlOk(q.controls[i], p.occupied);
        assert j < |p.controls| ==> Apart(p.controls[i].offsets, p.controls[j].offsets);
      }
      forall o | o in q.occupied ensures Held(q.controls, o) {
        HeldGrows(p.controls, c, o);
        assert o in p.occupied ==> Held(p.controls, o);
      }
    }
  }

  lemma HeldGrows(controls: seq<Control>, c: Control, o: int)
    ensures Held(controls, o) || o in c.offsets ==> Held(controls + [c], o)
  {
    if Held(controls, o) {
      var i :| 0 <= i < |controls| && o in controls[i].offsets;
      assert o in (controls + [c])[i].offsets;
    }
    assert (controls + [c])[|controls|] == c;
  }

  /**
   Every allocation, of any text: channels in 1..512, no channel twice, the footprint their maximum, one outcome per
   piece.
   */
  lemma {:induction false} PlacementIsSound(chunks: seq<string>, number: Number, fold: Fold)
    ensures var p := PlaceAll(chunks, number, fold); Sound(p) && |p.controls| + |p.errors| == |chunks|
    decreases |chunks|
  {
    if chunks != [] {
      PlacementIsSound(chunks[..|chunks| - 1], number, fold);
      PlaceKeeps(PlaceAll(chunks[..|chunks| - 1], number, fold), chunks[|chunks| - 1], number, fold);
    }
  }

  lemma PlaceKeeps(p: Preview, chunk: string, number: Number, fold: Fold)
    requires Sound(p)
    ensures var q := Place(p, chunk, number, fold);
            Sound(q) && |q.controls| + |q.errors| == |p.controls| + |p.errors| + 1
  {
    var spec := ParseSpec(chunk, number);
    var seen := p.(seen := p.seen + {fold(spec.attribute)});
    AllocateKeeps(seen, spec);
    AllocateDecides(seen, spec);
  }

  /** So the preview's own footprint check never fires. */
  lemma FootprintErrorUnreachable(text: string, number: Number, fold: Fold)
    ensures PreviewOf(text, number, fold) == PlaceAll(Chunks(text), number, fold)
    ensures var p := PreviewOf(text, number, fold); Sound(p) && |p.controls| + |p.errors| == |Chunks(text)|
  {
    PlacementIsSound(Chunks(text), number, fold);
  }

  /** Without a start, an attribute gets the channels after the footprint, or there are none left; it never overlaps. */
  lemma ImplicitPlacementOnlyExhausts(p: Preview, chunk: string, number: Number, fold: Fold)
    requires Sound(p) && ParseSpec(chunk, number).error.None? && ParseSpec(chunk, number).start.None?
    requires fold(ParseSpec(chunk, number).attribute) !in p.seen
    ensures var spec, q := ParseSpec(chunk, number), Place(p, chunk, number, fold);
            if p.footprint + Width(spec.resolution) <= CHANNELS then
              && q.errors == p.errors
              && q.controls == p.controls + [Control(spec.attribute, spec.resolution, None,
                                                     Offsets(p.footprint + 1, Width(spec.resolution)))]
              && q.footprint == p.footprint + Width(spec.resolution)
            else
              && q.errors == p.errors + [ExceedsUniverse(spec.attribute)]
              && q.controls == p.controls && q.footprint == p.footprint
  {
    var spec := ParseSpec(chunk, number);
    OffsetsOf(p.nextOffset, spec.resolution);
    LargestOf(p.nextOffset, spec.resolution, p.footprint);
    FirstOccupiedNone(Offsets(p.nextOffset, Width(spec.resolution)), p.occupied);
  }

  /** Names accepted are different under case folding. */
  lemma {:induction false} NamesAreDistinct(chunks: seq<string>, number: Number, fold: Fold)
    ensures var p := PlaceAll(chunks, number, fold); Named(p, fold)
    decreases |chunks|
  {
    if chunks != [] {
      NamesAreDistinct(chunks[..|chunks| - 1], number, fold);
      PlaceNames(PlaceAll(chunks[..|chunks| - 1], number, fold), chunks[|chunks| - 1], number, fold);
    }
  }

  lemma PlaceNames(p: Preview, chunk: string, number: Number, fold: Fold)
    requires Named(p, fold)
    ensures Named(Place(p, chunk, number, fold), fold)
  {
    var q := Place(p, chunk, number, fold);
    forall i, j | 0 <= i < j < |q.controls| ensures fold(q.controls[i].attribute) != fold(q.controls[j].attribute) {
      assert p.controls[i] in p.controls;
    }
  }

  predicate Named(p: Preview, fold: Fold) {
    && (forall c :: c in p.controls ==> fold(c.attribute) in p.seen)
    && (forall i, j :: 0 <= i < j < |p.controls| ==> fold(p.controls[i].attribute) != fold(p.controls[j].attribute))
  }

  predicate Prefix<T(==)>(a: seq<T>, b: seq<T>) { |a| <= |b| && b[..|a|] == a }

  /** What follows a piece never changes what was allocated or reported for the pieces up to it. */
  lemma {:induction false} PrefixesStand(chunks: seq<string>, k: nat, number: Number, fold: Fold)
    requires k <= |chunks|
    ensures Prefix(PlaceAll(chunks[..k], number, fold).controls, PlaceAll(chunks, number, fold).controls)
    ensures Prefix(PlaceAll(chunks[..k], number, fold).errors, PlaceAll(chunks, number, fold).errors)
    decreases |chunks|
  {
    if k == |chunks| {
      assert chunks[..k] == chunks;
    } else {
      PrefixesStand(chunks[..|chunks| - 1], k, number, fold);
      assert chunks[..|chunks| - 1][..k] == chunks[..k];
      PlaceExtends(PlaceAll(chunks[..|chunks| - 1], number, fold), chunks[|chunks| - 1], number, fold);
    }
  }

  lemma PlaceExtends(p: Preview, chunk: string, number: Number, fold: Fold)
    ensures Prefix(p.controls, Place(p, chunk, number, fold).controls)
    ensures Prefix(p.errors, Place(p, chunk, number, fold).errors)
  {
  }

  // ---- the channel label of one draft ----

  /** The label previews only the drafts up to the one asked about; None is "Pending". */
  function ChannelLabel(ds: seq<Draft>, index: nat, number: Number, fold: Fold): Option<seq<int>>
    requires index < |ds|
  {
    LabelFrom(PreviewOf(PrintDrafts(ds[..index + 1]), number, fold))
  }

  function LabelFrom(p: Preview): Option<seq<int>> {
    if p.controls != [] && p.errors == [] then Some(p.controls[|p.controls| - 1].offsets) else None
  }

  predicate LabelMatches(index: nat, whole: Preview, upTo: Preview, shown: Option<seq<int>>) {
    && (shown.Some? <==> upTo.errors == [])
    && (whole.errors == [] ==> upTo.errors == [])
    && (upTo.errors == [] ==> index < |whole.controls| && shown == Some(whole.controls[index].offsets))
  }

  // A comma inside a draft makes it several pieces of the text.

  predicate OnePiece(d: Draft) { |Chunks(Format(d))| == 1 }

  predicate AllOnePiece(ds: seq<Draft>) { forall d :: d in ds ==> OnePiece(d) }

  /** How many pieces the drafts before n are printed as. */
  function Pieces(ds: seq<Draft>, n: nat): nat
    requires n <= |ds|
  {
    |Chunks(PrintDrafts(ds[..n]))|
  }

  /**
   A label names the channels the whole list gives the last piece of that draft, and is pending exactly when a
   piece up to it is in error.
   */
  lemma LabelIsTheAllocation(ds: seq<Draft>, index: nat, number: Number, fold: Fold)
    requires index < |ds|
    ensures LabelIsOf(PrintDrafts(ds), PrintDrafts(ds[..index + 1]), ChannelLabel(ds, index, number, fold),
                      number, fold)
  {
    PrintedPrefix(ds, index + 1);
    CountedPieces(ds[..index + 1]);
    LabelFromText(PrintDrafts(ds), PrintDrafts(ds[..index + 1]), number, fold);
  }

  /** The label shown for the end of `upTo` is that of its last piece within the whole text. */
  predicate LabelIsOf(text: string, upTo: string, shown: Option<seq<int>>, number: Number, fold: Fold) {
    && Chunks(upTo) != []
    && LabelMatches(|Chunks(upTo)| - 1, PreviewOf(text, number, fold), PreviewOf(upTo, number, fold), shown)
  }

  /**
   That piece has the draft's own position in the list if and only if each draft up to it is printed as one
   piece, as those without a comma are.
   */
  lemma LastPieceIsOwnIff(ds: seq<Draft>, index: nat)
    requires index < |ds|
    ensures index < Pieces(ds, index + 1)
    ensures Pieces(ds, index + 1) - 1 == index <==> AllOnePiece(ds[..index + 1])
    ensures CommaFree(ds[..index + 1]) ==> AllOnePiece(ds[..index + 1])
  {
    CountedPieces(ds[..index + 1]);
  }

  lemma CountedPieces(ds: seq<Draft>)
    requires ds != []
    ensures |Chunks(PrintDrafts(ds))| >= |ds|
    ensures |Chunks(PrintDrafts(ds))| == |ds| <==> AllOnePiece(ds)
    ensures CommaFree(ds) ==> AllOnePiece(ds)
  {
    PieceCount(ds);
    if CommaFree(ds) { PrintedParts(ds); }
  }

  lemma LabelFromText(text: string, upTo: string, number: Number, fold: Fold)
    requires Chunks(upTo) != [] && Prefix(Chunks(upTo), Chunks(text))
    ensures LabelIsOf(text, upTo, LabelFrom(PreviewOf(upTo, number, fold)), number, fold)
  {
    FootprintErrorUnreachable(text, number, fold);
    FootprintErrorUnreachable(upTo, number, fold);
    LabelFromPrefix(Chunks(text), |Chunks(upTo)| - 1, number, fold);
  }

  lemma {:induction false} SplitConcat(a: string, b: string)
    ensures Split(a + "," + b) == Split(a) + Split(b)
    decreases |a|
  {
    var s := a + "," + b;
    if a == "" {
      assert s[1..] == b;
    } else {
      assert s[1..] == a[1..] + "," + b;
      SplitConcat(a[1..], b);
    }
  }

  lemma ChunksConcat(a: string, b: string)
    ensures Chunks(a + ", " + b) == Chunks(a) + Chunks(b)
  {
    assert a + ", " + b == a + "," + (" " + b);
    SplitConcat(a, " " + b);
    NonemptyConcat(Split(a), Split(" " + b));
    ChunksAfterSpace(b);
  }

  lemma NonemptyConcat(a: seq<string>, b: seq<string>)
    ensures Nonempty(a + b) == Nonempty(a) + Nonempty(b)
  {
    assert TrimAll(a + b) == TrimAll(a) + TrimAll(b);
    FilterConcat(NotEmpty, TrimAll(a), TrimAll(b));
  }

  lemma ChunksAfterSpace(s: string)
    ensures Chunks(" " + s) == Chunks(s)
  {
    SplitSpace(s);
    TrimLeadingSpace(Split(s)[0]);
    assert TrimAll(Split(" " + s)) == TrimAll(Split(s));
  }

  lemma {:induction false} JoinConcat(a: seq<string>, b: seq<string>)
    requires a != [] && b != []
    ensures Join(a + b) == Join(a) + ", " + Join(b)
    decreases |a|
  {
    assert (a + b)[1..] == a[1..] + b;
    if |a| > 1 { JoinConcat(a[1..], b); }
  }

  lemma PrintedConcat(ds: seq<Draft>, n: nat)
    requires 0 < n < |ds|
    ensures Chunks(PrintDrafts(ds)) == Chunks(PrintDrafts(ds[..n])) + Chunks(PrintDrafts(ds[n..]))
  {
    assert FormatAll(ds) == FormatAll(ds[..n]) + FormatAll(ds[n..]);
    JoinConcat(FormatAll(ds[..n]), FormatAll(ds[n..]));
    ChunksConcat(PrintDrafts(ds[..n]), PrintDrafts(ds[n..]));
  }

  lemma PrintedPrefix(ds: seq<Draft>, n: nat)
    requires 0 < n <= |ds|
    ensures Prefix(Chunks(PrintDrafts(ds[..n])), Chunks(PrintDrafts(ds)))
  {
    if n < |ds| { PrintedConcat(ds, n); } else { assert ds[..n] == ds; }
  }

  /** A character that is neither a comma nor white space is in some piece of its text. */
  lemma {:induction false} SplitKeeps(s: string, c: char) returns (k: nat)
    requires c in s && c != ','
    ensures k < |Split(s)| && c in Split(s)[k]
    decreases |s|
  {
    if s[0] == c {
      k := 0;
    } else {
      k := SplitKeeps(s[1..], c);
      if s[0] == ',' { k := k + 1; }
    }
  }

  lemma {:induction false} TrimLeftKeeps(s: string, c: char)
    requires c in s && !IsSpace(c)
    ensures c in TrimLeft(s)
    decreases |s|
  {
    if IsSpace(s[0]) { TrimLeftKeeps(s[1..], c); }
  }

  lemma {:induction false} TrimRightKeeps(s: string, c: char)
    requires c in s && !IsSpace(c)
    ensures c in TrimRight(s)
    decreases |s|
  {
    if IsSpace(s[|s| - 1]) { TrimRightKeeps(s[..|s| - 1], c); }
  }

  lemma FormatHasAPiece(d: Draft)
    ensures Chunks(Format(d)) != []
  {
    var s := Format(d);
    assert ':' in s by {
      assert s[|s| - |":" + ResolutionText(d.resolution)|] == ':';
    }
    var k := SplitKeeps(s, ':');
    TrimLeftKeeps(Split(s)[k], ':');
    TrimRightKeeps(TrimLeft(Split(s)[k]), ':');
    assert TrimAll(Split(s))[k] in TrimAll(Split(s));
    assert Trim(Split(s)[k]) in Chunks(s);
  }

  /** At least one piece a draft, and exactly one each when every draft is one. */
  lemma {:induction false} PieceCount(ds: seq<Draft>)
    requires ds != []
    ensures |Chunks(PrintDrafts(ds))| >= |ds|
    ensures |Chunks(PrintDrafts(ds))| == |ds| <==> AllOnePiece(ds)
    decreases |ds|
  {
    FormatHasAPiece(ds[0]);
    assert PrintDrafts(ds[..1]) == Format(ds[0]);
    if |ds| > 1 {
      AllOnePieceNext(ds);
      PrintedConcat(ds, 1);
      PieceCount(ds[1..]);
    } else {
      assert ds[..1] == ds && ds == [ds[0]];
      assert AllOnePiece(ds) <==> OnePiece(ds[0]);
    }
  }

  lemma AllOnePieceNext(ds: seq<Draft>)
    requires ds != []
    ensures AllOnePiece(ds) <==> OnePiece(ds[0]) && AllOnePiece(ds[1..])
  {
    assert forall d :: d in ds <==> d == ds[0] || d in ds[1..];
  }

  lemma LabelFromPrefix(chunks: seq<string>, index: nat, number: Number, fold: Fold)
    requires index < |chunks|
    ensures var whole, upTo := PlaceAll(chunks, number, fold), PlaceAll(chunks[..index + 1], number, fold);
            LabelMatches(index, whole, upTo, LabelFrom(upTo))
  {
    PrefixesStand(chunks, index + 1, number, fold);
    PlacementIsSound(chunks[..index + 1], number, fold);
    var whole, upTo := PlaceAll(chunks, number, fold), PlaceAll(chunks[..index + 1], number, fold);
    PrefixAgrees(upTo.controls, whole.controls);
  }

  lemma PrefixAgrees<T>(a: seq<T>, b: seq<T>)
    requires Prefix(a, b)
    ensures forall i :: 0 <= i < |a| ==> a[i] == b[i]
  {
    assert forall i :: 0 <= i < |a| ==> b[..|a|][i] == b[i];
  }

  // ---- the loop ----

  lemma NonemptyNext(parts: seq<string>, k: nat)
    requires k < |parts|
    ensures Nonempty(parts[..k + 1]) == Nonempty(parts[..k]) + (if Trim(parts[k]) != "" then [Trim(parts[k])] else [])
  {
    assert TrimAll(parts[..k + 1]) == TrimAll(parts[..k]) + [Trim(parts[k])];
    FilterSnoc(NotEmpty, TrimAll(parts[..k]), Trim(parts[k]));
  }

  /** customProfilePreviewFromText. */
  method PreviewText(text: string, number: Number, fold: Fold) returns (p: Preview)
    ensures p == PreviewOf(text, number, fold)
  {
    p := EMPTY;
    var parts := Split(text);
    var k := 0;
    while k < |parts|
      invariant 0 <= k <= |parts|
      invariant p == PlaceAll(Nonempty(parts[..k]), number, fold)
    {
      var trimmed := Trim(parts[k]);
      LoopStep(parts, k, number, fold);
      if trimmed != "" { p := PlaceChunk(p, trimmed, number, fold); }
      k := k + 1;
    }
    assert parts[..|parts|] == parts;
    assert Chunks(text) == Nonempty(parts[..|parts|]);
    if p.footprint > CHANNELS { p := p.(errors := p.errors + [FootprintExceeds(p.footprint)]); }
  }

  lemma LoopStep(parts: seq<string>, k: nat, number: Number, fold: Fold)
    requires k < |parts|
    ensures PlaceAll(Nonempty(parts[..k + 1]), number, fold)
            == if Trim(parts[k]) != "" then
                 Place(PlaceAll(Nonempty(parts[..k]), number, fold), Trim(parts[k]), number, fold)
               else PlaceAll(Nonempty(parts[..k]), number, fold)
  {
    NonemptyNext(parts, k);
    if Trim(parts[k]) != "" {
      PlaceAllNext(Nonempty(parts[..k]), Trim(parts[k]), number, fold);
    } else {
      assert Nonempty(parts[..k + 1]) == Nonempty(parts[..k]);
    }
  }

  lemma PlaceAllNext(chunks: seq<string>, chunk: string, number: Number, fold: Fold)
    ensures PlaceAll(chunks + [chunk], number, fold) == Place(PlaceAll(chunks, number, fold), chunk, number, fold)
  {
    assert (chunks + [chunk])[..|chunks|] == chunks;
  }

  /** One pass of the loop body. */
  method PlaceChunk(before: Preview, trimmed: string, number: Number, fold: Fold) returns (p: Preview)
    ensures p == Place(before, trimmed, number, fold)
  {
    p := before;
    var spec := ParseSpec(trimmed, number);
    if spec.error.Some? { return p.(errors := p.errors + [spec.error.value]); }
    var key := fold(spec.attribute);
    if key in p.seen { return p.(errors := p.errors + [Duplicate(spec.attribute)]); }
    p := p.(seen := p.seen + {key});
    var width := Width(spec.resolution);
    var start := if spec.start.Some? then spec.start.value else p.nextOffset;
    var offsets := Offsets(start, width);
    if exists o :: o in offsets && (o < 1 || o > CHANNELS) {
      return p.(errors := p.errors + [ExceedsUniverse(spec.attribute)]);
    }
    var n := 0;
    while n < |offsets|
      invariant 0 <= n <= |offsets|
      invariant FirstOccupied(offsets, p.occupied) == FirstOccupied(offsets[n..], p.occupied)
    {
      if offsets[n] in p.occupied { return p.(errors := p.errors + [Overlaps(spec.attribute, offsets[n])]); }
      n := n + 1;
    }
    p := p.(occupied := p.occupied + (set o | o in offsets),
            footprint := Largest(offsets, p.footprint),
            controls := p.controls + [Control(spec.attribute, spec.resolution, spec.start, offsets)],
            nextOffset := if p.nextOffset > start + width then p.nextOffset else start + width);
  }
}
