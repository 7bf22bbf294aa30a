/**
  The `queue` slash command's options turned into a GenRequest
  (src/Index.ts and, in its earlier form, src/index.ts). Each numeric option
  arrives through `parseInt`, so it is modelled as Option<int> with None for
  `NaN`; the `||` defaults treat `NaN`, 0, `undefined` and "" as missing.
 */
module RequestBuilder {
  import opened Wrappers
  import opened Types

  const DefaultNegativePrompt: string := "bad hands, horrible fingers, multiple fingers, mutated fingers, fake, painted, 3d, drawn, blurry, ugly, hideous, disgusting, gross, jpeg artifacts, distortion, grainy, Horrible, messy, unbalanced, (fake, drawn), hideous, disgusting, gross, nausea, broken, in pieces"
  /** The fallback for both the genre and the style. */
  const DefaultGenre: string := "digital-art"
  const DefaultStrength: int := 50
  const DefaultAspectRatio: string := "1:1"

  /** The options of one `queue` command, as read from the interaction. */
  datatype QueueOptions = QueueOptions(
    prompt: string,
    negativePrompt: Option<string>,
    style: Option<string>,
    aspectRatio: Option<string>,
    turbo: Option<bool>,
    highFrequencyDetail: Option<int>,
    samplerStrength: Option<int>,
    saturation: Option<int>,
    count: Option<int>)

  /** The ranges the command declares for its integer options. */
  predicate WithinOptionBounds(o: QueueOptions)
  {
    && (o.highFrequencyDetail.Some? ==> 0 <= o.highFrequencyDetail.value <= 100)
    && (o.samplerStrength.Some? ==> 0 <= o.samplerStrength.value <= 100)
    && (o.saturation.Some? ==> 0 <= o.saturation.value <= 100)
    && (o.count.Some? ==> 1 <= o.count.value <= 4)
  }

  /** JavaScript `s || fallback` for a string that may be undefined. */
  function OrString(s: Option<string>, fallback: string): string
  {
    if s.Some? && s.value != "" then s.value else fallback
  }

  /** JavaScript `n || fallback` for a `parseInt` result. */
  function OrNumber(n: Option<int>, fallback: int): int
  {
    if n.Some? && n.value != 0 then n.value else fallback
  }

  /** `aspectRatioMap[ratio] || { width: 640, height: 640 }`, as (width, height). */
  function AspectDims(ratio: string): (int, int)
  {
    if ratio == "3:2" then (768, 512)
    else if ratio == "2:3" then (512, 768)
    else if ratio == "1:1" then (640, 640)
    else (640, 640)
  }

  /** `parts.join(sep)`. */
  function Join(parts: seq<string>, sep: char): string
    requires |parts| >= 1
  {
    if |parts| == 1 then parts[0] else parts[0] + [sep] + Join(parts[1..], sep)
  }

  /** `s.split(sep)` for a one-character separator. */
  function SplitOn(s: string, sep: char): (parts: seq<string>)
    ensures |parts| >= 1
    ensures forall i :: 0 <= i < |parts| ==> sep !in parts[i]
    ensures Join(parts, sep) == s
  {
    if s == [] then [""]
    else
      var rest := SplitOn(s[1..], sep);
      if s[0] == sep then [""] + rest
      else [[s[0]] + rest[0]] + rest[1..]
  }

  /** `const [genre, style] = combo?.split('#') || []`: the first two parts, when they exist. */
  function GenreStyleParts(combo: Option<string>): seq<string>
  {
    if combo.None? then [] else SplitOn(combo.value, '#')
  }

  /** Part `i` of a destructured split, with `|| fallback` applied. */
  function PartOr(parts: seq<string>, i: nat, fallback: string): string
  {
    if i < |parts| then OrString(Some(parts[i]), fallback) else fallback
  }

  /** The request built by the `queue` handler of src/Index.ts. */
  function BuildGenRequest(o: QueueOptions): (r: GenRequest)
    ensures r.prompt == o.prompt && r.id.None?
    ensures !r.admin && !r.alternateMode
    ensures r.lightingFilter == "chaotic-composition"
    ensures r.lightingFilterColor == "#000000" && r.lightingFilterNegativeColor == "#ebebeb"
    ensures r.fast <==> o.turbo == Some(true)
    ensures r.aspectRatio.Some? && r.aspectRatio.value != ""
    ensures o.aspectRatio.Some? && o.aspectRatio.value != "" ==> r.aspectRatio == o.aspectRatio
    ensures o.aspectRatio.None? || o.aspectRatio.value == "" ==> r.aspectRatio == Some("1:1")
    ensures r.width == 768 && r.height == 512 <==> r.aspectRatio == Some("3:2")
    ensures r.width == 512 && r.height == 768 <==> r.aspectRatio == Some("2:3")
    ensures r.width == 640 && r.height == 640 <==> r.aspectRatio != Some("3:2") && r.aspectRatio != Some("2:3")
    ensures r.count != 0 && r.detailPassStrength != 0 && r.lightingFilterStrength != 0 && r.saturation != 0
    ensures o.count.Some? && o.count.value != 0 ==> r.count == o.count.value
    ensures o.count.None? || o.count.value == 0 ==> r.count == 1
    ensures o.highFrequencyDetail.None? || o.highFrequencyDetail.value == 0 ==> r.detailPassStrength == 50
    ensures o.samplerStrength.None? || o.samplerStrength.value == 0 ==> r.lightingFilterStrength == 50
    ensures o.saturation.None? || o.saturation.value == 0 ==> r.saturation == 50
    ensures o.highFrequencyDetail.Some? && o.highFrequencyDetail.value != 0 ==> r.detailPassStrength == o.highFrequencyDetail.value
    ensures o.samplerStrength.Some? && o.samplerStrength.value != 0 ==> r.lightingFilterStrength == o.samplerStrength.value
    ensures o.saturation.Some? && o.saturation.value != 0 ==> r.saturation == o.saturation.value
    ensures o.negativePrompt.Some? && o.negativePrompt.value != "" ==> r.negativePrompt == o.negativePrompt.value
    ensures o.negativePrompt.None? || o.negativePrompt.value == "" ==> r.negativePrompt == DefaultNegativePrompt
    ensures r.genre != "" && '#' !in r.genre
    ensures r.style != "" && '#' !in r.style
    ensures o.style.None? ==> r.genre == DefaultGenre && r.style == DefaultGenre
  {
    var ratio := OrString(o.aspectRatio, DefaultAspectRatio);
    var (width, height) := AspectDims(ratio);
    var parts := GenreStyleParts(o.style);
    GenRequest(
      admin := false,
      alternateMode := false,
      aspectRatio := Some(ratio),
      count := OrNumber(o.count, 1),
      detailPassStrength := OrNumber(o.highFrequencyDetail, DefaultStrength),
      fast := o.turbo == Some(true),
      genre := PartOr(parts, 0, DefaultGenre),
      height := height,
      lightingFilter := "chaotic-composition",
      lightingFilterColor := "#000000",
      lightingFilterNegativeColor := "#ebebeb",
      lightingFilterStrength := OrNumber(o.samplerStrength, DefaultStrength),
      negativePrompt := OrString(o.negativePrompt, DefaultNegativePrompt),
      prompt := o.prompt,
      saturation := OrNumber(o.saturation, DefaultStrength),
      style := PartOr(parts, 1, DefaultGenre),
      width := width,
      id := None)
  }

  /**
    The request built by the `queue` handler of src/index.ts: the same
    defaults, except that the aspect ratio is not defaulted, so the
    `aspect_ratio` field is whatever the option held (possibly undefined),
    and an undefined ratio looks up no entry of the table.
   */
  function BuildLegacyGenRequest(o: QueueOptions): (r: GenRequest)
    ensures r.aspectRatio == o.aspectRatio
  {
    var (width, height) := if o.aspectRatio.Some? then AspectDims(o.aspectRatio.value) else (640, 640);
    var parts := GenreStyleParts(o.style);
    GenRequest(
      admin := false,
      alternateMode := false,
      aspectRatio := o.aspectRatio,
      count := OrNumber(o.count, 1),
      detailPassStrength := OrNumber(o.highFrequencyDetail, DefaultStrength),
      fast := o.turbo == Some(true),
      genre := PartOr(parts, 0, DefaultGenre),
      height := height,
      lightingFilter := "chaotic-composition",
      lightingFilterColor := "#000000",
      lightingFilterNegativeColor := "#ebebeb",
      lightingFilterStrength := OrNumber(o.samplerStrength, DefaultStrength),
      negativePrompt := OrString(o.negativePrompt, DefaultNegativePrompt),
      prompt := o.prompt,
      saturation := OrNumber(o.saturation, DefaultStrength),
      style := PartOr(parts, 1, DefaultGenre),
      width := width,
      id := None)
  }

  /** A string without the separator splits into itself alone. */
  lemma {:induction false} SplitWithoutSeparator(s: string, sep: char)
    requires sep !in s
    ensures SplitOn(s, sep) == [s]
  {
    if s != [] {
      SplitWithoutSeparator(s[1..], sep);
      assert s == [s[0]] + s[1..];
    }
  }

  /** The first part of a split is the text before the first separator. */
  lemma {:induction false} SplitAtFirstSeparator(a: string, b: string, sep: char)
    requires sep !in a
    ensures SplitOn(a + [sep] + b, sep) == [a] + SplitOn(b, sep)
  {
    if a == [] {
      assert [sep] + b == a + [sep] + b;
      assert ([sep] + b)[1..] == b;
    } else {
      SplitAtFirstSeparator(a[1..], b, sep);
      assert (a + [sep] + b)[1..] == a[1..] + [sep] + b;
      assert a == [a[0]] + a[1..];
    }
  }

  /** Splitting undoes joining parts that do not contain the separator. */
  lemma {:induction false} SplitJoin(parts: seq<string>, sep: char)
    requires |parts| >= 1
    requires forall i :: 0 <= i < |parts| ==> sep !in parts[i]
    ensures SplitOn(Join(parts, sep), sep) == parts
  {
    if |parts| == 1 {
      SplitWithoutSeparator(parts[0], sep);
    } else {
      SplitJoin(parts[1..], sep);
      SplitAtFirstSeparator(parts[0], Join(parts[1..], sep), sep);
      assert parts == [parts[0]] + parts[1..];
    }
  }

  /**
    A `genre#style` option value: the genre is the text before the first
    `#`, the style the text after it up to any further `#`, and an empty
    piece falls back to the default.
   */
  lemma GenreStyleFromOption(o: QueueOptions, genre: string, rest: string)
    requires '#' !in genre
    requires o.style == Some(genre + "#" + rest)
    ensures BuildGenRequest(o).genre == OrString(Some(genre), DefaultGenre)
    ensures BuildGenRequest(o).style == OrString(Some(SplitOn(rest, '#')[0]), DefaultGenre)
  {
    SplitAtFirstSeparator(genre, rest, '#');
  }

  /**
    A `style` value without `#` is all genre: the style falls back to the
    default, and so does the genre when the value is empty.
   */
  lemma StyleWithoutSeparator(o: QueueOptions, value: string)
    requires '#' !in value
    requires o.style == Some(value)
    ensures BuildGenRequest(o).genre == OrString(Some(value), DefaultGenre)
    ensures BuildGenRequest(o).style == DefaultGenre
  {
    SplitWithoutSeparator(value, '#');
  }

  /** Each choice the `style` option offers yields its genre and style unchanged. */
  lemma {:induction false} StyleChoiceRoundTrip(o: QueueOptions, genre: string, style: string)
    requires genre != "" && '#' !in genre
    requires style != "" && '#' !in style
    requires o.style == Some(genre + "#" + style)
    ensures BuildGenRequest(o).genre == genre && BuildGenRequest(o).style == style
  {
    GenreStyleFromOption(o, genre, style);
    SplitWithoutSeparator(style, '#');
  }

  /** Options within the declared ranges give a request within the same ranges, never 0. */
  lemma BuiltRequestWithinBounds(o: QueueOptions)
    requires WithinOptionBounds(o)
    ensures 1 <= BuildGenRequest(o).count <= 4
    ensures 1 <= BuildGenRequest(o).detailPassStrength <= 100
    ensures 1 <= BuildGenRequest(o).lightingFilterStrength <= 100
    ensures 1 <= BuildGenRequest(o).saturation <= 100
  {
  }

  /**
    The earlier builder differs from the current one only in the
    `aspect_ratio` field: the dimensions agree for every input, because an
    undefined or empty ratio and "1:1" all give 640 x 640.
   */
  lemma LegacyBuilderAgrees(o: QueueOptions)
    ensures BuildLegacyGenRequest(o) == BuildGenRequest(o).(aspectRatio := o.aspectRatio)
  {
  }
}
