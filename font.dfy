/** The decision logic of the webrender font driver: how a font spec's
    family names a system family, how matched fonts become font entities,
    how `open` picks a pixel size and fills in the font's metrics, how a
    character is encoded to a glyph, where `draw` places glyphs, and what
    `text_extents` reports. The system font library and the renderer are
    inputs: their answers are parameters. */
module Font {
  import opened Wrappers
  import opened Lisp
  import RustInt
  import Color
  import Output

  // ---------------------------------------------------------------- family

  /** font-kit's `FamilyName`. */
  datatype FamilyName = Serif | SansSerif | Monospace | Cursive | Fantasy | Title(name: string)

  /** The five family names that stand for a generic family. */
  predicate IsGenericName(s: string)
  {
    s == "Serif" || s == "Sans Serif" || s == "Monospace" || s == "Cursive" || s == "Fantasy"
  }

  /** The text a family is spelled by in a font spec. */
  function FamilyText(f: FamilyName): string
  {
    match f
    case Serif => "Serif"
    case SansSerif => "Sans Serif"
    case Monospace => "Monospace"
    case Cursive => "Cursive"
    case Fantasy => "Fantasy"
    case Title(name) => name
  }

  /** `get_family` of a spec's family slot: nil names no family; the five
      generic names (case-sensitively) name the generic families; any other
      symbol or string names the family of that title. */
  function GetFamily(family: LispObject): (r: Option<FamilyName>)
    requires family.Nil? || IsSymbolOrString(family)
    ensures r.None? <==> family.Nil?
    ensures r.Some? ==> FamilyText(r.value) == NameOf(family)
    ensures r.Some? ==> (r.value.Title? <==> !IsGenericName(NameOf(family)))
  {
    if family.Nil? then None
    else
      var s := NameOf(family);
      if s == "Serif" then Some(Serif)
      else if s == "Sans Serif" then Some(SansSerif)
      else if s == "Monospace" then Some(Monospace)
      else if s == "Cursive" then Some(Cursive)
      else if s == "Fantasy" then Some(Fantasy)
      else Some(Title(s))
  }

  /** Spelling a family and reading it back gives the family, except for a
      title that happens to be a generic name. */
  lemma GetFamilyOfText(f: FamilyName)
    requires !(f.Title? && IsGenericName(f.name))
    ensures GetFamily(Str(FamilyText(f))) == Some(f)
    ensures GetFamily(Sym(FamilyText(f))) == Some(f)
  {
  }

  /** Matching is case-sensitive: "serif" is a title, not the generic family. */
  lemma GetFamilyIsCaseSensitive()
    ensures GetFamily(Str("serif")) == Some(Title("serif"))
    ensures GetFamily(Str("Sans Serif")) == Some(SansSerif)
  {
  }

  // ---------------------------------------------------------- weight, slant

  /** The host's style symbols for weight and slant (`normal` serves both). */
  datatype StyleSymbol = ExtraLight | Light | Normal | SemiBold | Bold | ExtraBold | UltraBold | Italic | Oblique

  // font-kit's named weights.
  const WEIGHT_EXTRA_LIGHT: real := 200.0
  const WEIGHT_LIGHT: real := 300.0
  const WEIGHT_NORMAL: real := 400.0
  const WEIGHT_MEDIUM: real := 500.0
  const WEIGHT_SEMIBOLD: real := 600.0
  const WEIGHT_BOLD: real := 700.0
  const WEIGHT_EXTRA_BOLD: real := 800.0
  const WEIGHT_BLACK: real := 900.0

  /** The bucketing in `match_`, branch by branch. */
  function WeightSymbol(weight: real): (s: StyleSymbol)
    ensures s != Italic && s != Oblique
  {
    if weight <= WEIGHT_EXTRA_LIGHT then ExtraLight
    else if weight <= WEIGHT_LIGHT then Light
    else if weight <= WEIGHT_NORMAL then Normal
    else if weight <= WEIGHT_MEDIUM then SemiBold
    else if weight <= WEIGHT_SEMIBOLD then SemiBold
    else if weight <= WEIGHT_BOLD then Bold
    else if weight <= WEIGHT_EXTRA_BOLD then ExtraBold
    else if weight <= WEIGHT_BLACK then UltraBold
    else UltraBold
  }

  /** The order of the weight symbols, lightest first. */
  function WeightRank(s: StyleSymbol): nat
  {
    match s
    case ExtraLight => 0
    case Light => 1
    case Normal => 2
    case SemiBold => 3
    case Bold => 4
    case ExtraBold => 5
    case UltraBold => 6
    case _ => 0
  }

  /** The buckets as closed intervals: each symbol is given exactly to the
      weights in its range. Medium weights get `semi-bold`. */
  lemma WeightBuckets(w: real)
    ensures WeightSymbol(w) == ExtraLight <==> w <= 200.0
    ensures WeightSymbol(w) == Light <==> 200.0 < w <= 300.0
    ensures WeightSymbol(w) == Normal <==> 300.0 < w <= 400.0
    ensures WeightSymbol(w) == SemiBold <==> 400.0 < w <= 600.0
    ensures WeightSymbol(w) == Bold <==> 600.0 < w <= 700.0
    ensures WeightSymbol(w) == ExtraBold <==> 700.0 < w <= 800.0
    ensures WeightSymbol(w) == UltraBold <==> 800.0 < w
    ensures WeightSymbol(WEIGHT_MEDIUM) == SemiBold
  {
  }

  /** A heavier font never gets a lighter symbol. */
  lemma WeightSymbolMonotone(w1: real, w2: real)
    requires w1 <= w2
    ensures WeightRank(WeightSymbol(w1)) <= WeightRank(WeightSymbol(w2))
  {
  }

  /** font-kit's `Style`. */
  datatype Style = StyleNormal | StyleItalic | StyleOblique

  function SlantSymbol(style: Style): (s: StyleSymbol)
    ensures style == StyleNormal ==> s == Normal
    ensures style == StyleItalic ==> s == Italic
    ensures style == StyleOblique ==> s == Oblique
  {
    match style
    case StyleNormal => Normal
    case StyleItalic => Italic
    case StyleOblique => Oblique
  }

  /** Distinct styles get distinct slant symbols. */
  lemma SlantSymbolInjective(a: Style, b: Style)
    ensures SlantSymbol(a) == SlantSymbol(b) ==> a == b
  {
  }

  // ----------------------------------------------------------------- match

  /** One entry of a font's extra-properties association list. */
  datatype ExtraProperty = ExtraProperty(key: LispObject, value: LispObject)

  /** The slots of a font spec, entity or object that the driver reads or
      sets. Weight and slant hold the symbols before the host's
      `font_style_to_value` turns them into numbers. */
  datatype FontLike = FontLike(
    fontType: LispObject,
    family: LispObject,
    weight: Option<StyleSymbol>,
    slant: Option<StyleSymbol>,
    size: LispObject,
    extra: seq<ExtraProperty>)

  /** The `type` slot of the driver's fonts: the symbol `wr`. */
  const QWR: LispObject := Sym("wr")

  const POSTSCRIPT_NAME_KEY: LispObject := Str(":postscript-name")

  /** A font that font-kit found and loaded, by the properties read here. */
  datatype LoadedFont = LoadedFont(familyName: string, weight: real, style: Style, postscriptName: Option<string>)

  /** `match_` faults on a font without a PostScript name. */
  predicate AllNamed(fonts: seq<LoadedFont>)
  {
    forall i :: 0 <= i < |fonts| ==> fonts[i].postscriptName.Some?
  }

  /** The entity `match_` builds for one loaded font. */
  function EntityOf(f: LoadedFont): (e: FontLike)
    requires f.postscriptName.Some?
    ensures e.fontType == QWR && e.family == Sym(f.familyName)
    ensures e.weight == Some(WeightSymbol(f.weight)) && e.slant == Some(SlantSymbol(f.style))
    ensures e.extra == [ExtraProperty(POSTSCRIPT_NAME_KEY, Str(f.postscriptName.value))]
  {
    FontLike(QWR, Sym(f.familyName), Some(WeightSymbol(f.weight)), Some(SlantSymbol(f.style)), Nil,
             [ExtraProperty(POSTSCRIPT_NAME_KEY, Str(f.postscriptName.value))])
  }

  /** One entity per font, in the fonts' order. */
  function EntitiesOf(fonts: seq<LoadedFont>): (es: seq<FontLike>)
    requires AllNamed(fonts)
    ensures |es| == |fonts|
    ensures forall i :: 0 <= i < |fonts| ==> es[i] == EntityOf(fonts[i])
  {
    seq(|fonts|, i requires 0 <= i < |fonts| => EntityOf(fonts[i]))
  }

  lemma EntitiesOfSnoc(fonts: seq<LoadedFont>, i: nat)
    requires i < |fonts| && AllNamed(fonts)
    ensures AllNamed(fonts[..i]) && AllNamed(fonts[..i + 1])
    ensures EntitiesOf(fonts[..i + 1]) == EntitiesOf(fonts[..i]) + [EntityOf(fonts[i])]
  {
    assert AllNamed(fonts[..i + 1]);
    var a := EntitiesOf(fonts[..i + 1]);
    var b := EntitiesOf(fonts[..i]) + [EntityOf(fonts[i])];
    assert |a| == |b|;
    forall k | 0 <= k < |a| ensures a[k] == b[k] {
      assert fonts[..i + 1][k] == fonts[k];
    }
  }

  /** `Fnreverse` on a list. */
  function Reversed<T>(s: seq<T>): (r: seq<T>)
    ensures |r| == |s|
  {
    if s == [] then [] else Reversed(s[1..]) + [s[0]]
  }

  lemma {:induction false} ReversedSnoc<T>(s: seq<T>, x: T)
    ensures Reversed(s + [x]) == [x] + Reversed(s)
  {
    if s == [] {
      assert [x][1..] == [];
    } else {
      assert (s + [x])[1..] == s[1..] + [x];
      ReversedSnoc(s[1..], x);
    }
  }

  lemma {:induction false} ReversedReversed<T>(s: seq<T>)
    ensures Reversed(Reversed(s)) == s
  {
    if s != [] {
      ReversedSnoc(Reversed(s[1..]), s[0]);
      ReversedReversed(s[1..]);
    }
  }

  /** The fonts `match_` turns into entities: font-kit's fonts of the
      spec's family (`select`, already filtered to the fonts that
      loaded), or none when the spec has no family or font-kit finds none. */
  function SelectedFonts(spec: FontLike, select: FamilyName -> Option<seq<LoadedFont>>): (r: Option<seq<LoadedFont>>)
    requires spec.family.Nil? || IsSymbolOrString(spec.family)
    ensures spec.family.Nil? ==> r.None?
    ensures !spec.family.Nil? ==> r == select(GetFamily(spec.family).value)
  {
    var family := GetFamily(spec.family);
    if family.None? then None else select(family.value)
  }

  /** `match_`: cons one entity per selected font onto a list, then reverse
      the list, so the entities come out in the fonts' order; nil when no
      fonts were selected. */
  method Match(spec: FontLike, select: FamilyName -> Option<seq<LoadedFont>>) returns (entities: seq<FontLike>)
    requires spec.family.Nil? || IsSymbolOrString(spec.family)
    requires SelectedFonts(spec, select).Some? ==> AllNamed(SelectedFonts(spec, select).value)
    ensures SelectedFonts(spec, select).None? ==> entities == []
    ensures SelectedFonts(spec, select).Some? ==> entities == EntitiesOf(SelectedFonts(spec, select).value)
  {
    var family := GetFamily(spec.family);
    var fonts := if family.None? then None else select(family.value);
    match fonts
    case None =>
      entities := [];
    case Some(fs) =>
      var list: seq<FontLike> := [];
      var i := 0;
      while i < |fs|
        invariant 0 <= i <= |fs|
        invariant list == Reversed(EntitiesOf(fs[..i]))
      {
        var entity := EntityOf(fs[i]);
        EntitiesOfSnoc(fs, i);
        ReversedSnoc(EntitiesOf(fs[..i]), entity);
        list := [entity] + list;
        i := i + 1;
      }
      assert fs[..|fs|] == fs;
      ReversedReversed(EntitiesOf(fs));
      entities := Reversed(list);
  }

  /** `list` answers exactly as `match_` does. */
  method List(spec: FontLike, select: FamilyName -> Option<seq<LoadedFont>>) returns (entities: seq<FontLike>)
    requires spec.family.Nil? || IsSymbolOrString(spec.family)
    requires SelectedFonts(spec, select).Some? ==> AllNamed(SelectedFonts(spec, select).value)
    ensures SelectedFonts(spec, select).None? ==> entities == []
    ensures SelectedFonts(spec, select).Some? ==> entities == EntitiesOf(SelectedFonts(spec, select).value)
  {
    entities := Match(spec, select);
  }

  // ------------------------------------------------------------------ open

  const DEFAULT_PIXEL_SIZE: int := 9

  /** The pixel size `open` settles on: the entity's size when it is a
      fixnum, else the requested size; if that is 0, the frame's default
      font's size, or 9 when the frame has no font yet. */
  function ChosenPixelSize(entitySize: LispObject, requested: int, frameFont: Option<int>): (size: int)
    ensures entitySize.Fixnum? && entitySize.n != 0 ==> size == entitySize.n
    ensures !entitySize.Fixnum? && requested != 0 ==> size == requested
    ensures (if entitySize.Fixnum? then entitySize.n == 0 else requested == 0) ==>
      size == (if frameFont.Some? then frameFont.value else DEFAULT_PIXEL_SIZE)
  {
    var size := if entitySize.Fixnum? then entitySize.n else requested;
    if size == 0 then
      (if frameFont.Some? then frameFont.value else DEFAULT_PIXEL_SIZE)
    else
      size
  }

  /** The chosen size is 0 only when it fell back to a default font whose
      own size is 0. */
  lemma ChosenPixelSizeNonZero(entitySize: LispObject, requested: int, frameFont: Option<int>)
    requires frameFont.Some? ==> frameFont.value != 0
    ensures ChosenPixelSize(entitySize, requested, frameFont) != 0
  {
  }

  /** `Fassoc`: the value of the first entry whose key is `key`. */
  function Assoc(key: LispObject, alist: seq<ExtraProperty>): (r: Option<LispObject>)
    ensures r.None? <==> forall i :: 0 <= i < |alist| ==> alist[i].key != key
    ensures r.Some? ==> exists i :: 0 <= i < |alist| && alist[i] == ExtraProperty(key, r.value)
                                    && forall j :: 0 <= j < i ==> alist[j].key != key
  {
    if alist == [] then None
    else if alist[0].key == key then Some(alist[0].value)
    else
      var r := Assoc(key, alist[1..]);
      if r.Some? then
        var i :| 0 <= i < |alist[1..]| && alist[1..][i] == ExtraProperty(key, r.value)
                 && forall j :: 0 <= j < i ==> alist[1..][j].key != key;
        assert alist[i + 1] == ExtraProperty(key, r.value);
        r
      else
        r
  }

  /** The `:postscript-name` property of an entity, if it has one. */
  function PostscriptName(entity: FontLike): (r: Option<LispObject>)
    ensures r.None? <==> forall i :: 0 <= i < |entity.extra| ==> entity.extra[i].key != POSTSCRIPT_NAME_KEY
    ensures |entity.extra| > 0 && entity.extra[0].key == POSTSCRIPT_NAME_KEY ==> r == Some(entity.extra[0].value)
    ensures r.Some? ==> exists i :: 0 <= i < |entity.extra| && entity.extra[i] == ExtraProperty(POSTSCRIPT_NAME_KEY, r.value)
                                    && forall j :: 0 <= j < i ==> entity.extra[j].key != POSTSCRIPT_NAME_KEY
  {
    Assoc(POSTSCRIPT_NAME_KEY, entity.extra)
  }

  /** Every entity `match_` makes carries the PostScript name `open` needs,
      so opening it never signals the missing-name error. */
  lemma MatchedEntityHasPostscriptName(f: LoadedFont)
    requires f.postscriptName.Some?
    ensures PostscriptName(EntityOf(f)) == Some(Str(f.postscriptName.value))
  {
  }

  /** The metric values of the loaded font as the source's f32 arithmetic
      produces them for the chosen size, each already cast to i32:
      `advance(33).x * scale`, `scale * ascent`, `-scale * descent` and
      `scale * line_gap`, with scale = pixel size / units per em. */
  datatype ScaledMetrics = ScaledMetrics(averageWidth: int, ascent: int, descent: int, lineGap: int)

  /** A font the system source can select by PostScript name: its handle
      (to register it with the renderer) and its glyph table. */
  datatype SystemFont = SystemFont(handle: Output.FontHandle, glyphs: map<char, nat>)

  datatype FontDriver = NoDriver | WrDriver

  datatype OpenError = PostscriptNameMissing

  /** The host font object extended with the renderer's font key and the
      loaded font (here, its glyph table). */
  class WRFont {
    var fontType: LispObject
    var name: LispObject
    var pixelSize: int
    var averageWidth: int
    var ascent: int
    var descent: int
    var spaceWidth: int
    var height: int
    var driver: FontDriver
    var fontKey: Output.FontKey
    var glyphs: map<char, nat>

    /** The zeroed object the host's `font_make_object` allocates. */
    constructor ()
      ensures fontType == Nil && name == Nil && driver == NoDriver && glyphs == map[]
      ensures pixelSize == 0 && averageWidth == 0 && ascent == 0 && descent == 0
      ensures spaceWidth == 0 && height == 0
    {
      fontType, name := Nil, Nil;
      pixelSize, averageWidth, ascent, descent, spaceWidth, height := 0, 0, 0, 0, 0, 0;
      driver := NoDriver;
      fontKey := Output.FontKey(0, 0);
      glyphs := map[];
    }

    /** The metric assignments of `open`, in its order: space width copies
        the average width, height adds the line gap to ascent and descent. */
    method AssignMetrics(size: int, scaled: ScaledMetrics)
      modifies this
      ensures pixelSize == size
      ensures averageWidth == scaled.averageWidth && spaceWidth == averageWidth
      ensures ascent == scaled.ascent && descent == scaled.descent
      ensures height == scaled.lineGap + ascent + descent
      ensures fontType == old(fontType) && name == old(name) && driver == old(driver)
      ensures fontKey == old(fontKey) && glyphs == old(glyphs)
    {
      pixelSize := size;
      averageWidth := scaled.averageWidth;
      ascent := scaled.ascent;
      descent := scaled.descent;
      spaceWidth := averageWidth;
      height := scaled.lineGap + ascent + descent;
    }
  }

  /** `open`: choose the pixel size, make the font object, find the
      entity's PostScript name (signalling an error when it has none),
      register the font with the renderer under a fresh key, and assign the
      metric fields: space width is the average width, height is the line
      gap plus ascent plus descent. `source` is the system font source. */
  method Open(output: Output.Output, entity: FontLike, requested: int,
              source: map<string, SystemFont>, scaled: ScaledMetrics)
    returns (r: Result<WRFont, OpenError>)
    requires entity.family.Sym?
    requires PostscriptName(entity).Some? ==>
      PostscriptName(entity).value.Str? && PostscriptName(entity).value.s in source
    modifies output.renderApi
    ensures r.Err? <==> PostscriptName(entity).None?
    ensures r.Err? ==>
      output.renderApi.sent == old(output.renderApi.sent) && output.renderApi.nextKeyId == old(output.renderApi.nextKeyId)
    ensures r.Ok? ==>
      var f := r.value;
      var font := source[PostscriptName(entity).value.s];
      && fresh(f)
      && f.pixelSize == RustInt.WrapI32(ChosenPixelSize(entity.size, requested, output.fontPixelSize))
      && f.fontType == QWR && f.name == Str(entity.family.name)
      && f.averageWidth == scaled.averageWidth && f.spaceWidth == f.averageWidth
      && f.ascent == scaled.ascent && f.descent == scaled.descent
      && f.height == scaled.lineGap + f.ascent + f.descent
      && f.driver == WrDriver && f.glyphs == font.glyphs
      && f.fontKey == Output.FontKey(output.renderApi.namespace, old(output.renderApi.nextKeyId))
      && output.renderApi.nextKeyId == old(output.renderApi.nextKeyId) + 1
      && output.renderApi.sent == old(output.renderApi.sent)
           + [Output.Submission(output.documentId, [Output.AddFontOp(f.fontKey, font.handle)])]
  {
    var pixelSize := ChosenPixelSize(entity.size, requested, output.fontPixelSize);
    var fontObject := new WRFont();
    fontObject.fontType := QWR;
    fontObject.name := Str(entity.family.name);
    var val := PostscriptName(entity);
    if val.None? {
      return Err(PostscriptNameMissing);
    }
    var postscriptName := val.value.s;
    var font := source[postscriptName];
    var fontKey := output.AddFont(font.handle);
    fontObject.glyphs := font.glyphs;
    fontObject.AssignMetrics(RustInt.WrapI32(pixelSize), scaled);
    fontObject.driver := WrDriver;
    fontObject.fontKey := fontKey;
    r := Ok(fontObject);
  }

  /** A pixel size that fits in 32 bits is stored unchanged. */
  lemma StoredPixelSize(entitySize: LispObject, requested: int, frameFont: Option<int>)
    requires RustInt.InI32(ChosenPixelSize(entitySize, requested, frameFont))
    ensures RustInt.WrapI32(ChosenPixelSize(entitySize, requested, frameFont))
         == ChosenPixelSize(entitySize, requested, frameFont)
  {
  }

  /** Two successful opens register their fonts under distinct keys. */
  method OpenTwice(output: Output.Output, first: FontLike, second: FontLike, requested: int,
                   source: map<string, SystemFont>, scaled: ScaledMetrics)
    returns (a: Result<WRFont, OpenError>, b: Result<WRFont, OpenError>)
    requires first.family.Sym? && second.family.Sym?
    requires PostscriptName(first).Some? ==>
      PostscriptName(first).value.Str? && PostscriptName(first).value.s in source
    requires PostscriptName(second).Some? ==>
      PostscriptName(second).value.Str? && PostscriptName(second).value.s in source
    modifies output.renderApi
    ensures a.Ok? && b.Ok? ==> a.value != b.value && a.value.fontKey != b.value.fontKey
    ensures a.Ok? <==> PostscriptName(first).Some?
    ensures b.Ok? <==> PostscriptName(second).Some?
  {
    a := Open(output, first, requested, source, scaled);
    b := Open(output, second, requested, source, scaled);
  }

  // ----------------------------------------------------------- encode_char

  const FONT_INVALID_CODE: nat := 0xFFFF_FFFF

  predicate IsUnicodeScalar(v: int)
  {
    0 <= v < 0xD800 || 0xE000 <= v <= 0x10_FFFF
  }

  /** `char::from_u32`. */
  function CharFromU32(v: nat): (r: Option<char>)
    ensures r.Some? <==> IsUnicodeScalar(v)
    ensures r.Some? ==> r.value as int == v
  {
    if IsUnicodeScalar(v) then Some(v as char) else None
  }

  /** `encode_char`: the glyph of the character whose code is `c` (read as
      `u32`), or `FONT_INVALID_CODE` when `c` is no Unicode scalar value or
      the font has no glyph for it. */
  function EncodeChar(font: WRFont, c: int): (code: nat)
    requires RustInt.InI32(c)
    reads font
    ensures c < 0 || !IsUnicodeScalar(c) ==> code == FONT_INVALID_CODE
    ensures IsUnicodeScalar(c) && (c as char) in font.glyphs ==> code == font.glyphs[c as char]
    ensures IsUnicodeScalar(c) && (c as char) !in font.glyphs ==> code == FONT_INVALID_CODE
  {
    match CharFromU32(c % RustInt.TWO_32)
    case Some(ch) => if ch in font.glyphs then font.glyphs[ch] else FONT_INVALID_CODE
    case None => FONT_INVALID_CODE
  }

  // ------------------------------------------------------------------ draw

  /** The advance of a glyph whose dimensions the renderer may not know. */
  function Advance(dimension: Option<real>): (a: real)
    ensures dimension.None? ==> a == 0.0
    ensures dimension.Some? ==> a == dimension.value
  {
    if dimension.Some? then dimension.value else 0.0
  }

  /** Where glyph i starts: x plus the advances of the glyphs before it. */
  function StartX(x: real, dimensions: seq<Option<real>>, i: nat): (start: real)
    requires i <= |dimensions|
    ensures (forall k :: 0 <= k < i ==> dimensions[k].None?) ==> start == x
    ensures (forall k :: 0 <= k < i ==> Advance(dimensions[k]) >= 0.0) ==> start >= x
  {
    if i == 0 then x else StartX(x, dimensions, i - 1) + Advance(dimensions[i - 1])
  }

  /** The glyph instances of a run: glyph i is at (StartX(i), y). */
  function Positioned(indices: seq<nat>, dimensions: seq<Option<real>>, x: int, y: int): (gs: seq<Output.GlyphInstance>)
    requires |dimensions| == |indices|
    ensures |gs| == |indices|
    ensures forall i :: 0 <= i < |indices| ==>
      gs[i] == Output.GlyphInstance(indices[i], StartX(x as real, dimensions, i), y as real)
  {
    seq(|indices|, i requires 0 <= i < |indices| =>
      Output.GlyphInstance(indices[i], StartX(x as real, dimensions, i), y as real))
  }

  /** The positions form a prefix sum: the first glyph starts at x, each
      later one at the previous start plus the previous glyph's advance, all
      on the line y. */
  lemma PositionedSteps(indices: seq<nat>, dimensions: seq<Option<real>>, x: int, y: int)
    requires |dimensions| == |indices|
    ensures |indices| > 0 ==> Positioned(indices, dimensions, x, y)[0].x == x as real
    ensures forall i :: 0 < i < |indices| ==>
      Positioned(indices, dimensions, x, y)[i].x
        == Positioned(indices, dimensions, x, y)[i - 1].x + Advance(dimensions[i - 1])
    ensures forall i :: 0 <= i < |indices| ==> Positioned(indices, dimensions, x, y)[i].y == y as real
  {
    var gs := Positioned(indices, dimensions, x, y);
    forall i | 0 < i < |indices|
      ensures gs[i].x == gs[i - 1].x + Advance(dimensions[i - 1])
    {
      assert gs[i].x == StartX(x as real, dimensions, i);
      assert gs[i - 1].x == StartX(x as real, dimensions, i - 1);
    }
  }

  /** With no negative advance, glyphs never move left. */
  lemma {:induction false} StartXMonotone(x: real, dimensions: seq<Option<real>>, i: nat, j: nat)
    requires i <= j <= |dimensions|
    requires forall k :: 0 <= k < |dimensions| ==> Advance(dimensions[k]) >= 0.0
    ensures StartX(x, dimensions, i) <= StartX(x, dimensions, j)
  {
    if i < j {
      StartXMonotone(x, dimensions, i, j - 1);
    }
  }

  /** The loop of `draw`: each glyph starts where the previous one started
      plus the previous glyph's advance (0 when its dimensions are unknown). */
  method PlaceGlyphs(indices: seq<nat>, dimensions: seq<Option<real>>, x: int, y: int)
    returns (glyphInstances: seq<Output.GlyphInstance>)
    requires |dimensions| == |indices|
    ensures glyphInstances == Positioned(indices, dimensions, x, y)
  {
    glyphInstances := [];
    var i := 0;
    while i < |indices|
      invariant 0 <= i <= |indices| && |glyphInstances| == i
      invariant forall k :: 0 <= k < i ==>
        glyphInstances[k] == Output.GlyphInstance(indices[k], StartX(x as real, dimensions, k), y as real)
    {
      var previousCharWidth := if i == 0 then 0.0 else Advance(dimensions[i - 1]);
      var previousCharStart := if i == 0 then x as real else glyphInstances[i - 1].x;
      var start := previousCharStart + previousCharWidth;
      glyphInstances := glyphInstances + [Output.GlyphInstance(indices[i], start, y as real)];
      i := i + 1;
    }
  }

  /** The colours of a face, as packed pixels. */
  datatype Face = Face(foreground: bv64, background: bv64)

  /** The host's glyph types. */
  datatype GlyphType = CharGlyph | CompositeGlyph | GlyphlessGlyph | ImageGlyph | StretchGlyph | XwidgetGlyph

  /** The fields of a host glyph string the backend reads. */
  datatype GlyphString = GlyphString(
    x: int, y: int, width: int, height: int,
    chars: seq<nat>,
    font: WRFont,
    face: Face,
    firstGlyphType: GlyphType)

  function Bounds(s: GlyphString): (r: Output.LayoutRect)
    ensures r.x == s.x && r.y == s.y && r.width == s.width && r.height == s.height
  {
    Output.LayoutRect(s.x, s.y, s.width, s.height)
  }

  /** What `draw` pushes: the background rectangle when asked for, then
      the text, both over the glyph string's box. */
  function DrawItems(s: GlyphString, glyphs: seq<Output.GlyphInstance>, fontInstance: Output.FontInstanceKey,
                     withBackground: bool): (items: seq<Output.DisplayItem>)
    ensures |items| == if withBackground then 2 else 1
    ensures items[|items| - 1]
         == Output.Text(Bounds(s), Bounds(s), glyphs, fontInstance, Color.PixelChannels(s.face.foreground))
    ensures withBackground ==> items[0] == Output.Rect(Bounds(s), Color.PixelChannels(s.face.background))
  {
    var text := Output.Text(Bounds(s), Bounds(s), glyphs, fontInstance, Color.PixelChannels(s.face.foreground));
    if withBackground then [Output.Rect(Bounds(s), Color.PixelChannels(s.face.background)), text] else [text]
  }

  /** `draw`: place the glyphs `from..to` of the string and push them, into
      the frame's open display list (opening it if need be). The renderer
      supplies the font instance and the glyph dimensions. */
  method Draw(output: Output.Output, s: GlyphString, from: int, to: int, x: int, y: int, withBackground: bool,
              windowSize: Output.LayoutSize, fontInstance: Output.FontInstanceKey, dimensions: seq<Option<real>>)
    returns (drawn: int)
    requires output.Valid()
    requires 0 <= from <= to <= |s.chars|
    requires |dimensions| == to - from
    modifies output
    ensures drawn == 1
    ensures output.Valid() && output.IsOpen()
    ensures var b := Output.OpenBuilder(old(output.displayListBuilder), windowSize);
      output.displayListBuilder == Some(b.(items := b.items
        + DrawItems(s, Positioned(s.chars[from..to], dimensions, x, y), fontInstance, withBackground)))
    ensures output.currentTxn == Some(Output.OpenTxn(old(output.currentTxn)))
    ensures output.fontPixelSize == old(output.fontPixelSize) && output.fontset == old(output.fontset)
    ensures output.framesPresented == old(output.framesPresented)
  {
    var glyphIndices := s.chars[from..to];
    var glyphInstances := PlaceGlyphs(glyphIndices, dimensions, x, y);
    output.Display(windowSize, DrawItems(s, glyphInstances, fontInstance, withBackground), []);
    assert Output.OpenTxn(old(output.currentTxn)) + [] == Output.OpenTxn(old(output.currentTxn));
    drawn := 1;
  }

  // ---------------------------------------------------------- text_extents

  /** The host's `font_metrics` record (all `short`). */
  class FontMetrics {
    var lbearing: int
    var rbearing: int
    var width: int
    var ascent: int
    var descent: int
  }

  /** `text_extents`: the same metrics whatever the glyphs: bearings 10,
      and the font's average width, ascent and descent cast to i16. */
  method TextExtents(font: WRFont, code: seq<nat>, nglyphs: int, metrics: FontMetrics)
    modifies metrics
    ensures metrics.lbearing == 10 && metrics.rbearing == 10
    ensures metrics.width == RustInt.WrapI16(font.averageWidth)
    ensures metrics.ascent == RustInt.WrapI16(font.ascent)
    ensures metrics.descent == RustInt.WrapI16(font.descent)
  {
    metrics.lbearing := 10;
    metrics.rbearing := 10;
    metrics.width := RustInt.WrapI16(font.averageWidth);
    metrics.ascent := RustInt.WrapI16(font.ascent);
    metrics.descent := RustInt.WrapI16(font.descent);
  }
}
