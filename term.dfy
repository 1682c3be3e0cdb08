/** The terminal glue of the webrender backend: the frame-parameter handler
    table, glyph-string dispatch and the baseline arithmetic of character
    drawing, flushing, the kboard reference count, and the display-info
    fields set when a terminal is initialised. */
module Term {
  import opened Wrappers
  import opened Lisp
  import RustInt
  import Keyboard
  import Output
  import Font

  // ------------------------------------------------------- handler table

  /** The two frame-parameter handlers the backend supports. */
  datatype FrameParmHandler = SetFont | SetFontBackend

  const FRAME_PARM_COUNT: nat := 45
  /** The slots of `font` and `font-backend` in the host's frame_parms order. */
  const FONT_SLOT: nat := 7
  const FONT_BACKEND_SLOT: nat := 33

  /** A run of unsupported slots. */
  function Unsupported(n: nat): (slots: seq<Option<FrameParmHandler>>)
    ensures |slots| == n && forall i :: 0 <= i < n ==> slots[i] == None
  {
    seq(n, _ => None)
  }

  /** `get_frame_parm_handlers`: 45 slots, all unsupported except the font
      slot and the font-backend slot. */
  function FrameParmHandlers(): (handlers: seq<Option<FrameParmHandler>>)
    ensures |handlers| == FRAME_PARM_COUNT
    ensures handlers[FONT_SLOT] == Some(SetFont)
    ensures handlers[FONT_BACKEND_SLOT] == Some(SetFontBackend)
    ensures forall i :: 0 <= i < |handlers| && i != FONT_SLOT && i != FONT_BACKEND_SLOT ==> handlers[i] == None
  {
    Unsupported(FONT_SLOT) + [Some(SetFont)]
      + Unsupported(FONT_BACKEND_SLOT - FONT_SLOT - 1) + [Some(SetFontBackend)]
      + Unsupported(FRAME_PARM_COUNT - FONT_BACKEND_SLOT - 1)
  }

  /** Exactly two parameters have handlers. */
  lemma SupportedSlots(i: nat)
    requires i < FRAME_PARM_COUNT
    ensures FrameParmHandlers()[i].Some? <==> i == FONT_SLOT || i == FONT_BACKEND_SLOT
  {
  }

  // -------------------------------------------------------------- kboard

  /** The host's keyboard record, by the one field the backend touches. */
  class Kboard {
    var referenceCount: int

    constructor (referenceCount: int)
      ensures this.referenceCount == referenceCount
    {
      this.referenceCount := referenceCount;
    }

    /** `add_ref`. */
    method AddRef()
      modifies this
      ensures referenceCount == old(referenceCount) + 1
    {
      referenceCount := referenceCount + 1;
    }
  }

  /** The host's globals `current_kboard` and `initial_kboard`. */
  class KboardGlobals {
    var current: Kboard
    const initial: Kboard

    constructor (current: Kboard, initial: Kboard)
      ensures this.current == current && this.initial == initial
    {
      this.current := current;
      this.initial := initial;
    }
  }

  // ------------------------------------------------------------- drawing

  /** The y the driver's draw gets in `draw_char_glyph_string`:
      `s.y + (ascent + (s.height - font.height) / 2)`, with Rust's division
      truncating toward zero. */
  function YStart(sy: int, ascent: int, rowHeight: int, fontHeight: int): (y: int)
    ensures RustInt.Abs(2 * (y - sy - ascent) - (rowHeight - fontHeight)) <= 1
    ensures rowHeight >= fontHeight ==> 0 <= 2 * (y - sy - ascent) <= rowHeight - fontHeight
    ensures rowHeight < fontHeight ==> rowHeight - fontHeight <= 2 * (y - sy - ascent) <= 0
  {
    sy + (ascent + RustInt.TruncDiv(rowHeight - fontHeight, 2))
  }

  /** A font taller than its row by an odd amount (here 3) moves the
      baseline by the truncated half (-1), not the floored one (-2). */
  lemma YStartTruncates()
    ensures YStart(0, 10, 17, 20) == 9
    ensures (17 - 20) / 2 == -2
  {
    assert RustInt.TruncDiv(-3, 2) == -1;
  }

  /** `draw_char_glyph_string`: call the font's driver draw on all the
      string's characters, at the string's x and the centred baseline, with
      background. */
  method DrawCharGlyphString(output: Output.Output, s: Font.GlyphString, windowSize: Output.LayoutSize,
                             fontInstance: Output.FontInstanceKey, dimensions: seq<Option<real>>)
    requires output.Valid()
    requires s.font.driver == Font.WrDriver
    requires |dimensions| == |s.chars|
    modifies output
    ensures output.Valid() && output.IsOpen()
    ensures var b := Output.OpenBuilder(old(output.displayListBuilder), windowSize);
      var y := YStart(s.y, old(s.font.ascent), s.height, old(s.font.height));
      output.displayListBuilder == Some(b.(items := b.items
        + Font.DrawItems(s, Font.Positioned(s.chars, dimensions, s.x, y), fontInstance, true)))
    ensures output.currentTxn == Some(Output.OpenTxn(old(output.currentTxn)))
    ensures output.fontPixelSize == old(output.fontPixelSize) && output.fontset == old(output.fontset)
    ensures output.framesPresented == old(output.framesPresented)
  {
    var xStart := s.x;
    var yStart := YStart(s.y, s.font.ascent, s.height, s.font.height);
    assert s.chars[0..|s.chars|] == s.chars;
    var _ := Font.Draw(output, s, 0, |s.chars|, xStart, yStart, true, windowSize, fontInstance, dimensions);
  }

  /** `draw_glyph_string`: character glyph strings are drawn, every other
      kind is ignored. */
  method DrawGlyphString(output: Output.Output, s: Font.GlyphString, windowSize: Output.LayoutSize,
                         fontInstance: Output.FontInstanceKey, dimensions: seq<Option<real>>)
    requires output.Valid()
    requires s.firstGlyphType == Font.CharGlyph ==> s.font.driver == Font.WrDriver && |dimensions| == |s.chars|
    modifies output
    ensures output.Valid()
    ensures s.firstGlyphType != Font.CharGlyph ==> unchanged(output)
    ensures s.firstGlyphType == Font.CharGlyph ==>
      var b := Output.OpenBuilder(old(output.displayListBuilder), windowSize);
      var y := YStart(s.y, old(s.font.ascent), s.height, old(s.font.height));
      output.displayListBuilder == Some(b.(items := b.items
        + Font.DrawItems(s, Font.Positioned(s.chars, dimensions, s.x, y), fontInstance, true)))
    ensures s.firstGlyphType == Font.CharGlyph ==>
      && output.currentTxn == Some(Output.OpenTxn(old(output.currentTxn)))
      && output.fontPixelSize == old(output.fontPixelSize) && output.fontset == old(output.fontset)
      && output.framesPresented == old(output.framesPresented)
  {
    match s.firstGlyphType
    case CharGlyph =>
      DrawCharGlyphString(output, s, windowSize, fontInstance, dimensions);
    case _ =>
  }

  /** `flush_display`: flush the frame's output. */
  method FlushDisplay(output: Output.Output, windowSize: Output.LayoutSize)
    requires output.Valid()
    modifies output, output.renderApi
    ensures output.Valid() && !output.IsOpen()
    ensures old(output.IsOpen()) ==>
      output.renderApi.sent == old(output.renderApi.sent)
        + [Output.Submission(output.documentId,
             Output.FrameTransaction(old(output.currentTxn.value), old(output.displayListBuilder.value), windowSize))]
    ensures !old(output.IsOpen()) ==> output.renderApi.sent == old(output.renderApi.sent)
    ensures output.framesPresented == old(output.framesPresented) + if old(output.IsOpen()) then 1 else 0
    ensures output.renderApi.nextKeyId == old(output.renderApi.nextKeyId)
    ensures output.fontPixelSize == old(output.fontPixelSize) && output.fontset == old(output.fontset)
  {
    output.Flush(windowSize);
  }

  /** Drawing a character glyph string on a frame with nothing open, then
      flushing, submits one frame transaction whose display list is exactly
      what the draw pushed; the font key counter is untouched. */
  method DrawThenFlush(output: Output.Output, s: Font.GlyphString, windowSize: Output.LayoutSize,
                       fontInstance: Output.FontInstanceKey, dimensions: seq<Option<real>>)
    requires output.Valid() && !output.IsOpen()
    requires s.firstGlyphType == Font.CharGlyph && s.font.driver == Font.WrDriver && |dimensions| == |s.chars|
    modifies output, output.renderApi
    ensures var y := YStart(s.y, old(s.font.ascent), s.height, old(s.font.height));
      var items := Font.DrawItems(s, Font.Positioned(s.chars, dimensions, s.x, y), fontInstance, true);
      output.renderApi.sent == old(output.renderApi.sent)
        + [Output.Submission(output.documentId,
             Output.FrameTransaction([], Output.DisplayListBuilder(Output.ROOT_PIPELINE, windowSize, items), windowSize))]
    ensures output.framesPresented == old(output.framesPresented) + 1
    ensures output.renderApi.nextKeyId == old(output.renderApi.nextKeyId)
  {
    ghost var items := Font.DrawItems(s, Font.Positioned(s.chars, dimensions, s.x,
      YStart(s.y, s.font.ascent, s.height, s.font.height)), fontInstance, true);
    DrawGlyphString(output, s, windowSize, fontInstance, dimensions);
    assert [] + items == items;
    assert output.displayListBuilder == Some(Output.DisplayListBuilder(Output.ROOT_PIPELINE, windowSize, items));
    assert output.currentTxn == Some([]);
    FlushDisplay(output, windowSize);
  }

  // -------------------------------------------------------- wr_term_init

  /** The backend's display info, with its inner record's keyboard
      processor and terminal link. */
  class DisplayInfo {
    var nameListElement: LispObject
    var smallestFontHeight: int
    var smallestCharWidth: int
    var resx: real
    var resy: real
    var terminal: Option<Terminal>
    const keyboardProcessor: Keyboard.KeyboardProcessor

    /** `DisplayInfo::new`: zeroed fields and a fresh keyboard processor. */
    constructor ()
      ensures nameListElement == Nil && smallestFontHeight == 0 && smallestCharWidth == 0
      ensures resx == 0.0 && resy == 0.0 && terminal == None
      ensures fresh(keyboardProcessor)
      ensures keyboardProcessor.modifiers == Keyboard.EMPTY_MODIFIERS && !keyboardProcessor.suppressChars
    {
      nameListElement := Nil;
      smallestFontHeight, smallestCharWidth := 0, 0;
      resx, resy := 0.0, 0.0;
      terminal := None;
      keyboardProcessor := new Keyboard.KeyboardProcessor();
    }
  }

  /** The host's terminal, by the fields the backend sets. */
  class Terminal {
    var displayInfo: Option<DisplayInfo>
    var kboard: Option<Kboard>
    var name: string

    /** The empty terminal the host's `create_terminal` returns. */
    constructor ()
      ensures displayInfo == None && kboard == None && name == ""
    {
      displayInfo := None;
      kboard := None;
      name := "";
    }
  }

  /** `wr_term_init`: make the display info and its terminal, link them,
      give the terminal the new kboard (making it current if the initial
      kboard still is), count the terminal's reference to it, and set the
      display's name list, smallest font sizes and resolution. `kboard` is
      the host's freshly allocated kboard. */
  method WrTermInit(displayName: LispObject, kboard: Kboard, globals: KboardGlobals)
    returns (dpyinfo: DisplayInfo)
    requires displayName.Str?
    modifies kboard, globals
    ensures fresh(dpyinfo) && dpyinfo.terminal.Some? && fresh(dpyinfo.terminal.value)
    ensures var terminal := dpyinfo.terminal.value;
      && terminal.displayInfo == Some(dpyinfo)
      && terminal.kboard == Some(kboard)
      && terminal.name == displayName.s
    ensures globals.current == (if old(globals.current) == globals.initial then kboard else old(globals.current))
    ensures kboard.referenceCount == old(kboard.referenceCount) + 1
    ensures dpyinfo.nameListElement == Cons(displayName, Nil)
    ensures dpyinfo.smallestFontHeight == 1 && dpyinfo.smallestCharWidth == 1
    ensures dpyinfo.resx == 1.0 && dpyinfo.resy == 1.0
    ensures dpyinfo.keyboardProcessor.modifiers == Keyboard.EMPTY_MODIFIERS && !dpyinfo.keyboardProcessor.suppressChars
  {
    dpyinfo := new DisplayInfo();
    var terminal := new Terminal();
    terminal.displayInfo := Some(dpyinfo);
    dpyinfo.terminal := Some(terminal);
    terminal.kboard := Some(kboard);
    if globals.current == globals.initial {
      globals.current := kboard;
    }
    kboard.AddRef();
    dpyinfo.nameListElement := Cons(displayName, Nil);
    dpyinfo.smallestFontHeight := 1;
    dpyinfo.smallestCharWidth := 1;
    dpyinfo.resx := 1.0;
    dpyinfo.resy := 1.0;
    terminal.name := displayName.s;
  }
}
