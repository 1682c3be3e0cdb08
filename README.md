# A verified model of the webrender backend's core

The webrender backend draws an editor's frames with WebRender, loads fonts
through font-kit and reads input from the platform window. Most of it is
glue. This project models the parts that have behaviour of their own, one
Dafny module per source file:

- **Keyboard** (`keyboard.dfy`): the keyboard processor. Its state is the
  modifier flags and a "suppress characters" flag. It covers how character
  and key events become host `input_event` records, the undoing of
  control characters, and the translation of modifier flags into host
  modifier bits.
- **Color** (`color.dfy`): the integer layer of pixel packing, with three
  16-bit lanes in a 64-bit pixel and red lowest. Also the lookup of a
  colour token, which is either `#RRGGBB` or a case-insensitive name.
- **Texture** (`texture.dfy`): the texture table that the resource manager
  and the external-image handler share. It has insert/overwrite semantics
  and a lookup that needs a registered id. The sampled rectangle depends on
  the flip flag.
- **Output** (`output.dfy`): one output's single slot for a
  display-list builder and its transaction. `display` opens the slot
  lazily and adds to it. `flush` empties it and submits exactly one
  transaction. The render API is modelled as a log of submitted
  transactions plus a key counter.
- **Font** (`font.dfy`): the font driver's decisions:
  - family-name mapping;
  - weight and slant bucketing;
  - the order of matched entities;
  - pixel-size defaulting and metric fields in `open`;
  - the `encode_char` fallback;
  - glyph placement in `draw`;
  - the constant `text_extents`.
- **Term** (`term.dfy`): the terminal glue:
  - the 45-slot frame-parameter handler table;
  - glyph-string dispatch and the baseline arithmetic, which truncates toward zero;
  - flushing;
  - the kboard reference count;
  - the display-info fields that terminal initialisation sets.

Three helper modules: `Wrappers` (Option, Result), `Lisp` (the host Lisp
objects that are read or built) and `RustInt` (`as i16`/`as i32` casts
and Rust's truncating signed division).

The form of each module follows its source file:

- State that the source mutates is a class with `modifies` clauses: the
  keyboard processor, the shared texture table, the output's slot and the
  render API's log, the font object filled in by `open`, the font metrics
  record, the kboard, the display info and the terminal.
- `remove_control`, `to_emacs_modifiers`, the `match_` loop and the `draw`
  glyph loop are methods that follow the source's updates. Each is proved
  equal to a declarative function, and the lemmas are proved about that
  function.
- Pure code is functions.

Host facts that the source does not show are stated as constants:

- the modifier bits: meta `0x8000000`, ctrl `0x4000000`, shift
  `0x2000000`, super `0x0800000`;
- `FONT_INVALID_CODE = 0xFFFFFFFF`;
- the winit discriminants of Escape, Back and Return: 36, 74 and 75.

These values are assumptions of the model.

## Model

| member | source | states |
|---|---|---|
| Keyboard.Keystroke | rust_src/src/webrender_backend/keyboard.rs:28-40 | the event carries the given kind, code, modifiers and frame; x = y = 0, timestamp 0, arg nil |
| Keyboard.KeyName | rust_src/src/webrender_backend/keyboard.rs:124-131 | a key has a name iff it is Escape, Back or Return, named "escape", "backspace", "return" |
| Keyboard.LowByte | rust_src/src/webrender_backend/keyboard.rs:82 | `c as u8` is below 256, congruent to c modulo 256 (so it is c's low byte), and equals c when c already fits |
| Keyboard.Uncontrolled | rust_src/src/webrender_backend/keyboard.rs:81-95 | the un-controlled character is always a printable byte, 32 <= r < 256 |
| Keyboard.ModifierBits | rust_src/src/webrender_backend/keyboard.rs:97-114 | the mask sets no bit outside the four host modifier bits |
| Keyboard.KeyboardProcessor.constructor | rust_src/src/webrender_backend/keyboard.rs:16-21 | a new processor has no modifiers and does not suppress characters |
| Keyboard.KeyboardProcessor.ReceiveChar | rust_src/src/webrender_backend/keyboard.rs:23-43 | nothing while suppressed; otherwise an ASCII keystroke with the un-controlled character, the host mask of the current modifiers and the top frame; the state is not changed |
| Keyboard.KeyboardProcessor.KeyPressed | rust_src/src/webrender_backend/keyboard.rs:45-71 | an unnamed key yields nothing and leaves the flag; a named key sets the flag and yields a non-ASCII keystroke with the key code; modifiers unchanged |
| Keyboard.KeyboardProcessor.KeyReleased | rust_src/src/webrender_backend/keyboard.rs:73-75 | characters are no longer suppressed; modifiers unchanged |
| Keyboard.KeyboardProcessor.ChangeModifiers | rust_src/src/webrender_backend/keyboard.rs:77-79 | the modifiers are replaced and the flag is unchanged |
| Keyboard.KeyboardProcessor.RemoveControl | rust_src/src/webrender_backend/keyboard.rs:81-95 | the step-by-step byte arithmetic equals the key-by-key definition `Uncontrolled` |
| Keyboard.KeyboardProcessor.ToEmacsModifiers | rust_src/src/webrender_backend/keyboard.rs:97-114 | the sequence of `|=` updates equals the declarative mask `ModifierBits` |
| Keyboard.ModifierBitsPerFlag | rust_src/src/webrender_backend/keyboard.rs:100-111 | each host bit is set iff its platform flag is (alt gives meta) |
| Keyboard.ModifierBitsInjective | rust_src/src/webrender_backend/keyboard.rs:97-114 | the mask is 0 iff no flag is set, and distinct states give distinct masks |
| Keyboard.ModifierBitsIsUnion | rust_src/src/webrender_backend/keyboard.rs:97-114 | the mask of a state is the OR of the masks of its single flags |
| Keyboard.UncontrolledExamples | rust_src/src/webrender_backend/keyboard.rs:81-95 | ^A gives 'a', ^Z 'z', ^@ '@', ^[ '[', and 'a' stays 'a' |
| Keyboard.UncontrolledByByte | rust_src/src/webrender_backend/keyboard.rs:82-92 | only the low byte matters; bytes from 32 up are kept; a control byte b gives b+64, plus 32 when that is 'A'..'Z' |
| Keyboard.UncontrolledIdempotent | rust_src/src/webrender_backend/keyboard.rs:81-95 | applying the un-mapping twice is the same as once |
| Keyboard.UncontrolledNeverUpper | rust_src/src/webrender_backend/keyboard.rs:87-89 | no control byte decodes to an upper-case letter |
| Keyboard.SpecialKeySuppressesNextChar | rust_src/src/webrender_backend/keyboard.rs:23-75 | after Escape is pressed the next character is suppressed; after release it is delivered again |
| Color.PixelChannels | rust_src/src/webrender_backend/color.rs:13-21 | red, green and blue are lanes 0, 1, 2 and together spell the low 48 bits of the pixel |
| Color.Unpack | rust_src/src/webrender_backend/color.rs:14 | the four lanes, reassembled at bits 0, 16, 32 and 48, give back the pixel: the transmute loses nothing |
| Color.Pack | rust_src/src/webrender_backend/color.rs:29 | for 16-bit channels, red, green and blue land in lanes 0, 1 and 2, and lane 3 is 0 |
| Color.PackedLane0 | rust_src/src/webrender_backend/color.rs:29 | for 16-bit channels, lane 0 of the OR of `blue << 32`, `green << 16` and `red` is red |
| Color.PackedLane1 | rust_src/src/webrender_backend/color.rs:29 | for 16-bit channels, lane 1 of the OR of `blue << 32`, `green << 16` and `red` is green |
| Color.PackedLane2 | rust_src/src/webrender_backend/color.rs:29 | for 16-bit channels, lane 2 of the OR of `blue << 32`, `green << 16` and `red` is blue |
| Color.PackedLane3 | rust_src/src/webrender_backend/color.rs:29 | for 16-bit channels, lane 3 of the OR of `blue << 32`, `green << 16` and `red` is 0 |
| Color.PackUnpack | rust_src/src/webrender_backend/color.rs:24-30 | unpacking a packed pixel gives back the three channels with lane 3 = 0 |
| Color.UnpackPack | rust_src/src/webrender_backend/color.rs:13-30 | a pixel with lane 3 = 0 is the packing of its own channels |
| Color.WideGreenReachesBlue | rust_src/src/webrender_backend/color.rs:29 | a green wider than 16 bits is ORed into the blue lane |
| Color.HexDigitValue | rust_src/src/webrender_backend/color.rs:35-37 | a hex digit's value is below 16 |
| Color.HexByte | rust_src/src/webrender_backend/color.rs:35-37 | the byte of two hex digits has the first digit as its base-16 high digit and the second as its low digit |
| Color.LowerChar | rust_src/src/webrender_backend/color.rs:43 | 'A'..'Z' map to 'a'..'z' (code plus 32), every other character is kept |
| Color.ToLower | rust_src/src/webrender_backend/color.rs:43 | same length, lower-cased character by character |
| Color.Lookup | rust_src/src/webrender_backend/color.rs:32-46 | a `#` token yields the bytes of digits 1-2, 3-4, 5-6; a name yields the table entry of its lower-case form, and nothing iff that is not a key |
| Color.HexRoundTrip | rust_src/src/webrender_backend/color.rs:34-39 | every colour is recovered from its `#RRGGBB` spelling |
| Color.HexIgnoresTail | rust_src/src/webrender_backend/color.rs:35-37 | characters after the sixth digit do not affect the result |
| Color.HexDigitValueIgnoresCase | rust_src/src/webrender_backend/color.rs:35-37 | a hex digit and its lower-case form have the same value |
| Color.LookupIgnoresCase | rust_src/src/webrender_backend/color.rs:32-46 | any well-formed token and its lower-case form give the same result |
| Color.RedIgnoresCase | rust_src/src/webrender_backend/color.rs:40-45 | "Red" and "red" give the same colour |
| Color.HexExamples | rust_src/src/webrender_backend/color.rs:34-39 | "#FFFFFF" is (255,255,255) and "#000000" is (0,0,0) |
| Color.UnknownName | rust_src/src/webrender_backend/color.rs:40-45 | a name matching no key in any case gives nothing |
| Texture.TruncateId | rust_src/src/webrender_backend/texture.rs:98-101 | `as u32` keeps ids below 2^32 and drops a multiple of 2^32 otherwise |
| Texture.UvRect | rust_src/src/webrender_backend/texture.rs:103-107 | flipped: (0, h, w, 0); otherwise (0, 0, w, h) |
| Texture.UvFlipIsMirror | rust_src/src/webrender_backend/texture.rs:103-107 | the flipped rectangle is the vertical mirror of the unflipped one |
| Texture.TextureResourceManager.constructor | rust_src/src/webrender_backend/texture.rs:13-17 | a new manager owns a fresh empty table |
| Texture.TextureResourceManager.Insert | rust_src/src/webrender_backend/texture.rs:72-76 | the entry of the id is set or overwritten; every other entry is unchanged |
| Texture.TextureResourceManager.NewTexture | rust_src/src/webrender_backend/texture.rs:19-70 | returns the generated id, whose entry afterwards is exactly (size, flip) |
| Texture.TextureResourceManager.NewExternalImageHandler | rust_src/src/webrender_backend/texture.rs:78-84 | the new handler refers to the manager's own table |
| Texture.ExternalHandler.constructor | rust_src/src/webrender_backend/texture.rs:79-81 | the handler keeps the table it is given |
| Texture.ExternalHandler.Lock | rust_src/src/webrender_backend/texture.rs:92-113 | needs the truncated id in the table; the source is that native texture and the rectangle follows its flip flag |
| Texture.ExternalHandler.Unlock | rust_src/src/webrender_backend/texture.rs:114 | the table is unchanged |
| Texture.HandlerSeesLaterInsert | rust_src/src/webrender_backend/texture.rs:78-84 | a handler made before a texture is registered still locks it |
| Texture.InsertOverwrites | rust_src/src/webrender_backend/texture.rs:72-76 | a second insert replaces the first; ids equal modulo 2^32 lock the same entry |
| Output.Finalize | rust_src/src/webrender_backend/output.rs:169 | the built list holds exactly the pushed items for the builder's pipeline |
| Output.AddFontOp | rust_src/src/webrender_backend/output.rs:190-201 | a path handle becomes a native font, a memory handle a raw font, under the key |
| Output.FrameTransaction | rust_src/src/webrender_backend/output.rs:167-173 | what was recorded, then the finalized list at epoch 0, then a frame |
| Output.RenderApi.constructor | rust_src/src/webrender_backend/output.rs:95 | a new API has sent nothing and has issued no keys |
| Output.RenderApi.SendTransaction | rust_src/src/webrender_backend/output.rs:173 | the log grows by exactly this submission |
| Output.RenderApi.GenerateFontKey | rust_src/src/webrender_backend/output.rs:189 | the key is the next in the API's namespace, and the counter moves on |
| Output.OpenBuilder | rust_src/src/webrender_backend/output.rs:140-146 | the open builder if there is one, else an empty root-pipeline builder of the window's size |
| Output.OpenTxn | rust_src/src/webrender_backend/output.rs:140-146 | the open transaction if there is one, else an empty one |
| Output.Output.constructor | rust_src/src/webrender_backend/output.rs:30-46 | nothing open and no font; one transaction setting the root pipeline has been sent |
| Output.Output.Display | rust_src/src/webrender_backend/output.rs:135-156 | the slot is open afterwards, holding the old or a fresh builder extended by the items; nothing is sent |
| Output.Output.Flush | rust_src/src/webrender_backend/output.rs:158-184 | the slot is empty afterwards; exactly one frame transaction was sent if it was open, and nothing otherwise |
| Output.Output.AddFont | rust_src/src/webrender_backend/output.rs:186-206 | returns a fresh key and sends exactly one transaction registering the handle under it |
| Output.DisplayTwiceThenFlush | rust_src/src/webrender_backend/output.rs:135-184 | two displays before a flush land in one list, submitted in one transaction |
| Output.FlushTwice | rust_src/src/webrender_backend/output.rs:164-183 | a second flush in a row sends nothing |
| Output.AddTwoFonts | rust_src/src/webrender_backend/output.rs:186-206 | two calls give distinct keys, one transaction each |
| Lisp.NameOf | rust_src/src/webrender_backend/font.rs:90-91 | a symbol gives its name and a string its contents |
| RustInt.WrapI16 | rust_src/src/webrender_backend/font.rs:457-459 | `as i16` gives an i16 congruent to x modulo 2^16, and x itself when it fits |
| RustInt.WrapI32 | rust_src/src/webrender_backend/font.rs:419 | `as i32` gives an i32 congruent to x modulo 2^32, and x itself when it fits |
| RustInt.TruncDiv | rust_src/src/webrender_backend/term.rs:177 | the remainder is smaller than the divisor and has the dividend's sign; the quotient's size is the floor of the sizes |
| Font.GetFamily | rust_src/src/webrender_backend/font.rs:84-101 | nil gives none; otherwise a family spelled as the name, a generic one iff the name is exactly one of the five generic names |
| Font.GetFamilyOfText | rust_src/src/webrender_backend/font.rs:92-98 | a family's spelling, as string or symbol, reads back as that family, except a title spelled like a generic name (`Title("Serif")` reads back as `Serif`) |
| Font.GetFamilyIsCaseSensitive | rust_src/src/webrender_backend/font.rs:92-98 | "serif" is a title; "Sans Serif" is the generic family |
| Font.WeightSymbol | rust_src/src/webrender_backend/font.rs:258-276 | the bucket is always a weight symbol, never a slant |
| Font.WeightBuckets | rust_src/src/webrender_backend/font.rs:258-276 | each weight symbol is given exactly to its interval: up to 200, 300, 400, 600 (medium included), 700, 800, above |
| Font.WeightSymbolMonotone | rust_src/src/webrender_backend/font.rs:258-276 | a heavier font never gets a lighter symbol |
| Font.SlantSymbol | rust_src/src/webrender_backend/font.rs:281-285 | normal, italic and oblique map to their symbols |
| Font.SlantSymbolInjective | rust_src/src/webrender_backend/font.rs:281-285 | distinct styles give distinct slant symbols |
| Font.EntityOf | rust_src/src/webrender_backend/font.rs:245-300 | type `wr`, the family as a symbol, the weight and slant buckets, and the PostScript name as the only extra property |
| Font.EntitiesOf | rust_src/src/webrender_backend/font.rs:244-302 | one entity per font, at the same position |
| Font.EntitiesOfSnoc | rust_src/src/webrender_backend/font.rs:244-302 | one more font adds its entity at the end |
| Font.Reversed | rust_src/src/webrender_backend/font.rs:304 | reversal keeps the length |
| Font.ReversedSnoc | rust_src/src/webrender_backend/font.rs:301-304 | consing onto a list is appending to its reversal |
| Font.ReversedReversed | rust_src/src/webrender_backend/font.rs:304 | reversing twice gives the list back |
| Font.SelectedFonts | rust_src/src/webrender_backend/font.rs:229-238 | no family gives no fonts; otherwise font-kit's answer for the family that `get_family` names |
| Font.Match | rust_src/src/webrender_backend/font.rs:227-308 | nil without a family or a selected family; otherwise the entities of the loaded fonts in their order |
| Font.List | rust_src/src/webrender_backend/font.rs:222-225 | the same answer as `match_` |
| Font.ChosenPixelSize | rust_src/src/webrender_backend/font.rs:353-364 | the entity's fixnum size, else the requested size; when that is 0, the frame font's size, else 9 |
| Font.ChosenPixelSizeNonZero | rust_src/src/webrender_backend/font.rs:358-364 | the size is never 0 unless the frame font's own size is 0 |
| Font.Assoc | rust_src/src/webrender_backend/font.rs:387 | none iff no entry has the key; otherwise the value of the first entry that has it |
| Font.WRFont.constructor | rust_src/src/webrender_backend/font.rs:366-373 | the object is zeroed, with no driver and no glyphs |
| Font.WRFont.AssignMetrics | rust_src/src/webrender_backend/font.rs:419-426 | pixel size as given; space width = average width; height = line gap + ascent + descent; the other fields unchanged |
| Font.Open | rust_src/src/webrender_backend/font.rs:347-433 | Err iff there is no PostScript name, with nothing sent; otherwise a fresh font with the chosen size as i32, space width = average width, height = gap + ascent + descent, the wr driver, and a new key registered by exactly one transaction, with the key counter advanced by one |
| Font.OpenTwice | rust_src/src/webrender_backend/font.rs:347-433 | two opens succeed exactly when their entities have PostScript names, and two successful opens give distinct font objects under distinct keys |
| Font.StoredPixelSize | rust_src/src/webrender_backend/font.rs:419 | a chosen size that fits in i32 is stored unchanged |
| Font.PostscriptName | rust_src/src/webrender_backend/font.rs:385-387 | none iff no extra property has the `:postscript-name` key; otherwise the value of the first entry with that key, as `Fassoc` returns |
| Font.MatchedEntityHasPostscriptName | rust_src/src/webrender_backend/font.rs:290-300 | every entity `match_` builds carries the font's PostScript name under the key `open` looks up |
| Font.CharFromU32 | rust_src/src/webrender_backend/font.rs:440 | a character exists iff the value is a Unicode scalar, and its code is the value |
| Font.EncodeChar | rust_src/src/webrender_backend/font.rs:437-443 | the invalid code for negative, surrogate or too-large values and for characters without a glyph; otherwise the glyph id |
| Font.Advance | rust_src/src/webrender_backend/font.rs:167-175 | a known dimension gives its advance; an unknown one gives 0 |
| Font.StartX | rust_src/src/webrender_backend/font.rs:177-183 | a glyph starts at x when no glyph before it has a known advance, and never left of x when no advance before it is negative |
| Font.Positioned | rust_src/src/webrender_backend/font.rs:160-191 | one instance per glyph index, at x plus the advances before it, on the line y |
| Font.PositionedSteps | rust_src/src/webrender_backend/font.rs:166-191 | the first glyph starts at x; each later one at the previous start plus the previous advance (0 when unknown) |
| Font.StartXMonotone | rust_src/src/webrender_backend/font.rs:166-191 | with no negative advance, glyph starts never decrease |
| Font.PlaceGlyphs | rust_src/src/webrender_backend/font.rs:160-191 | the loop's glyph instances are exactly the prefix-sum positions |
| Font.Bounds | rust_src/src/webrender_backend/font.rs:193-196 | the text bounds are the glyph string's x, y, width and height |
| Font.DrawItems | rust_src/src/webrender_backend/font.rs:193-216 | an optional background rectangle, then the text, over the glyph string's box, in the face's colours |
| Font.Draw | rust_src/src/webrender_backend/font.rs:135-220 | returns 1; the open builder gains the background and text items for glyphs from..to placed from (x, y); the slot stays open, and the transaction, font size, fontset and frame count are kept |
| Font.TextExtents | rust_src/src/webrender_backend/font.rs:446-461 | bearings 10, and the font's average width, ascent and descent as i16, whatever the glyphs |
| Term.Unsupported | rust_src/src/webrender_backend/term.rs:47-93 | a run of n unsupported slots |
| Term.FrameParmHandlers | rust_src/src/webrender_backend/term.rs:44-96 | 45 slots: the font handler at 7, the font-backend handler at 33, none elsewhere |
| Term.SupportedSlots | rust_src/src/webrender_backend/term.rs:44-96 | a slot has a handler iff it is slot 7 or 33 |
| Term.Kboard.AddRef | rust_src/src/webrender_backend/term.rs:36-38 | the reference count grows by exactly 1 |
| Term.YStart | rust_src/src/webrender_backend/term.rs:177 | the baseline offset is half the spare row height rounded toward zero, within one pixel of centring |
| Term.YStartTruncates | rust_src/src/webrender_backend/term.rs:177 | a spare height of -3 moves the baseline by -1, where floored division would give -2 |
| Term.DrawCharGlyphString | rust_src/src/webrender_backend/term.rs:168-179 | all characters are drawn with background at the string's x and the centred baseline |
| Term.DrawGlyphString | rust_src/src/webrender_backend/term.rs:157-166 | a character glyph string is drawn, with the transaction, font size, fontset and frame count kept; every other glyph type leaves the output unchanged |
| Term.FlushDisplay | rust_src/src/webrender_backend/term.rs:146-151 | flushes the frame's output: one frame transaction and one more presented frame if open, nothing otherwise; the key counter, font size and fontset are kept |
| Term.DrawThenFlush | rust_src/src/webrender_backend/term.rs:146-166 | drawing a character glyph string on a closed frame and flushing submits one frame transaction whose list is exactly the drawn items, with one more presented frame and the key counter kept |
| Term.DisplayInfo.constructor | rust_src/src/webrender_backend/display_info.rs:43-51 | zeroed fields and a fresh keyboard processor in its initial state |
| Term.WrTermInit | rust_src/src/webrender_backend/term.rs:203-236 | terminal and display info linked both ways; the terminal gets the kboard, which becomes current if the initial one was, and gains one reference; name list `(display-name)`, smallest sizes 1, resolution 1.0, terminal named after the display |

## Left out

- Color.Unpack: the lane order assumes a little-endian target, where the `transmute` of the pixel puts its low 16 bits in `pixel_array[0]`. On a big-endian target lane 0 would be the high 16 bits.
- Colour floats: the `/ 255.0` and `* 255.0` conversions and the float-to-integer casts of `pixel_to_color` and `color_to_pixel` are not modelled. `Pack` takes the already-converted channels.
- Color.Lookup: from_str_radix's acceptance of a leading `+` and non-ASCII lower-casing are excluded by the `WellFormedToken` precondition.
- The colour name table is generated at build time and not shown. It is the map `table`, keyed by lower-case names.
- Font metrics: the float scaling in `open` (`pixel_size / units_per_em` times the advance, ascent, descent and line gap) is not modelled. Its i32 results are the input `ScaledMetrics`.
- Font.Open: the i32 sum for `height` is stated exactly. An overflow there, a panic or a wrap depending on the build, is not modelled.
- Font.Open: font-kit's `select_by_postscript_name(..).unwrap()` and `load().unwrap()` become the precondition that the name is in `source`. The `WRFont` does not keep font-kit's `Metrics`.
- Font.WeightSymbol: weights are exact reals. A NaN weight, which fails every `<=` and so gets ultra-bold in the source, is not representable.
- Font.Match: font-kit's family selection and loading are the parameter `select`, already filtered to the fonts that loaded. The panic on a font without a PostScript name is a precondition.
- Font.Match: `font_style_to_value` belongs to the host. Entities store the weight and slant symbols, not their numeric encoding. The size slot of a new entity is nil.
- Output.Output.Display: the drawing callback, which receives the builder, the render API and the transaction, is modelled by the items it pushes and the operations it records. A callback that sends to the render API itself is not modelled. The one callback in the core only queries glyph dimensions.
- Font.Draw: positions are exact reals, so f32 rounding is not modelled. `output.add_font_instance` (font.rs:157) is not defined in output.rs, so its key is the input `fontInstance`, and whatever it sends to the render API is not modelled: the model's `Draw` leaves the render API's log untouched. The model passes no render API to the display callback; the callback's one use of it, `api.get_glyph_dimensions` (font.rs:162), is the input `dimensions`.
- Font.Draw: the window size that `get_size` reads is the input `windowSize`.
- Term.YStart: the i32 sum is stated exactly. Its overflow is not modelled.
- Term.Kboard.AddRef: C `int` overflow of the reference count is not modelled.
- Term.WrTermInit: `allocate_kboard` and `create_terminal` belong to the host. The kboard is a parameter and the terminal a fresh object. Of `wr_create_terminal`, only the two-way link it makes is modelled. `xlispstrdup` is a copy of the string.
- `get_cache` is not modelled. It returns the display info's name list, and the output's display-info link is not part of this model.
- Stubs with no behaviour are not modelled: `list_family` (unimplemented), `close`, `update_window_begin`, `update_window_end`, `after_update_window_line`, `clear_frame_area`.
- The `FONT_DRIVER` and `REDISPLAY_INTERFACE` v-tables and the `ExternalPtr` conversions are pointer glue. `draw_char_glyph_string` reaching draw through the driver becomes the precondition that the font's driver is this one.
- Window and renderer plumbing is not modelled: `create_webrender_window`, `get_size`, `show_window`, `hide_window`, `get_color_bits`, `Notifier`, `flush_scene_builder`, renderer update and render, and buffer swaps. Rendering and presenting a frame is counted in `framesPresented`.
- The GL calls of `new_texture` are not modelled. The id that `gen_textures` returns is a parameter.
- Texel rectangles hold integers, not the f32 values of the source.
- Of `display_info.rs`, only `DisplayInfo::new` is modelled. Boxing the inner record, its focus frame, output and GC values, and `Drop` are not.
- The modifier bits, `FONT_INVALID_CODE` and the winit key codes are host constants, not shown in the source. Their values are stated above.
