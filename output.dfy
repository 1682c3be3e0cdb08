/** One output (window) of the webrender backend. Besides the window and
    renderer handles, which are not modelled, it holds a single slot for
    the display list being built and the transaction that will carry it:
    drawing opens the slot lazily and adds to it, flushing submits it as
    exactly one transaction. The render API is modelled by the log of
    transactions submitted to it and its key counter. */
module Output {
  import opened Wrappers
  import Color

  /** A logical window size (f32 in the source). */
  datatype LayoutSize = LayoutSize(width: real, height: real)

  datatype PipelineId = PipelineId(namespace: nat, id: nat)

  /** `PipelineId(0, 0)`, the only pipeline the backend uses. */
  const ROOT_PIPELINE: PipelineId := PipelineId(0, 0)

  datatype DocumentId = DocumentId(id: nat)

  datatype Epoch = Epoch(n: nat)

  datatype FontKey = FontKey(namespace: nat, id: nat)

  datatype FontInstanceKey = FontInstanceKey(namespace: nat, id: nat)

  datatype LayoutRect = LayoutRect(x: int, y: int, width: int, height: int)

  /** A positioned glyph; positions are f32 in the source, exact here. */
  datatype GlyphInstance = GlyphInstance(index: nat, x: real, y: real)

  /** The two display items the backend pushes. */
  datatype DisplayItem =
    | Rect(bounds: LayoutRect, color: Color.Channels)
    | Text(bounds: LayoutRect, clip: LayoutRect, glyphs: seq<GlyphInstance>,
           font: FontInstanceKey, color: Color.Channels)

  /** A display-list builder, abstractly: the items pushed so far. */
  datatype DisplayListBuilder = DisplayListBuilder(pipeline: PipelineId, contentSize: LayoutSize, items: seq<DisplayItem>)

  datatype BuiltDisplayList = BuiltDisplayList(pipeline: PipelineId, contentSize: LayoutSize, items: seq<DisplayItem>)

  /** `builder.finalize()`: the list holds exactly the items pushed. */
  function Finalize(b: DisplayListBuilder): (l: BuiltDisplayList)
    ensures l.items == b.items && l.pipeline == b.pipeline
  {
    BuiltDisplayList(b.pipeline, b.contentSize, b.items)
  }

  /** The font-kit handle of a font: a file and face index, or bytes. */
  datatype FontHandle =
    | Path(path: string, fontIndex: nat)
    | Memory(bytes: seq<bv8>, fontIndex: nat)

  datatype TxnOp =
    | SetRootPipeline(pipeline: PipelineId)
    | SetDisplayList(epoch: Epoch, viewportSize: LayoutSize, list: BuiltDisplayList)
    | GenerateFrame
    | AddNativeFont(key: FontKey, path: string, index: nat)
    | AddRawFont(key: FontKey, bytes: seq<bv8>, index: nat)

  /** A transaction, abstractly: the operations recorded into it. */
  type Transaction = seq<TxnOp>

  /** One `send_transaction` call. */
  datatype Submission = Submission(document: DocumentId, txn: Transaction)

  /** The operation registering a font handle under a key. */
  function AddFontOp(key: FontKey, handle: FontHandle): (op: TxnOp)
    ensures handle.Path? ==> op == AddNativeFont(key, handle.path, handle.fontIndex)
    ensures handle.Memory? ==> op == AddRawFont(key, handle.bytes, handle.fontIndex)
  {
    match handle
    case Path(path, index) => AddNativeFont(key, path, index)
    case Memory(bytes, index) => AddRawFont(key, bytes, index)
  }

  /** The transaction `flush` sends: what was recorded into the open
      transaction, then the finalized list at epoch 0, then a frame. */
  function FrameTransaction(txn: Transaction, builder: DisplayListBuilder, viewport: LayoutSize): (t: Transaction)
    ensures |t| == |txn| + 2 && t[..|txn|] == txn
    ensures t[|txn|] == SetDisplayList(Epoch(0), viewport, Finalize(builder))
    ensures t[|txn| + 1] == GenerateFrame
  {
    txn + [SetDisplayList(Epoch(0), viewport, Finalize(builder)), GenerateFrame]
  }

  /** The render API, seen from the backend: a log of the transactions
      sent to it and the counter its resource keys are drawn from. */
  class RenderApi {
    const namespace: nat
    var sent: seq<Submission>
    var nextKeyId: nat

    constructor (namespace: nat)
      ensures this.namespace == namespace && sent == [] && nextKeyId == 0
    {
      this.namespace := namespace;
      sent := [];
      nextKeyId := 0;
    }

    method SendTransaction(document: DocumentId, txn: Transaction)
      modifies this
      ensures sent == old(sent) + [Submission(document, txn)]
      ensures nextKeyId == old(nextKeyId)
    {
      sent := sent + [Submission(document, txn)];
    }

    method GenerateFontKey() returns (key: FontKey)
      modifies this
      ensures key == FontKey(namespace, old(nextKeyId))
      ensures nextKeyId == old(nextKeyId) + 1 && sent == old(sent)
    {
      key := FontKey(namespace, nextKeyId);
      nextKeyId := nextKeyId + 1;
    }
  }

  /** The builder `display` draws into: the open one, or a fresh one for
      the root pipeline sized to the window. */
  function OpenBuilder(b: Option<DisplayListBuilder>, windowSize: LayoutSize): (r: DisplayListBuilder)
    ensures b.Some? ==> r == b.value
    ensures b.None? ==> r.items == [] && r.pipeline == ROOT_PIPELINE && r.contentSize == windowSize
  {
    if b.Some? then b.value else DisplayListBuilder(ROOT_PIPELINE, windowSize, [])
  }

  /** The transaction `display` records into: the open one, or a new one. */
  function OpenTxn(t: Option<Transaction>): (r: Transaction)
    ensures t.Some? ==> r == t.value
    ensures t.None? ==> r == []
  {
    if t.Some? then t.value else []
  }

  class Output {
    const renderApi: RenderApi
    const documentId: DocumentId
    /** The pixel size of the frame's default font; None while the `font`
        pointer is null. */
    var fontPixelSize: Option<int>
    var fontset: int
    var displayListBuilder: Option<DisplayListBuilder>
    var currentTxn: Option<Transaction>
    /** Frames rendered and swapped to the window. */
    var framesPresented: nat

    /** The builder and the transaction are open together or not at all. */
    ghost predicate Valid()
      reads this
    {
      displayListBuilder.Some? <==> currentTxn.Some?
    }

    predicate IsOpen()
      reads this
    {
      displayListBuilder.Some?
    }

    /** `new`: nothing open, no font. Creating the window also sends one
        transaction setting the root pipeline; `documentId` is the document
        the render API allotted. */
    constructor (namespace: nat, documentId: DocumentId)
      ensures Valid() && !IsOpen() && currentTxn.None?
      ensures fontPixelSize.None? && fontset == 0 && framesPresented == 0
      ensures this.documentId == documentId && fresh(renderApi)
      ensures renderApi.sent == [Submission(documentId, [SetRootPipeline(ROOT_PIPELINE)])]
      ensures renderApi.namespace == namespace && renderApi.nextKeyId == 0
    {
      var api := new RenderApi(namespace);
      api.SendTransaction(documentId, [SetRootPipeline(ROOT_PIPELINE)]);
      renderApi := api;
      this.documentId := documentId;
      fontPixelSize := None;
      fontset := 0;
      displayListBuilder := None;
      currentTxn := None;
      framesPresented := 0;
    }

    /** `display`: open the builder and transaction if none is open, then
        let the drawing callback add `items` to the builder and `ops` to
        the transaction. Nothing is sent. */
    method Display(windowSize: LayoutSize, items: seq<DisplayItem>, ops: seq<TxnOp>)
      requires Valid()
      modifies this
      ensures Valid() && IsOpen()
      ensures var b := OpenBuilder(old(displayListBuilder), windowSize);
        displayListBuilder == Some(b.(items := b.items + items))
      ensures currentTxn == Some(OpenTxn(old(currentTxn)) + ops)
      ensures fontPixelSize == old(fontPixelSize) && fontset == old(fontset)
      ensures framesPresented == old(framesPresented)
    {
      if displayListBuilder.None? {
        displayListBuilder := Some(DisplayListBuilder(ROOT_PIPELINE, windowSize, []));
        currentTxn := Some([]);
      }
      match (displayListBuilder, currentTxn)
      case (Some(builder), Some(txn)) =>
        displayListBuilder := Some(builder.(items := builder.items + items));
        currentTxn := Some(txn + ops);
      case _ =>
    }

    /** `flush`: take the builder and the transaction out together; when
        both were open, send one transaction carrying the finalized list at
        epoch 0 and a new frame, then render and present it. */
    method Flush(windowSize: LayoutSize)
      requires Valid()
      modifies this, renderApi
      ensures Valid() && !IsOpen() && currentTxn.None?
      ensures old(IsOpen()) ==>
        renderApi.sent == old(renderApi.sent)
          + [Submission(documentId, FrameTransaction(old(currentTxn.value), old(displayListBuilder.value), windowSize))]
        && framesPresented == old(framesPresented) + 1
      ensures !old(IsOpen()) ==>
        renderApi.sent == old(renderApi.sent) && framesPresented == old(framesPresented)
      ensures renderApi.nextKeyId == old(renderApi.nextKeyId)
      ensures fontPixelSize == old(fontPixelSize) && fontset == old(fontset)
    {
      var builder := displayListBuilder;
      displayListBuilder := None;
      var txn := currentTxn;
      currentTxn := None;
      match (builder, txn)
      case (Some(b), Some(t)) =>
        renderApi.SendTransaction(documentId, FrameTransaction(t, b, windowSize));
        framesPresented := framesPresented + 1;
      case _ =>
    }

    /** `add_font`: draw a new key and send one transaction registering the
        font under it. */
    method AddFont(handle: FontHandle) returns (key: FontKey)
      modifies renderApi
      ensures key == FontKey(renderApi.namespace, old(renderApi.nextKeyId))
      ensures renderApi.nextKeyId == old(renderApi.nextKeyId) + 1
      ensures renderApi.sent == old(renderApi.sent) + [Submission(documentId, [AddFontOp(key, handle)])]
    {
      key := renderApi.GenerateFontKey();
      renderApi.SendTransaction(documentId, [AddFontOp(key, handle)]);
    }
  }

  /** Two `display` calls with no flush between them go into one builder,
      and the flush after them submits one transaction holding both. */
  method DisplayTwiceThenFlush(namespace: nat, doc: DocumentId, size: LayoutSize, first: seq<DisplayItem>, second: seq<DisplayItem>)
    returns (log: seq<Submission>)
    ensures log == [Submission(doc, [SetRootPipeline(ROOT_PIPELINE)]),
                    Submission(doc, [SetDisplayList(Epoch(0), size, BuiltDisplayList(ROOT_PIPELINE, size, first + second)),
                                     GenerateFrame])]
  {
    var output := new Output(namespace, doc);
    output.Display(size, first, []);
    assert output.displayListBuilder.value.items == first;
    output.Display(size, second, []);
    assert output.currentTxn == Some([]);
    assert output.displayListBuilder == Some(DisplayListBuilder(ROOT_PIPELINE, size, first + second));
    output.Flush(size);
    log := output.renderApi.sent;
  }

  /** Flushing with nothing open sends nothing, so a second flush in a row
      is a no-op. */
  method FlushTwice(namespace: nat, doc: DocumentId, size: LayoutSize, items: seq<DisplayItem>)
    returns (afterFirst: seq<Submission>, afterSecond: seq<Submission>)
    ensures |afterFirst| == 2 && afterSecond == afterFirst
  {
    var output := new Output(namespace, doc);
    output.Display(size, items, []);
    output.Flush(size);
    afterFirst := output.renderApi.sent;
    output.Flush(size);
    afterSecond := output.renderApi.sent;
  }

  /** Each `add_font` call returns a new key and sends exactly one
      transaction, registering that key. */
  method AddTwoFonts(namespace: nat, doc: DocumentId, a: FontHandle, b: FontHandle)
    returns (ka: FontKey, kb: FontKey, log: seq<Submission>)
    ensures ka != kb
    ensures |log| == 3 && log[1..] == [Submission(doc, [AddFontOp(ka, a)]), Submission(doc, [AddFontOp(kb, b)])]
  {
    var output := new Output(namespace, doc);
    ka := output.AddFont(a);
    kb := output.AddFont(b);
    log := output.renderApi.sent;
  }
}
