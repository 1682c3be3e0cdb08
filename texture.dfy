/** The texture table: GL texture ids mapped to their framebuffer size and
    whether they must be flipped vertically, shared between the resource
    manager that registers textures and the external-image handler that the
    renderer calls to lock them. */
module Texture {

  const TWO_32: int := 0x1_0000_0000

  /** `gl::GLuint`. */
  type GLuint = x: int | 0 <= x < TWO_32

  /** The `u64` payload of an `ExternalImageId`. */
  type ExternalImageId = x: int | 0 <= x < 0x1_0000_0000_0000_0000

  datatype FramebufferIntSize = FramebufferIntSize(width: int, height: int)

  datatype TextureEntry = TextureEntry(size: FramebufferIntSize, needFlip: bool)

  /** Texel coordinates (u0, v0) - (u1, v1). The source converts the i32
      sizes to f32; here they are kept as integers. */
  datatype TexelRect = TexelRect(u0: int, v0: int, u1: int, v1: int)

  datatype ExternalImageSource = NativeTexture(id: GLuint)

  datatype ExternalImage = ExternalImage(uv: TexelRect, source: ExternalImageSource)

  /** `key.0 as u32`: the id truncated to its low 32 bits. */
  function TruncateId(key: ExternalImageId): (id: GLuint)
    ensures key < TWO_32 ==> id == key
    ensures (key - id) % TWO_32 == 0
  {
    key % TWO_32
  }

  /** The rectangle a texture is sampled from: the whole texture, with the
      v axis reversed when the texture is stored upside down. */
  function UvRect(e: TextureEntry): (r: TexelRect)
    ensures r.u0 == 0 && r.u1 == e.size.width
    ensures e.needFlip ==> r.v0 == e.size.height && r.v1 == 0
    ensures !e.needFlip ==> r.v0 == 0 && r.v1 == e.size.height
  {
    var w, h := e.size.width, e.size.height;
    if e.needFlip then TexelRect(0, h, w, 0) else TexelRect(0, 0, w, h)
  }

  function VerticalMirror(r: TexelRect): TexelRect
  {
    TexelRect(r.u0, r.v1, r.u1, r.v0)
  }

  /** The flipped rectangle is the vertical mirror of the unflipped one,
      and both cover the whole texture. */
  lemma UvFlipIsMirror(size: FramebufferIntSize)
    ensures UvRect(TextureEntry(size, true)) == VerticalMirror(UvRect(TextureEntry(size, false)))
    ensures VerticalMirror(UvRect(TextureEntry(size, true))) == UvRect(TextureEntry(size, false))
  {
  }

  /** The `Rc<RefCell<TextureTable>>` cell both owners refer to. */
  class TextureTable {
    var entries: map<GLuint, TextureEntry>

    constructor ()
      ensures entries == map[]
    {
      entries := map[];
    }
  }

  class TextureResourceManager {
    const textures: TextureTable

    /** `new`: a fresh, empty table. */
    constructor ()
      ensures fresh(textures) && textures.entries == map[]
    {
      textures := new TextureTable();
    }

    /** `insert`: set (overwriting) the entry of `textureId`; every other
        entry stays as it was. */
    method Insert(textureId: GLuint, size: FramebufferIntSize, needFlip: bool)
      modifies textures
      ensures textures.entries == old(textures.entries)[textureId := TextureEntry(size, needFlip)]
      ensures forall id :: id != textureId && id in old(textures.entries) ==>
        id in textures.entries && textures.entries[id] == old(textures.entries)[id]
    {
      textures.entries := textures.entries[textureId := TextureEntry(size, needFlip)];
    }

    /** The table effect of `new_texture`. `generated` is the id the GL
        driver's `gen_textures` returned; the GL calls themselves are not
        modelled. */
    method NewTexture(generated: GLuint, size: FramebufferIntSize, needFlip: bool) returns (textureId: GLuint)
      modifies textures
      ensures textureId == generated
      ensures textures.entries == old(textures.entries)[textureId := TextureEntry(size, needFlip)]
    {
      textureId := generated;
      Insert(textureId, size, needFlip);
    }

    /** `new_external_image_handler`: the handler shares this table. */
    method NewExternalImageHandler() returns (handler: ExternalHandler)
      ensures fresh(handler) && handler.texture == textures
    {
      handler := new ExternalHandler(textures);
    }
  }

  class ExternalHandler {
    const texture: TextureTable

    constructor (texture: TextureTable)
      ensures this.texture == texture
    {
      this.texture := texture;
    }

    /** `lock`: the entry of the truncated id gives the sampled rectangle;
        the image is that same native texture. An id that was never
        registered is a fault in the source (`unwrap`). */
    method Lock(key: ExternalImageId, channelIndex: int) returns (image: ExternalImage)
      requires TruncateId(key) in texture.entries
      ensures image.source == NativeTexture(TruncateId(key))
      ensures image.uv == UvRect(texture.entries[TruncateId(key)])
    {
      var textureId := TruncateId(key);
      var entry := texture.entries[textureId];
      image := ExternalImage(UvRect(entry), NativeTexture(textureId));
    }

    /** `unlock` does nothing. */
    method Unlock(key: ExternalImageId, channelIndex: int)
      ensures texture.entries == old(texture.entries)
    {
    }
  }

  /** A handler created before a texture is registered still sees it: the
      table is shared, not copied. */
  method HandlerSeesLaterInsert(textureId: GLuint, size: FramebufferIntSize, needFlip: bool)
    returns (image: ExternalImage)
    ensures image == ExternalImage(UvRect(TextureEntry(size, needFlip)), NativeTexture(textureId))
  {
    var manager := new TextureResourceManager();
    var handler := manager.NewExternalImageHandler();
    var id := manager.NewTexture(textureId, size, needFlip);
    image := handler.Lock(id, 0);
  }

  /** Registering an id twice keeps only the second entry; ids that agree
      in their low 32 bits lock the same texture. */
  method InsertOverwrites(textureId: GLuint, first: TextureEntry, second: TextureEntry)
    returns (image: ExternalImage, aliased: ExternalImage)
    ensures image.uv == UvRect(second) && aliased == image
  {
    var manager := new TextureResourceManager();
    var handler := manager.NewExternalImageHandler();
    manager.Insert(textureId, first.size, first.needFlip);
    manager.Insert(textureId, second.size, second.needFlip);
    image := handler.Lock(textureId, 0);
    aliased := handler.Lock(textureId + TWO_32, 0);
  }
}
