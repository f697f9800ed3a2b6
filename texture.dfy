/**
 * src/opengl/wrap/Texture.h and opengl/wrap/Texture.h: a 2D texture whose GL
 * id is INVALID_GL_ID until the first upload, and (in the first file only)
 * ImageTexture, which keeps an image's bytes and turns them into a texture on
 * demand. The two files define the same Texture2D; one class models both.
 *
 * Of TexParams only `format` varies in this code; the other parameters are the
 * defaults and are not modelled.
 */
module Texture {
  import opened Log
  import opened GLCalls
  import opened ArrayBuffer

  const GL_ALPHA: nat := 0x1906
  const GL_RGB: nat := 0x1907
  const GL_RGBA: nat := 0x1908
  const GL_BGR: nat := 0x80E0
  const GL_BGRA: nat := 0x80E1

  class Texture2D {
    /** m_id */
    var id: nat
    /** m_width and m_height are const in the source. */
    const width: nat
    const height: nat
    /** m_params.format */
    const format: nat

    /** Texture2D(width, height[, params]): no GL texture yet. */
    constructor (w: nat, h: nat, fmt: nat)
      ensures id == INVALID_GL_ID && width == w && height == h && format == fmt
      ensures !IsValid()
    {
      id := INVALID_GL_ID;
      width := w;
      height := h;
      format := fmt;
    }

    /** The copy constructor: the same id, size and parameters. */
    constructor Copy(o: Texture2D)
      ensures id == o.id && width == o.width && height == o.height && format == o.format
      ensures IsValid() == o.IsValid()
    {
      id := o.id;
      width := o.width;
      height := o.height;
      format := o.format;
    }

    /** valid(): a GL id and a non-empty size. */
    predicate IsValid()
      reads this
    {
      id != INVALID_GL_ID && width > 0 && height > 0
    }

    /**
     * update(pixels): re-uploads into the existing texture when valid, otherwise
     * generates a new one; `freshId` is the id glGenTextures returns.
     */
    method Update(freshId: nat) returns (calls: seq<GLCall>)
      modifies this
      ensures old(IsValid()) ==> id == old(id) && calls == [TexSubImage(id)]
      ensures !old(IsValid()) ==> id == freshId && calls == [GenTexture(freshId)]
      ensures width > 0 && height > 0 && freshId != INVALID_GL_ID ==> IsValid()
    {
      if IsValid() {
        calls := [TexSubImage(id)];
      } else {
        id := freshId;
        calls := [GenTexture(id)];
      }
    }

    /** release(): deletes the GL texture once; afterwards the id is INVALID_GL_ID. */
    method Release() returns (calls: seq<GLCall>)
      modifies this
      ensures id == INVALID_GL_ID && !IsValid()
      ensures calls == if old(id) != INVALID_GL_ID then [DeleteTexture(old(id))] else []
    {
      calls := [];
      if id != INVALID_GL_ID {
        calls := [DeleteTexture(id)];
        id := INVALID_GL_ID;
      }
    }

    /** create(width, height, format): a new texture, uploaded once without pixels. */
    static method Create(w: nat, h: nat, fmt: nat, freshId: nat) returns (t: Texture2D, calls: seq<GLCall>)
      ensures fresh(t) && t.width == w && t.height == h && t.format == fmt
      ensures t.id == freshId && calls == [GenTexture(freshId)]
      ensures t.IsValid() <==> w > 0 && h > 0 && freshId != INVALID_GL_ID
    {
      t := new Texture2D(w, h, fmt);
      calls := t.Update(freshId);
    }
  }

  /** The channel count of ImageTexture::set for each accepted pixel format. */
  function Channels(format: nat): (r: Option<nat>)
    ensures r.Some? <==> format in {GL_RGBA, GL_BGRA, GL_RGB, GL_BGR, GL_ALPHA}
    ensures r.Some? ==> 1 <= r.value <= 4
  {
    if format == GL_RGBA || format == GL_BGRA then Some(4)
    else if format == GL_RGB || format == GL_BGR then Some(3)
    else if format == GL_ALPHA then Some(1)
    else None
  }

  /** Four-channel formats take four bytes per pixel, three-channel three, alpha one. */
  lemma ChannelsByFormat()
    ensures Channels(GL_RGBA) == Some(4) && Channels(GL_BGRA) == Some(4)
    ensures Channels(GL_RGB) == Some(3) && Channels(GL_BGR) == Some(3)
    ensures Channels(GL_ALPHA) == Some(1)
  {
  }

  datatype Option<T> = None | Some(value: T)

  class ImageTexture {
    /** m_img, one byte per element. */
    const img: Array<bv8>
    var width: int
    var height: int
    var format: nat
    /** m_tex; null until texture() first succeeds. */
    var tex: Texture2D?
    /** m_tex_need_update */
    var needUpdate: bool

    ghost predicate Valid()
      reads this, img
    {
      img.Valid() && img.unit == 1 && width >= 0 && height >= 0
    }

    constructor ()
      ensures Valid() && fresh(img) && fresh(img.Repr)
      ensures width == 0 && height == 0 && format == GL_RGBA && tex == null && !needUpdate
    {
      img := new Array(1);
      width := 0;
      height := 0;
      format := GL_RGBA;
      tex := null;
      needUpdate := false;
    }

    /**
     * set(data, width, height, format): an unsupported format is fatal before
     * anything changes; otherwise stores width * height * channels bytes and
     * marks the texture for upload.
     */
    method Set(data: seq<bv8>, w: int, h: int, fmt: nat) returns (r: Outcome<()>)
      requires Valid() && w >= 0 && h >= 0
      requires Channels(fmt).Some? ==> |data| >= w * h * Channels(fmt).value
      modifies this, img.Repr
      ensures Valid() && fresh(img.Repr - old(img.Repr)) && tex == old(tex)
      ensures r.Raised? <==> Channels(fmt).None?
      ensures r.Raised? ==> width == old(width) && height == old(height) && format == old(format)
                            && needUpdate == old(needUpdate) && img.Contents() == old(img.Contents())
      ensures r.Ok? ==> var n := w * h * Channels(fmt).value;
                        && width == w && height == h && format == fmt && needUpdate
                        && n <= |img.Contents()| && img.Contents()[..n] == data[..n] && img.GetPutSize() == n
    {
      var channels := Channels(fmt);
      if channels.None? {
        return Raised("unsupported image format");
      }
      var dataSize := w * h * channels.value;
      img.Put(data, dataSize, false);
      width, height, format := w, h, fmt;
      needUpdate := true;
      r := Ok(());
    }

    /** Whether texture() has to build a new Texture2D for the stored image. */
    predicate NeedsNewTexture()
      reads this
    {
      tex == null || tex.width != width || tex.height != height || tex.format != format
    }

    /**
     * texture(): null while no image is set. Otherwise rebuilds the Texture2D
     * when it is missing or its size or format differ from the image's, uploads
     * the image if it changed since the last upload, and clears that flag.
     * The replaced Texture2D is deleted without releasing its GL texture.
     */
    method GetTexture(freshId: nat) returns (t: Texture2D?, calls: seq<GLCall>)
      requires Valid()
      modifies this, tex
      ensures Valid()
      ensures old(width) == 0 || old(height) == 0 ==>
                t == null && calls == [] && tex == old(tex) && needUpdate == old(needUpdate)
      ensures old(width) != 0 && old(height) != 0 ==>
                && t == tex && t != null && !needUpdate
                && t.width == width && t.height == height && t.format == format
                && (old(NeedsNewTexture()) ==> fresh(t))
                && (!old(NeedsNewTexture()) ==> t == old(tex))
                && (!old(needUpdate) ==> calls == [])
                && (!old(needUpdate) && !old(NeedsNewTexture()) ==> t.id == old(tex.id))
      ensures old(width) != 0 && old(height) != 0 && old(needUpdate) ==>
                && (old(NeedsNewTexture()) || !old(tex.IsValid()) ==> calls == [GenTexture(freshId)] && t.id == freshId)
                && (!old(NeedsNewTexture()) && old(tex.IsValid()) ==>
                      calls == [TexSubImage(old(tex.id))] && t.id == old(tex.id))
                && (freshId != INVALID_GL_ID ==> t.IsValid())
      ensures old(width) != 0 && old(height) != 0 && !old(needUpdate) && old(NeedsNewTexture()) ==>
                t.id == INVALID_GL_ID && !t.IsValid()
      ensures width == old(width) && height == old(height) && format == old(format)
    {
      calls := [];
      if width == 0 || height == 0 {
        return null, calls;
      }
      if NeedsNewTexture() {
        tex := new Texture2D(width, height, format);
      }
      if needUpdate {
        calls := tex.Update(freshId);
        needUpdate := false;
      }
      t := tex;
    }

    /** textureNonnull(): texture(), with a null result being fatal. */
    method TextureNonnull(freshId: nat) returns (r: Outcome<Texture2D>, calls: seq<GLCall>)
      requires Valid()
      modifies this, tex
      ensures Valid()
      ensures r.Raised? <==> old(width) == 0 || old(height) == 0
      ensures r.Ok? ==> r.value == tex && !needUpdate
    {
      var t;
      t, calls := GetTexture(freshId);
      if t == null {
        return Raised("texture is nullptr!!"), calls;
      }
      r := Ok(t);
    }
  }
}
