/**
 * opengl/wrap/Framebuffer.h: a framebuffer object with one colour texture,
 * which it owns when it created it, and a reference count that the pool
 * uses to tell free framebuffers from used ones.
 */
module FramebufferObject {
  import opened Log
  import opened GLCalls
  import opened Texture

  /**
   * The calls of detachColorTexture(): none without a texture; otherwise the
   * detach on a live framebuffer object, then the deletion of an owned texture
   * that still has its GL id.
   */
  function DetachCalls(hasTexture: bool, fbId: nat, owning: bool, texId: nat): (calls: seq<GLCall>)
    ensures !hasTexture ==> calls == []
    ensures |calls| <= 2
    ensures FramebufferTexture(fbId, 0) in calls <==> hasTexture && fbId != INVALID_GL_ID
    ensures DeleteTexture(texId) in calls <==> hasTexture && owning && texId != INVALID_GL_ID
  {
    if !hasTexture then []
    else (if fbId != INVALID_GL_ID then [FramebufferTexture(fbId, 0)] else [])
         + (if owning && texId != INVALID_GL_ID then [DeleteTexture(texId)] else [])
  }

  class Framebuffer {
    /** m_texture */
    var texture: Texture2D?
    /** m_owning_texture */
    var owningTexture: bool
    /** m_fb_id */
    var fbId: nat
    /** m_ref_count */
    var refCount: int

    /** The reference count never goes negative. */
    ghost predicate Valid()
      reads this
    {
      refCount >= 0
    }

    constructor ()
      ensures Valid()
      ensures texture == null && !owningTexture && fbId == INVALID_GL_ID && refCount == 0
      ensures !IsValid() && !Available()
    {
      texture := null;
      owningTexture := false;
      fbId := INVALID_GL_ID;
      refCount := 0;
    }

    /** valid(): a texture is attached and the framebuffer object exists. */
    predicate IsValid()
      reads this
    {
      texture != null && fbId != INVALID_GL_ID
    }

    /** available(): valid and referenced by nobody. */
    predicate Available()
      reads this
    {
      refCount == 0 && IsValid()
    }

    /** ref() */
    method Ref()
      requires Valid()
      modifies this
      ensures Valid()
      ensures refCount == old(refCount) + 1 && !Available()
      ensures texture == old(texture) && owningTexture == old(owningTexture) && fbId == old(fbId)
    {
      refCount := refCount + 1;
    }

    /** unref(): one less, except at 0, where `_WARN_RETURN_IF` returns without change. */
    method Unref()
      requires Valid()
      modifies this
      ensures Valid()
      ensures refCount == if old(refCount) == 0 then 0 else old(refCount) - 1
      ensures texture == old(texture) && owningTexture == old(owningTexture) && fbId == old(fbId)
    {
      match WarnReturnIf(refCount == 0, ()) {
        case Return(_) => return;
        case _ =>
      }
      refCount := refCount - 1;
    }

    /** texID(): INVALID_GL_ID without a texture. */
    function TexId(): (r: nat)
      reads this, texture
      ensures texture == null ==> r == INVALID_GL_ID
      ensures texture != null ==> r == texture.id
    {
      if texture == null then INVALID_GL_ID else texture.id
    }

    /** texWidth(): 0 without a texture. */
    function TexWidth(): (r: nat)
      reads this
      ensures texture == null ==> r == 0
      ensures texture != null ==> r == texture.width
    {
      if texture == null then 0 else texture.width
    }

    /** texHeight(): 0 without a texture. */
    function TexHeight(): (r: nat)
      reads this
      ensures texture == null ==> r == 0
      ensures texture != null ==> r == texture.height
    {
      if texture == null then 0 else texture.height
    }

    /** createFbId(): generates the framebuffer object once; `freshId` is the id glGenFramebuffers returns. */
    method CreateFbId(freshId: nat) returns (id: nat, calls: seq<GLCall>)
      requires Valid()
      modifies this
      ensures Valid()
      ensures old(fbId) == INVALID_GL_ID ==> fbId == freshId && calls == [GenFramebuffer(freshId)]
      ensures old(fbId) != INVALID_GL_ID ==> fbId == old(fbId) && calls == []
      ensures id == fbId && texture == old(texture) && owningTexture == old(owningTexture)
      ensures refCount == old(refCount)
    {
      calls := [];
      if fbId == INVALID_GL_ID {
        fbId := freshId;
        calls := [GenFramebuffer(fbId)];
      }
      id := fbId;
    }

    /**
     * detachColorTexture(): detaches the texture from a live framebuffer and,
     * when the framebuffer owns it, releases it.
     */
    method DetachColorTexture() returns (calls: seq<GLCall>)
      requires Valid()
      modifies this, texture
      ensures Valid() && texture == null
      ensures fbId == old(fbId) && refCount == old(refCount) && owningTexture == old(owningTexture)
      ensures old(texture) != null && old(owningTexture) ==> old(texture).id == INVALID_GL_ID
      ensures old(texture) != null && !old(owningTexture) ==> old(texture).id == old(texture.id)
      ensures calls == DetachCalls(old(texture) != null, fbId, old(owningTexture), old(TexId()))
    {
      calls := [];
      if texture == null {
        return;
      }
      if fbId != INVALID_GL_ID {
        calls := [FramebufferTexture(fbId, 0)];
      }
      if owningTexture {
        var c := texture.Release();
        calls := calls + c;
      }
      texture := null;
    }

    /**
     * attachColorTexture(texture, own): a null or invalid texture is fatal;
     * otherwise the framebuffer object is created if needed, the old texture
     * detached, and the new one attached.
     */
    method AttachColorTexture(tex: Texture2D?, own: bool, freshFbId: nat) returns (r: Outcome<bool>, calls: seq<GLCall>)
      requires Valid() && freshFbId != INVALID_GL_ID
      modifies this, texture
      ensures Valid()
      ensures r.Raised? <==> tex == null || !old(tex.IsValid())
      ensures r.Raised? ==> calls == [] && texture == old(texture) && fbId == old(fbId)
                            && owningTexture == old(owningTexture)
                            && (old(texture) != null ==> old(texture).id == old(texture.id))
      ensures r.Ok? && old(texture) != null && old(owningTexture) ==> old(texture).id == INVALID_GL_ID
      ensures old(texture) != null && !old(owningTexture) ==> old(texture).id == old(texture.id)
      ensures r.Ok? ==>
                calls == (if old(fbId) == INVALID_GL_ID then [GenFramebuffer(freshFbId)] else [])
                         + DetachCalls(old(texture) != null, fbId, old(owningTexture), old(TexId()))
                         + [FramebufferTexture(fbId, tex.id)]
      ensures r.Ok? ==> r.value && IsValid()
      ensures r.Ok? ==> texture == tex && owningTexture == own
      ensures r.Ok? && old(fbId) != INVALID_GL_ID ==> fbId == old(fbId)
      ensures r.Ok? && old(fbId) == INVALID_GL_ID ==> fbId == freshFbId
      ensures refCount == old(refCount)
    {
      calls := [];
      if tex == null || !tex.IsValid() {
        return Raised("Framebuffer::attachColorTexture failed, texture invalid!"), calls;
      }
      var id, c := CreateFbId(freshFbId);
      calls := c;
      if texture != null {
        c := DetachColorTexture();
        calls := calls + c;
      }
      calls := calls + [FramebufferTexture(id, tex.id)];
      texture := tex;
      owningTexture := own;
      r := Ok(true);
    }

    /**
     * create(width, height): nothing to do when the attached texture already
     * has that size; otherwise a new owned texture of that size is uploaded and
     * attached, which is fatal when the size is empty.
     */
    method Create(w: nat, h: nat, freshTexId: nat, freshFbId: nat) returns (r: Outcome<()>, calls: seq<GLCall>)
      requires Valid() && freshTexId != INVALID_GL_ID && freshFbId != INVALID_GL_ID
      modifies this, texture
      ensures Valid()
      ensures refCount == old(refCount)
      ensures old(texture) != null && old(texture.width) == w && old(texture.height) == h ==>
                r.Ok? && calls == [] && texture == old(texture) && fbId == old(fbId)
      ensures !(old(texture) != null && old(texture.width) == w && old(texture.height) == h) ==>
                && (r.Raised? <==> w == 0 || h == 0)
                && (r.Ok? ==> texture != null && fresh(texture) && owningTexture
                              && texture.width == w && texture.height == h && texture.IsValid()
                              && (old(fbId) != INVALID_GL_ID ==> fbId == old(fbId))
                              && (old(fbId) == INVALID_GL_ID ==> fbId == freshFbId))
                && (r.Raised? ==> texture == old(texture) && fbId == old(fbId) && calls == [GenTexture(freshTexId)])
                && (r.Ok? ==>
                      calls == [GenTexture(freshTexId)]
                               + (if old(fbId) == INVALID_GL_ID then [GenFramebuffer(freshFbId)] else [])
                               + DetachCalls(old(texture) != null, fbId, old(owningTexture), old(TexId()))
                               + [FramebufferTexture(fbId, freshTexId)])
                && (r.Ok? && old(texture) != null && old(owningTexture) ==> old(texture).id == INVALID_GL_ID)
      ensures old(texture) != null && !old(owningTexture) ==> old(texture).id == old(texture.id)
    {
      calls := [];
      r := Ok(());
      if texture == null || texture.width != w || texture.height != h {
        var ntex := new Texture2D(w, h, GL_RGBA);
        var c := ntex.Update(freshTexId);
        var a;
        a, calls := AttachColorTexture(ntex, true, freshFbId);
        calls := c + calls;
        if a.Raised? {
          r := Raised(a.msg);
        }
      }
    }

    /**
     * release(): detaches (and releases an owned) texture and deletes the
     * framebuffer object, leaving it invalid. The reference count stays; a
     * positive count only produces a warning.
     */
    method Release() returns (calls: seq<GLCall>)
      requires Valid()
      modifies this, texture
      ensures Valid()
      ensures texture == null && fbId == INVALID_GL_ID && !IsValid() && !Available()
      ensures refCount == old(refCount)
      ensures old(texture) != null && old(owningTexture) ==> old(texture).id == INVALID_GL_ID
      ensures old(texture) != null && !old(owningTexture) ==> old(texture).id == old(texture.id)
      ensures calls == DetachCalls(old(texture) != null, old(fbId), old(owningTexture), old(TexId()))
                       + (if old(fbId) != INVALID_GL_ID then [DeleteFramebuffer(old(fbId))] else [])
    {
      calls := DetachColorTexture();
      if fbId != INVALID_GL_ID {
        calls := calls + [DeleteFramebuffer(fbId)];
        fbId := INVALID_GL_ID;
      }
    }
  }
}
