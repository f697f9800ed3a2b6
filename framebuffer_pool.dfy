/**
 * opengl/wrap/FramebufferPool.h: framebuffers cached per size. An FbArrayList
 * holds the framebuffers of one size and hands out the first available one,
 * creating a new one only when none is free; the FramebufferPool keeps one list
 * per size and, after each obtain, evicts available framebuffers while the
 * cache is over its memory cap.
 *
 * The pool's std::map is keyed by the string "WxH" (PoolKey.Key); the model
 * keeps the keys and the lists as two parallel sequences in the map's key
 * order, std::string's operator<.
 */
module FramebufferPool {
  import opened GLCalls
  import opened Log
  import opened FramebufferObject
  import opened PoolKey

  // ---- Counting over availability flags ----

  /** The number of set flags. */
  function CountTrue(f: seq<bool>): (n: nat)
    ensures n <= |f|
    ensures n == 0 <==> forall i :: 0 <= i < |f| ==> !f[i]
  {
    if f == [] then 0 else CountTrue(f[..|f| - 1]) + (if f[|f| - 1] then 1 else 0)
  }

  /** The index of the first set flag, or -1 when there is none. */
  function FirstTrue(f: seq<bool>): (k: int)
    ensures -1 <= k < |f|
    ensures k >= 0 ==> f[k] && forall j :: 0 <= j < k ==> !f[j]
    ensures k == -1 <==> forall j :: 0 <= j < |f| ==> !f[j]
  {
    if f == [] then -1
    else
      var k := FirstTrue(f[..|f| - 1]);
      if k >= 0 then k else if f[|f| - 1] then |f| - 1 else -1
  }

  /** Setting flag k makes the first set flag one at or before k. */
  lemma FirstTrueSet(f: seq<bool>, k: nat)
    requires k < |f|
    ensures 0 <= FirstTrue(f[k := true]) <= k
  {
    assert f[k := true][k];
  }

  /** `s` without its element at index `k` (vector::erase). */
  function RemoveAt<T>(s: seq<T>, k: nat): (r: seq<T>)
    requires k < |s|
    ensures |r| == |s| - 1
  {
    s[..k] + s[k + 1..]
  }

  /** Elements before `k` keep their index; those after it move down by one. */
  lemma RemoveAtIndex<T>(s: seq<T>, k: nat)
    requires k < |s|
    ensures forall i :: 0 <= i < k ==> RemoveAt(s, k)[i] == s[i]
    ensures forall i :: k <= i < |s| - 1 ==> RemoveAt(s, k)[i] == s[i + 1]
  {
  }

  /** Where the element at `q` moves when the one at `k` is removed. */
  function Shifted(q: nat, k: nat): (r: nat)
    requires q != k
    ensures r == q || r + 1 == q
  {
    if q < k then q else q - 1
  }

  /** Removing the element at `k` moves every other element to its shifted index. */
  lemma RemoveAtShifted<T>(s: seq<T>, k: nat, q: nat)
    requires k < |s| && q < |s| && q != k
    ensures Shifted(q, k) < |RemoveAt(s, k)| && RemoveAt(s, k)[Shifted(q, k)] == s[q]
  {
  }

  /** `s` with `x` inserted at index `p`. */
  function InsertAt<T>(s: seq<T>, p: nat, x: T): (r: seq<T>)
    requires p <= |s|
    ensures |r| == |s| + 1 && r[p] == x
  {
    s[..p] + [x] + s[p..]
  }

  /** Elements before `p` keep their index; those from `p` on move up by one. */
  lemma InsertAtIndex<T>(s: seq<T>, p: nat, x: T, j: nat)
    requires p <= |s| && j < |s| + 1 && j != p
    ensures InsertAt(s, p, x)[j] == if j < p then s[j] else s[j - 1]
  {
  }

  /** The elements among the first `n` of `s` whose flag is clear, in order. */
  function KeepUnflagged<T>(s: seq<T>, f: seq<bool>, n: nat): (r: seq<T>)
    requires |s| == |f| && n <= |s|
    ensures |r| <= n
  {
    if n == 0 then [] else KeepUnflagged(s, f, n - 1) + (if f[n - 1] then [] else [s[n - 1]])
  }

  /** Of the first `n` elements, exactly the unflagged ones are kept. */
  lemma {:induction false} KeepUnflaggedLength<T>(s: seq<T>, f: seq<bool>, n: nat)
    requires |s| == |f| && n <= |s|
    ensures |KeepUnflagged(s, f, n)| == n - CountTrue(f[..n])
  {
    if n > 0 {
      KeepUnflaggedLength(s, f, n - 1);
      assert f[..n][..n - 1] == f[..n - 1];
    }
  }

  /** Every element with a clear flag survives, and nothing else appears. */
  lemma {:induction false} KeepUnflaggedMembers<T>(s: seq<T>, f: seq<bool>, n: nat)
    requires |s| == |f| && n <= |s|
    ensures forall i :: 0 <= i < n && !f[i] ==> s[i] in KeepUnflagged(s, f, n)
    ensures forall x :: x in KeepUnflagged(s, f, n) ==> x in s[..n]
  {
    if n > 0 {
      KeepUnflaggedMembers(s, f, n - 1);
      var r := KeepUnflagged(s, f, n - 1);
      assert KeepUnflagged(s, f, n) == r + (if f[n - 1] then [] else [s[n - 1]]);
      forall x | x in KeepUnflagged(s, f, n)
        ensures x in s[..n]
      {
        if x in r {
          assert x in s[..n - 1];
          assert s[..n - 1] <= s[..n];
        }
      }
    }
  }

  /** Only the first `n` elements and flags matter. */
  lemma {:induction false} KeepUnflaggedPrefix<T>(s: seq<T>, f: seq<bool>, s': seq<T>, f': seq<bool>, n: nat)
    requires |s| == |f| && |s'| == |f'| && n <= |s| && n <= |s'|
    requires s[..n] == s'[..n] && f[..n] == f'[..n]
    ensures KeepUnflagged(s, f, n) == KeepUnflagged(s', f', n)
  {
    if n > 0 {
      assert s[n - 1] == s[..n][n - 1] && s'[n - 1] == s'[..n][n - 1];
      assert f[n - 1] == f[..n][n - 1] && f'[n - 1] == f'[..n][n - 1];
      assert s[..n - 1] == s[..n][..n - 1] && s'[..n - 1] == s'[..n][..n - 1];
      assert f[..n - 1] == f[..n][..n - 1] && f'[..n - 1] == f'[..n][..n - 1];
      KeepUnflaggedPrefix(s, f, s', f', n - 1);
    }
  }

  /** Erasing a flagged element leaves the kept elements as they were. */
  lemma {:induction false} KeepUnflaggedRemoveFlagged<T>(s: seq<T>, f: seq<bool>, k: nat, n: nat)
    requires |s| == |f| && k < n <= |s| && f[k]
    ensures KeepUnflagged(RemoveAt(s, k), RemoveAt(f, k), n - 1) == KeepUnflagged(s, f, n)
  {
    RemoveAtIndex(s, k);
    RemoveAtIndex(f, k);
    if n == k + 1 {
      assert RemoveAt(s, k)[..k] == s[..k];
      assert RemoveAt(f, k)[..k] == f[..k];
      KeepUnflaggedPrefix(RemoveAt(s, k), RemoveAt(f, k), s, f, k);
    } else {
      KeepUnflaggedRemoveFlagged(s, f, k, n - 1);
    }
  }

  /** With no flag set, every element is kept. */
  lemma {:induction false} KeepUnflaggedNone<T>(s: seq<T>, f: seq<bool>, n: nat)
    requires |s| == |f| && n <= |s|
    requires forall i :: 0 <= i < n ==> !f[i]
    ensures KeepUnflagged(s, f, n) == s[..n]
  {
    if n > 0 {
      KeepUnflaggedNone(s, f, n - 1);
      assert s[..n] == s[..n - 1] + [s[n - 1]];
    }
  }

  /** Erasing index `k` keeps every other element. */
  lemma RemoveAtKeeps<T>(s: seq<T>, k: nat, x: T)
    requires k < |s| && x in s && x != s[k]
    ensures x in RemoveAt(s, k)
  {
    var p :| 0 <= p < |s| && s[p] == x;
    if p < k {
      assert RemoveAt(s, k)[p] == x;
    } else {
      assert RemoveAt(s, k)[p - 1] == x;
    }
  }

  /** Counting distributes over concatenation. */
  lemma {:induction false} CountTrueAppend(a: seq<bool>, b: seq<bool>)
    ensures CountTrue(a + b) == CountTrue(a) + CountTrue(b)
    decreases |b|
  {
    if b == [] {
      assert a + b == a;
    } else {
      assert (a + b)[..|a + b| - 1] == a + b[..|b| - 1];
      CountTrueAppend(a, b[..|b| - 1]);
    }
  }

  /** Removing a set flag lowers the count by exactly one. */
  lemma RemoveSetFlag(f: seq<bool>, k: nat)
    requires k < |f| && f[k]
    ensures CountTrue(RemoveAt(f, k)) == CountTrue(f) - 1
  {
    var a, b := f[..k], f[k + 1..];
    var one := [f[k]];
    assert RemoveAt(f, k) == a + b;
    assert f[k..] == one + b;
    assert f == a + f[k..];
    assert CountTrue(one) == 1 by {
      assert one[..0] == [];
    }
    CountTrueAppend(one, b);
    CountTrueAppend(a, one + b);
    CountTrueAppend(a, b);
  }

  /** The sum of a sequence of counts. */
  function Sum(v: seq<nat>): nat
  {
    if v == [] then 0 else Sum(v[..|v| - 1]) + v[|v| - 1]
  }

  /** Changing one entry changes the sum by the difference. */
  lemma {:induction false} SumUpdate(v: seq<nat>, k: nat, x: nat)
    requires k < |v|
    ensures Sum(v[k := x]) == Sum(v) - v[k] + x
    decreases |v|
  {
    var w := v[k := x];
    if k == |v| - 1 {
      assert w[..|w| - 1] == v[..|v| - 1];
    } else {
      assert w[..|w| - 1] == v[..|v| - 1][k := x];
      SumUpdate(v[..|v| - 1], k, x);
    }
  }

  /** A pointwise smaller sequence has a smaller sum. */
  lemma {:induction false} SumPointwise(v: seq<nat>, w: seq<nat>)
    requires |v| == |w|
    requires forall i :: 0 <= i < |v| ==> v[i] <= w[i]
    ensures Sum(v) <= Sum(w)
    decreases |v|
  {
    if v != [] {
      SumPointwise(v[..|v| - 1], w[..|w| - 1]);
    }
  }

  /** The memory of `count` framebuffers of w x h RGBA pixels, in whole megabytes. */
  function MemMb(w: nat, h: nat, count: nat): nat
  {
    w * h * 4 * count / 1024 / 1024
  }

  /** Fewer framebuffers never take more memory. */
  lemma MemMbMonotone(w: nat, h: nat, m: nat, n: nat)
    requires m <= n
    ensures MemMb(w, h, m) <= MemMb(w, h, n)
  {
    assert w * h * 4 * m <= w * h * 4 * n by {
      assert w * h * 4 * n == w * h * 4 * m + w * h * 4 * (n - m);
    }
  }

  /** Example values: a 512 x 512 RGBA framebuffer takes exactly one megabyte; an empty list none. */
  lemma MemMbExamples(count: nat)
    ensures MemMb(512, 512, count) == count
    ensures MemMb(512, 512, 0) == 0 && MemMb(1920, 1080, 1) == 7
  {
    assert 512 * 512 * 4 * count == count * 1024 * 1024;
  }

  // ---- FbArrayList ----

  class FbArrayList {
    /** m_fb_list */
    var fbs: seq<Framebuffer>
    /** m_width, m_height */
    const width: nat
    const height: nat
    /** avail[i] records whether fbs[i] is available. */
    ghost var avail: seq<bool>
    ghost var Repr: set<object>

    /**
     * The list owns its framebuffers and their textures, holds each framebuffer
     * once, every reference count is non-negative, every attached texture has
     * the list's size (which is not empty once a framebuffer exists), and
     * `avail` mirrors the availability of each framebuffer.
     */
    ghost predicate Valid()
      reads this, Repr
    {
      && this in Repr
      && |avail| == |fbs|
      && (|fbs| > 0 ==> width > 0 && height > 0)
      && (forall i :: 0 <= i < |fbs| ==>
            && fbs[i] in Repr && fbs[i].Valid() && fbs[i].IsValid()
            && fbs[i].texture in Repr && fbs[i].texture.width == width && fbs[i].texture.height == height
            && avail[i] == fbs[i].Available())
      && (forall i, j :: 0 <= i < j < |fbs| ==> fbs[i] != fbs[j])
    }

    constructor (w: nat, h: nat)
      ensures Valid() && fresh(Repr)
      ensures fbs == [] && width == w && height == h
    {
      fbs := [];
      avail := [];
      width := w;
      height := h;
      Repr := {this};
    }

    /** allSize() */
    function AllSize(): (n: nat)
      reads this
      ensures n == |fbs|
    {
      |fbs|
    }

    /** The number of available framebuffers, which avSize() counts. */
    ghost function AvCount(): (n: nat)
      reads this
      requires |avail| == |fbs|
      ensures n <= AllSize()
    {
      CountTrue(avail)
    }

    /** memSizeMb(): width * height * 4 bytes per framebuffer, in whole megabytes. */
    function MemSizeMb(): nat
      reads this
    {
      MemMb(width, height, |fbs|)
    }

    /** avSize(): counts the available framebuffers one by one. */
    method AvSize() returns (size: nat)
      requires Valid()
      ensures size == AvCount()
    {
      size := 0;
      var i := 0;
      while i < |fbs|
        invariant 0 <= i <= |fbs|
        invariant size == CountTrue(avail[..i])
      {
        assert avail[..i + 1][..i] == avail[..i];
        if fbs[i].Available() {
          size := size + 1;
        }
        i := i + 1;
      }
      assert avail[..i] == avail;
    }

    /** The loop of obtain(): the index of the first available framebuffer, or -1. */
    method FirstAvailable() returns (k: int)
      requires Valid()
      ensures k == FirstTrue(avail)
    {
      var i := 0;
      while i < |fbs|
        invariant 0 <= i <= |fbs|
        invariant forall j :: 0 <= j < i ==> !avail[j]
      {
        if fbs[i].Available() {
          return i;
        }
        i := i + 1;
      }
      return -1;
    }

    /**
     * obtain(): the first available framebuffer, referenced once more. When none
     * is available, a new framebuffer of the list's size is created, referenced
     * and appended; its creation is fatal for an empty size, and then nothing
     * is appended. `freshTexId` and `freshFbId` are the ids GL hands out.
     */
    method Obtain(freshTexId: nat, freshFbId: nat) returns (r: Outcome<Framebuffer>, calls: seq<GLCall>)
      requires Valid() && freshTexId != INVALID_GL_ID && freshFbId != INVALID_GL_ID
      modifies Repr
      ensures Valid() && fresh(Repr - old(Repr))
      ensures old(FirstTrue(avail)) >= 0 ==>
                && fbs == old(fbs) && calls == []
                && avail == old(avail)[old(FirstTrue(avail)) := false]
                && r == Ok(fbs[old(FirstTrue(avail))])
                && r.value.refCount == 1
      ensures old(FirstTrue(avail)) < 0 ==>
                && (r.Raised? <==> width == 0 || height == 0)
                && (r.Raised? ==> fbs == old(fbs) && avail == old(avail))
                && (r.Ok? ==> fresh(r.value) && fbs == old(fbs) + [r.value] && avail == old(avail) + [false]
                              && r.value.refCount == 1
                              && r.value.TexWidth() == width && r.value.TexHeight() == height)
      ensures r.Ok? ==> r.value in fbs && r.value.IsValid() && !r.value.Available()
      ensures forall m :: 0 <= m < |old(fbs)| && (r.Raised? || old(fbs)[m] != r.value) ==> unchanged(old(fbs)[m])
    {
      calls := [];
      var k := FirstAvailable();
      if k >= 0 {
        var fb := fbs[k];
        fb.Ref();
        avail := avail[k := false];
        return Ok(fb), calls;
      }
      r, calls := Grow(freshTexId, freshFbId);
    }

    /** The tail of obtain(): creates, references and appends a new framebuffer. */
    method Grow(freshTexId: nat, freshFbId: nat) returns (r: Outcome<Framebuffer>, calls: seq<GLCall>)
      requires Valid() && freshTexId != INVALID_GL_ID && freshFbId != INVALID_GL_ID
      modifies this
      ensures Valid() && fresh(Repr - old(Repr))
      ensures r.Raised? <==> width == 0 || height == 0
      ensures r.Raised? ==> fbs == old(fbs) && avail == old(avail)
      ensures r.Ok? ==> && fresh(r.value) && fbs == old(fbs) + [r.value] && avail == old(avail) + [false]
                        && r.value.refCount == 1
                        && r.value.TexWidth() == width && r.value.TexHeight() == height
                        && r.value.IsValid() && !r.value.Available()
    {
      var fb := new Framebuffer();
      var created;
      created, calls := fb.Create(width, height, freshTexId, freshFbId);
      if created.Raised? {
        return Raised(created.msg), calls;
      }
      fb.Ref();
      fbs := fbs + [fb];
      avail := avail + [false];
      Repr := Repr + {fb, fb.texture};
      r := Ok(fb);
    }

    /**
     * A client's unref() of the framebuffer at position k: one reference less
     * (none at 0, where unref only warns), and the framebuffer is available
     * again once nobody references it. Then the next obtain() reuses it, or an
     * earlier available one, instead of creating a new framebuffer.
     */
    method UnrefAt(k: nat)
      requires Valid() && k < |fbs|
      modifies this, fbs[k]
      ensures Valid() && Repr == old(Repr) && fbs == old(fbs)
      ensures fbs[k].refCount == if old(fbs[k].refCount) == 0 then 0 else old(fbs[k].refCount) - 1
      ensures avail == old(avail)[k := fbs[k].refCount == 0]
      ensures fbs[k].refCount == 0 ==> 0 <= FirstTrue(avail) <= k
    {
      var fb := fbs[k];
      fb.Unref();
      avail := avail[k := fb.Available()];
      if fb.refCount == 0 {
        FirstTrueSet(old(avail), k);
      }
    }

    /** The body of trimMem()'s eviction: releases framebuffer `i` and erases it. */
    method EvictAt(i: nat) returns (calls: seq<GLCall>)
      requires Valid() && i < |fbs|
      modifies Repr
      ensures Valid() && Repr == old(Repr) - {old(fbs[i])}
      ensures fbs == RemoveAt(old(fbs), i) && avail == RemoveAt(old(avail), i)
      ensures !old(fbs[i]).IsValid() && old(fbs[i]) !in Repr
      ensures forall m :: 0 <= m < |fbs| ==> unchanged(fbs[m])
    {
      ghost var s0 := fbs;
      var fb := fbs[i];
      calls := fb.Release();
      RemoveAtIndex(fbs, i);
      RemoveAtIndex(avail, i);
      fbs := RemoveAt(fbs, i);
      avail := RemoveAt(avail, i);
      Repr := Repr - {fb};
      forall m | 0 <= m < |fbs|
        ensures fbs[m] == s0[if m < i then m else m + 1]
      {
      }
    }

    /**
     * trimMem(once): walks the list, releasing and erasing available
     * framebuffers. With `once` it stops after the first and returns true, or
     * returns false when none is available; without `once` it evicts every
     * available framebuffer and returns false all the same. Framebuffers in use
     * are never evicted: their number stays the same.
     */
    method TrimMem(once: bool) returns (trimmed: bool, calls: seq<GLCall>)
      requires Valid()
      modifies Repr
      ensures Valid() && Repr <= old(Repr)
      ensures once ==> (trimmed <==> old(FirstTrue(avail)) >= 0)
      ensures once && trimmed ==>
                && fbs == old(RemoveAt(fbs, FirstTrue(avail)))
                && AvCount() == old(AvCount()) - 1
      ensures once && !trimmed ==> fbs == old(fbs) && avail == old(avail) && calls == []
      ensures once ==> forall m :: 0 <= m < |fbs| ==> unchanged(fbs[m])
      ensures !once ==> !trimmed && fbs == old(KeepUnflagged(fbs, avail, |fbs|)) && AvCount() == 0
      ensures |fbs| - AvCount() == old(|fbs| - AvCount())
    {
      if once {
        trimmed, calls := TrimFirst();
      } else {
        ghost var s0, f0 := fbs, avail;
        calls := TrimAll();
        KeepUnflaggedLength(s0, f0, |s0|);
        assert f0[..|s0|] == f0;
        trimmed := false;
      }
    }

    /**
     * trimMem() as FramebufferPool calls it, following one framebuffer in use
     * at position q (when 0 <= q < |fbs|) to its position q' afterwards.
     */
    method TrimMemKeeping(ghost q: int) returns (trimmed: bool, calls: seq<GLCall>, ghost q': int)
      requires Valid() && (0 <= q < |fbs| ==> !avail[q])
      modifies Repr
      ensures Valid() && Repr <= old(Repr)
      ensures trimmed <==> old(AvCount()) > 0
      ensures trimmed ==> |fbs| == old(|fbs|) - 1 && AvCount() == old(AvCount()) - 1
      ensures !trimmed ==> unchanged(Repr) && q' == q && calls == []
      ensures 0 <= q < old(|fbs|) ==>
                0 <= q' < |fbs| && fbs[q'] == old(fbs[q]) && !avail[q']
    {
      q' := q;
      ghost var k := FirstTrue(avail);
      ghost var f0, a0 := fbs, avail;
      trimmed, calls := TrimFirst();
      if trimmed && 0 <= q < |f0| {
        q' := Shifted(q, k);
        RemoveAtShifted(f0, k, q);
        RemoveAtShifted(a0, k, q);
      }
    }

    /** trimMem(true): the walk stops at the first available framebuffer. */
    method TrimFirst() returns (trimmed: bool, calls: seq<GLCall>)
      requires Valid()
      modifies Repr
      ensures Valid() && Repr <= old(Repr)
      ensures trimmed <==> old(FirstTrue(avail)) >= 0
      ensures trimmed ==>
                && fbs == old(RemoveAt(fbs, FirstTrue(avail)))
                && avail == old(RemoveAt(avail, FirstTrue(avail)))
                && AvCount() == old(AvCount()) - 1
                && !old(fbs[FirstTrue(avail)]).IsValid()
      ensures !trimmed ==> unchanged(Repr) && calls == []
      ensures forall m :: 0 <= m < |fbs| ==> unchanged(fbs[m])
    {
      var k := FirstAvailable();
      if k < 0 {
        return false, [];
      }
      RemoveSetFlag(avail, k);
      calls := EvictAt(k);
      trimmed := true;
    }

    /** trimMem(false): the walk evicts every available framebuffer. */
    method TrimAll() returns (calls: seq<GLCall>)
      requires Valid()
      modifies Repr
      ensures Valid() && Repr <= old(Repr)
      ensures fbs == old(KeepUnflagged(fbs, avail, |fbs|)) && AvCount() == 0
    {
      calls := [];
      ghost var k0 := KeepUnflagged(fbs, avail, |fbs|);
      var i := 0;
      while i < |fbs|
        invariant Valid() && Repr <= old(Repr)
        invariant 0 <= i <= |fbs|
        invariant KeepUnflagged(fbs, avail, |fbs|) == k0
        invariant forall m :: 0 <= m < i ==> !avail[m]
        decreases |fbs| - i
      {
        if fbs[i].Available() {
          ghost var pre, fpre := fbs, avail;
          KeepUnflaggedRemoveFlagged(pre, fpre, i, |pre|);
          RemoveAtIndex(fpre, i);
          var c := EvictAt(i);
          calls := calls + c;
        } else {
          i := i + 1;
        }
      }
      KeepUnflaggedNone(fbs, avail, |fbs|);
      assert fbs[..|fbs|] == fbs;
    }

    /** release(): releases every framebuffer and empties the list; reference counts stay. */
    method Release() returns (calls: seq<GLCall>)
      requires Valid()
      modifies Repr
      ensures Valid() && Repr == old(Repr) && fbs == []
      ensures forall m :: 0 <= m < |old(fbs)| ==> !old(fbs)[m].IsValid() && old(fbs)[m].refCount == old(fbs[m].refCount)
    {
      calls := [];
      var i := 0;
      while i < |fbs|
        invariant 0 <= i <= |fbs| && fbs == old(fbs) && Repr == old(Repr)
        invariant forall m :: 0 <= m < |fbs| ==> fbs[m].Valid() && (fbs[m].texture != null ==> fbs[m].texture in Repr)
        invariant forall m :: 0 <= m < i ==> !fbs[m].IsValid() && fbs[m].refCount == old(fbs[m].refCount)
        invariant forall m :: i <= m < |fbs| ==> unchanged(fbs[m])
      {
        var c := fbs[i].Release();
        calls := calls + c;
        i := i + 1;
      }
      fbs := [];
      avail := [];
    }
  }
  // ---- FramebufferPool ----

  /** The cache limit a pool gets when none is given. */
  const DEFAULT_MAX_CACHE_MB: int := 50

  /** A sum is zero exactly when every count is. */
  lemma {:induction false} SumZero(v: seq<nat>)
    ensures Sum(v) == 0 <==> forall j :: 0 <= j < |v| ==> v[j] == 0
    decreases |v|
  {
    if v != [] {
      SumZero(v[..|v| - 1]);
    }
  }

  /** memSizeMb() of each list, from its size and its number of framebuffers. */
  function Mems(lists: seq<FbArrayList>, counts: seq<nat>): (m: seq<nat>)
    requires |counts| == |lists|
    ensures |m| == |lists|
  {
    seq(|lists|, i requires 0 <= i < |lists| => MemMb(lists[i].width, lists[i].height, counts[i]))
  }

  /**
   * Taking one from a positive count lowers the sum by one; when every count
   * is zero and stays so, the sum is zero.
   */
  lemma SumAfterTrim(v0: seq<nat>, v: seq<nat>, k: int)
    requires 0 <= k < |v0| ==> v0[k] > 0 && v == v0[k := v0[k] - 1]
    requires !(0 <= k < |v0|) ==> v == v0 && forall m :: 0 <= m < |v0| ==> v0[m] == 0
    ensures Sum(v) <= Sum(v0) && (Sum(v) == 0 || Sum(v) < Sum(v0))
  {
    if 0 <= k < |v0| {
      SumUpdate(v0, k, v0[k] - 1);
    } else {
      SumZero(v);
    }
  }

  /** Lists with no more framebuffers each than before take no more memory. */
  lemma MemsMonotone(lists: seq<FbArrayList>, a: seq<nat>, b: seq<nat>)
    requires |a| == |lists| && |b| == |lists|
    requires forall x :: 0 <= x < |lists| ==> a[x] <= b[x]
    ensures Sum(Mems(lists, a)) <= Sum(Mems(lists, b))
  {
    forall x | 0 <= x < |lists|
      ensures Mems(lists, a)[x] <= Mems(lists, b)[x]
    {
      MemMbMonotone(lists[x].width, lists[x].height, a[x], b[x]);
    }
    SumPointwise(Mems(lists, a), Mems(lists, b));
  }

  /**
   * Every list has no more framebuffers than before (a0) and exactly as many
   * in use as before (a0 - v0): only available framebuffers went away.
   */
  predicate Shrunk(a: seq<nat>, v: seq<nat>, a0: seq<nat>, v0: seq<nat>)
  {
    && |a| == |a0| && |v| == |a0| && |v0| == |a0|
    && forall x :: 0 <= x < |a| ==> a[x] <= a0[x] && a[x] as int - v[x] == a0[x] as int - v0[x]
  }

  lemma ShrunkRefl(a: seq<nat>, v: seq<nat>)
    requires |a| == |v|
    ensures Shrunk(a, v, a, v)
  {
  }

  lemma ShrunkTrans(a: seq<nat>, v: seq<nat>, a1: seq<nat>, v1: seq<nat>, a0: seq<nat>, v0: seq<nat>)
    requires Shrunk(a, v, a1, v1) && Shrunk(a1, v1, a0, v0)
    ensures Shrunk(a, v, a0, v0)
  {
  }

  /** Evicting one available framebuffer of list k, or nothing, shrinks the lists. */
  lemma ShrunkAfterTrim(a0: seq<nat>, v0: seq<nat>, a: seq<nat>, v: seq<nat>, k: int)
    requires |a0| == |v0|
    requires 0 <= k < |a0| ==> a0[k] > 0 && v0[k] > 0 && a == a0[k := a0[k] - 1] && v == v0[k := v0[k] - 1]
    requires !(0 <= k < |a0|) ==> a == a0 && v == v0
    ensures Shrunk(a, v, a0, v0)
  {
  }

  /** Where a framebuffer sits in the pool: list `list`, position `index`; a proof-only name. */
  datatype Slot = NoSlot | At(list: nat, index: nat)

  /**
   * The map's keys, in map order, are strictly sorted, and each is the key of
   * the size of the list stored under it.
   */
  ghost predicate KeysFor(keys: seq<string>, lists: seq<FbArrayList>)
  {
    && |keys| == |lists| && StrictlySorted(keys)
    && forall i :: 0 <= i < |keys| ==> keys[i] == Key(lists[i].width, lists[i].height)
  }

  /** Inserting a new size's list at its key's lower bound keeps the map ordered by key. */
  lemma KeysForInsert(keys: seq<string>, lists: seq<FbArrayList>, p: nat, list: FbArrayList)
    requires KeysFor(keys, lists) && Key(list.width, list.height) !in keys
    requires p == LowerBound(keys, Key(list.width, list.height))
    ensures KeysFor(InsertAt(keys, p, Key(list.width, list.height)), InsertAt(lists, p, list))
  {
    var key := Key(list.width, list.height);
    InsertSorted(keys, key);
    forall j | 0 <= j < |keys| + 1 && j != p
      ensures InsertAt(keys, p, key)[j] == Key(InsertAt(lists, p, list)[j].width, InsertAt(lists, p, list)[j].height)
    {
      InsertAtIndex(keys, p, key, j);
      InsertAtIndex(lists, p, list, j);
    }
  }

  /**
   * FramebufferPool: one FbArrayList per framebuffer size, kept in a map from
   * the size's key. The map is modelled by two parallel sequences in key
   * order, and each list's size, available count and memory are mirrored in
   * proof-only views so that the pool's totals are sums over them.
   */
  class FramebufferPool {
    /** The keys of m_fb_map, in map order. */
    var keys: seq<string>
    /** The lists of m_fb_map: lists[i] is stored under keys[i]. */
    var lists: seq<FbArrayList>
    /** m_max_mem_cache_mb */
    const maxCacheMb: int
    /** allView[i] and avView[i] record allSize() and avSize() of lists[i]. */
    ghost var allView: seq<nat>
    ghost var avView: seq<nat>
    ghost var Repr: set<object>

    /** The map is ordered by key, and the heap invariant holds. */
    ghost predicate Valid()
      reads this, Repr
    {
      Inv() && KeysFor(keys, lists)
    }

    /**
     * Lists are valid, own disjoint parts of the heap, and agree with the
     * views.
     */
    ghost predicate Inv()
      reads this, Repr
    {
      && this in Repr
      && |keys| == |lists| && |allView| == |lists| && |avView| == |lists|
      && (forall i :: 0 <= i < |lists| ==>
            && lists[i] in Repr && lists[i].Repr <= Repr && this !in lists[i].Repr
            && lists[i].Valid()
            && allView[i] == |lists[i].fbs|
            && avView[i] == lists[i].AvCount())
      && (forall i, j :: 0 <= i < j < |lists| ==> lists[i].Repr !! lists[j].Repr)
    }

    /** FramebufferPool(max_mem_cache_mb): an empty pool; DEFAULT_MAX_CACHE_MB is the default. */
    constructor (maxMb: int)
      ensures Valid() && fresh(Repr)
      ensures keys == [] && lists == [] && maxCacheMb == maxMb
    {
      keys, lists := [], [];
      maxCacheMb := maxMb;
      allView, avView := [], [];
      Repr := {this};
    }

    /** Whether the framebuffer at `s` exists and is in use. */
    ghost predicate InUse(s: Slot)
      reads this, Repr
      requires Inv()
    {
      s.At? ==> s.list < |lists| && s.index < |lists[s.list].fbs| && !lists[s.list].avail[s.index]
    }

    /**
     * obtain(w, h): the framebuffer comes from the list stored under the
     * size's key, which is created and inserted in key order when missing.
     * An empty size is fatal. Afterwards the memory is trimmed, which never
     * evicts the framebuffer just handed out: it stays in use at `s`.
     */
    method Obtain(w: nat, h: nat, freshTexId: nat, freshFbId: nat) returns (r: Outcome<Framebuffer>, calls: seq<GLCall>, ghost s: Slot)
      requires Valid() && freshTexId != INVALID_GL_ID && freshFbId != INVALID_GL_ID
      modifies Repr
      ensures Valid() && fresh(Repr - old(Repr))
      ensures Key(w, h) in old(keys) ==> keys == old(keys) && lists == old(lists)
      ensures Key(w, h) !in old(keys) ==> keys == InsertAt(old(keys), LowerBound(old(keys), Key(w, h)), Key(w, h))
      ensures r.Raised? <==> w == 0 || h == 0
      ensures r.Ok? ==>
                && InUse(s) && s.At? && FbAt(s) == r.value
                && r.value.IsValid() && !r.value.Available()
                && r.value.TexWidth() == w && r.value.TexHeight() == h
      ensures r.Ok? ==> Sum(Mems(lists, allView)) <= maxCacheMb || Sum(avView) == 0
    {
      var i := ListFor(w, h);
      ghost var q;
      r, calls, q := ListObtain(i, freshTexId, freshFbId);
      s := At(i, q);
      if r.Raised? {
        return;
      }
      var c;
      c, s := TrimMemIfNeed(s);
      calls := calls + c;
      InUseFacts(s);
    }

    /**
     * The lookup of obtain(): the index of the list stored under the size's
     * key, after inserting a new one when the key is missing.
     */
    method ListFor(w: nat, h: nat) returns (i: nat)
      requires Valid()
      modifies this
      ensures Valid() && fresh(Repr - old(Repr))
      ensures Key(w, h) in old(keys) ==> keys == old(keys) && lists == old(lists)
      ensures Key(w, h) !in old(keys) ==> keys == InsertAt(old(keys), LowerBound(old(keys), Key(w, h)), Key(w, h))
      ensures i < |lists| && keys[i] == Key(w, h)
      ensures lists[i].width == w && lists[i].height == h
    {
      var key := Key(w, h);
      var k := FindKey(keys, key);
      if k < 0 {
        i := AddList(w, h);
      } else {
        i := k;
        KeyInjective(lists[i].width, lists[i].height, w, h);
      }
    }

    /**
     * release(): releases every list's framebuffers and empties the map. Every
     * framebuffer the pool held is left invalid.
     */
    method Release() returns (calls: seq<GLCall>)
      requires Valid()
      modifies Repr
      ensures Valid() && keys == [] && lists == [] && Repr == {this}
      ensures forall x :: 0 <= x < |old(lists)| ==> old(lists)[x].fbs == []
      ensures forall x, m :: 0 <= x < |old(lists)| && 0 <= m < |old(lists[x].fbs)| ==>
                !old(lists[x].fbs[m]).IsValid()
    {
      calls := [];
      var i := 0;
      while i < |lists|
        invariant 0 <= i <= |lists| && Inv() && Repr == old(Repr) && lists == old(lists)
        invariant forall x :: 0 <= x < |lists| ==> lists[x].Repr <= old(lists[x].Repr)
        invariant forall x :: i <= x < |lists| ==> lists[x].fbs == old(lists[x].fbs)
        invariant forall x :: 0 <= x < i ==> allView[x] == 0
        invariant forall x, m :: 0 <= x < i && 0 <= m < |old(lists[x].fbs)| ==>
                    !old(lists[x].fbs[m]).IsValid()
      {
        var c := ReleaseList(i);
        calls := calls + c;
        i := i + 1;
      }
      keys, lists := [], [];
      allView, avView := [], [];
      Repr := {this};
    }

    /** release() of lists[i], whose views drop to zero; the other lists stay as they were. */
    method ReleaseList(i: nat) returns (calls: seq<GLCall>)
      requires Inv() && i < |lists|
      modifies Repr
      ensures Inv() && Repr == old(Repr) && keys == old(keys) && lists == old(lists)
      ensures allView == old(allView)[i := 0] && avView == old(avView)[i := 0]
      ensures lists[i].Repr == old(lists[i].Repr)
      ensures forall m :: 0 <= m < |old(lists[i].fbs)| ==> !old(lists[i].fbs[m]).IsValid()
      ensures forall x :: 0 <= x < |lists| && x != i ==> lists[x].fbs == old(lists[x].fbs)
      ensures unchanged(old(Repr) - old(lists[i].Repr) - {this})
    {
      var list := lists[i];
      allView, avView := allView[i := 0], avView[i := 0];
      calls := list.Release();
      InvKept(i);
    }

    /** A framebuffer in use is valid, not available, and of its list's size. */
    lemma InUseFacts(s: Slot)
      requires Inv() && InUse(s) && s.At?
      ensures FbAt(s).IsValid() && !FbAt(s).Available()
      ensures FbAt(s).TexWidth() == lists[s.list].width && FbAt(s).TexHeight() == lists[s.list].height
    {
      assert lists[s.list].Valid();
    }

    /**
     * The `m_fb_map[key] = new FbArrayList(w, h)` branch of obtain(): an empty
     * list, inserted at its key's place in map order.
     */
    method AddList(w: nat, h: nat) returns (i: nat)
      requires Valid() && Key(w, h) !in keys
      modifies this
      ensures Valid() && fresh(Repr - old(Repr))
      ensures i == LowerBound(old(keys), Key(w, h))
      ensures keys == InsertAt(old(keys), i, Key(w, h))
      ensures i < |lists| && fresh(lists[i]) && lists[i].fbs == []
      ensures lists[i].width == w && lists[i].height == h
      ensures lists == InsertAt(old(lists), i, lists[i])
    {
      var list := new FbArrayList(w, h);
      var key := Key(w, h);
      i := LowerBound(keys, key);
      KeysForInsert(keys, lists, i, list);
      keys, lists := InsertAt(keys, i, key), InsertAt(lists, i, list);
      allView, avView := InsertAt(allView, i, 0), InsertAt(avView, i, 0);
      Repr := Repr + list.Repr;
      InvInserted(i);
    }

    /**
     * obtain() on lists[i]: the framebuffer handed out is in use at position
     * q of that list; the list's views follow, and every other list is left
     * as it was.
     */
    method ListObtain(i: nat, freshTexId: nat, freshFbId: nat) returns (r: Outcome<Framebuffer>, calls: seq<GLCall>, ghost q: nat)
      requires Inv() && i < |lists| && freshTexId != INVALID_GL_ID && freshFbId != INVALID_GL_ID
      modifies Repr
      ensures Inv() && fresh(Repr - old(Repr)) && keys == old(keys) && lists == old(lists)
      ensures r.Raised? <==> lists[i].width == 0 || lists[i].height == 0
      ensures r.Ok? ==> InUse(At(i, q)) && FbAt(At(i, q)) == r.value
    {
      var list := lists[i];
      ghost var k := FirstTrue(list.avail);
      r, calls := list.Obtain(freshTexId, freshFbId);
      allView, avView := allView[i := |list.fbs|], avView[i := list.AvCount()];
      Repr := Repr + list.Repr;
      InvGrown(i);
      q := if k >= 0 then k else if |list.fbs| > 0 then |list.fbs| - 1 else 0;
    }

    /**
     * A client's unref() of a framebuffer the pool handed out, at position k
     * of lists[i]. Once nobody references it, it is available: the list's
     * next obtain() reuses it or an earlier one, and trimMemIfNeed() may evict
     * it. Only that list's available count changes.
     */
    method Unref(i: nat, k: nat)
      requires Valid() && i < |lists| && k < |lists[i].fbs|
      modifies Repr
      ensures Valid() && Repr == old(Repr) && keys == old(keys) && lists == old(lists)
      ensures lists[i].fbs == old(lists[i].fbs)
      ensures lists[i].fbs[k].refCount ==
                if old(lists[i].fbs[k].refCount) == 0 then 0 else old(lists[i].fbs[k].refCount) - 1
      ensures lists[i].avail == old(lists[i].avail)[k := lists[i].fbs[k].refCount == 0]
      ensures lists[i].fbs[k].refCount == 0 ==> 0 <= FirstTrue(lists[i].avail) <= k && avView[i] > 0
      ensures allView == old(allView) && avView == old(avView)[i := avView[i]]
      ensures forall x :: 0 <= x < |lists| && x != i ==>
                lists[x].fbs == old(lists[x].fbs) && lists[x].avail == old(lists[x].avail)
    {
      var list := lists[i];
      list.UnrefAt(k);
      avView := avView[i := list.AvCount()];
      InvKept(i);
    }

    /** allSize(): the framebuffers of all lists. */
    method AllSize() returns (n: nat)
      requires Inv()
      ensures n == Sum(allView)
    {
      n := 0;
      var i := 0;
      while i < |lists|
        invariant 0 <= i <= |lists| && n == Sum(allView[..i])
      {
        assert allView[..i + 1][..i] == allView[..i];
        n := n + lists[i].AllSize();
        i := i + 1;
      }
      assert allView[..i] == allView;
    }

    /** avSize(): the available framebuffers of all lists. */
    method AvSize() returns (n: nat)
      requires Inv()
      ensures n == Sum(avView)
    {
      n := 0;
      var i := 0;
      while i < |lists|
        invariant 0 <= i <= |lists| && n == Sum(avView[..i])
      {
        assert avView[..i + 1][..i] == avView[..i];
        var a := lists[i].AvSize();
        n := n + a;
        i := i + 1;
      }
      assert avView[..i] == avView;
    }

    /** memSizeMb(): the sum of the lists' memory, each rounded down separately. */
    method MemSizeMb() returns (n: nat)
      requires Inv()
      ensures n == Sum(Mems(lists, allView))
    {
      n := 0;
      var i := 0;
      while i < |lists|
        invariant 0 <= i <= |lists| && n == Sum(Mems(lists, allView)[..i])
      {
        assert Mems(lists, allView)[..i + 1][..i] == Mems(lists, allView)[..i];
        n := n + lists[i].MemSizeMb();
        i := i + 1;
      }
      assert Mems(lists, allView)[..i] == Mems(lists, allView);
    }

    /**
     * One pass of trimMemIfNeed()'s inner loop: walks the lists in key order
     * and stops at the first whose trimMem() evicts a framebuffer. That is the
     * first list with an available framebuffer, which loses one available
     * framebuffer; every other list keeps its size. The framebuffer at `s`, in
     * use, survives at `s'`.
     */
    method TrimOnce(ghost s: Slot) returns (trimmed: bool, calls: seq<GLCall>, ghost s': Slot, ghost k: int)
      requires Inv() && InUse(s)
      modifies Repr
      ensures Inv() && Repr == old(Repr) && keys == old(keys) && lists == old(lists)
      ensures trimmed ==>
                && 0 <= k < |lists| && old(avView[k]) > 0
                && forall m :: 0 <= m < k ==> old(avView[m]) == 0
      ensures !trimmed ==> forall m :: 0 <= m < |lists| ==> old(avView[m]) == 0
      ensures trimmed ==>
                && allView == old(allView)[k := old(allView)[k] - 1]
                && avView == old(avView)[k := old(avView)[k] - 1]
      ensures !trimmed ==>
                allView == old(allView) && avView == old(avView) && calls == []
      ensures InUse(s') && (s'.At? <==> s.At?) && (s.At? ==> s'.list == s.list)
      ensures FbAt(s') == old(FbAt(s))
    {
      trimmed, calls := false, [];
      s', k := s, -1;
      ghost var v0 := avView;
      var i := 0;
      while i < |lists|
        invariant Inv() && Repr == old(Repr) && unchanged(Repr) && 0 <= i <= |lists|
        invariant v0 == old(avView) && forall m :: 0 <= m < i ==> v0[m] == 0
        invariant !trimmed && calls == [] && s' == s
      {
        trimmed, calls, s' := TrimListAt(i, s);
        if trimmed {
          k := i;
          return;
        }
        i := i + 1;
      }
    }

    /**
     * trimMemIfNeed(): nothing happens while the pool's memory is within the
     * limit. Otherwise passes of the trim loop repeat until the memory is
     * within the limit or no framebuffer is available. Only available
     * framebuffers are evicted, so each list keeps its framebuffers in use,
     * and the framebuffer at `s` survives at `s'`.
     */
    method TrimMemIfNeed(ghost s: Slot) returns (calls: seq<GLCall>, ghost s': Slot)
      requires Inv() && InUse(s)
      modifies Repr
      ensures Inv() && Repr == old(Repr) && keys == old(keys) && lists == old(lists)
      ensures old(Sum(Mems(lists, allView))) <= maxCacheMb ==> unchanged(Repr) && calls == [] && s' == s
      ensures Sum(Mems(lists, allView)) <= maxCacheMb || Sum(avView) == 0
      ensures Sum(Mems(lists, allView)) <= old(Sum(Mems(lists, allView)))
      ensures Shrunk(allView, avView, old(allView), old(avView))
      ensures InUse(s') && (s'.At? <==> s.At?) && (s.At? ==> s'.list == s.list)
      ensures FbAt(s') == old(FbAt(s))
    {
      calls, s' := [], s;
      var cur := MemSizeMb();
      if cur <= maxCacheMb {
        ShrunkRefl(allView, avView);
        return;
      }
      calls, s' := TrimUntilFits(s);
      MemsMonotone(lists, allView, old(allView));
    }

    /** The do-while loop of trimMemIfNeed(). */
    method TrimUntilFits(ghost s: Slot) returns (calls: seq<GLCall>, ghost s': Slot)
      requires Inv() && InUse(s)
      modifies Repr
      ensures Inv() && Repr == old(Repr) && keys == old(keys) && lists == old(lists)
      ensures Sum(Mems(lists, allView)) <= maxCacheMb || Sum(avView) == 0
      ensures Shrunk(allView, avView, old(allView), old(avView))
      ensures InUse(s') && (s'.At? <==> s.At?) && (s.At? ==> s'.list == s.list)
      ensures FbAt(s') == old(FbAt(s))
    {
      calls, s' := [], s;
      ghost var a0, v0, fb0 := allView, avView, FbAt(s);
      ShrunkRefl(allView, avView);
      var again := true;
      while again
        invariant Inv() && Repr == old(Repr) && keys == old(keys) && lists == old(lists)
        invariant Shrunk(allView, avView, a0, v0)
        invariant InUse(s') && (s'.At? <==> s.At?) && (s.At? ==> s'.list == s.list)
        invariant FbAt(s') == fb0
        invariant !again ==> Sum(Mems(lists, allView)) <= maxCacheMb || Sum(avView) == 0
        decreases Sum(avView), again
      {
        ghost var a1, v1 := allView, avView;
        var c;
        c, s' := TrimPass(s');
        ShrunkTrans(allView, avView, a1, v1, a0, v0);
        calls := calls + c;
        again := KeepTrimming();
      }
    }

    /**
     * The condition of trimMemIfNeed()'s do-while loop: the memory is over
     * the limit and some framebuffer is available (avSize() is only asked
     * when the first half holds).
     */
    method KeepTrimming() returns (again: bool)
      requires Inv()
      ensures again <==> Sum(Mems(lists, allView)) > maxCacheMb && Sum(avView) > 0
    {
      var mem := MemSizeMb();
      again := false;
      if mem > maxCacheMb {
        var av := AvSize();
        again := av > 0;
      }
    }

    /** The framebuffer at a slot, if any. */
    ghost function FbAt(s: Slot): Framebuffer?
      reads this, Repr
      requires Inv() && InUse(s)
    {
      if s.At? then lists[s.list].fbs[s.index] else null
    }

    /**
     * The trim pass of trimMemIfNeed()'s do-while loop, with what it does to
     * the number of available framebuffers: one fewer, or none were left.
     */
    method TrimPass(ghost s: Slot) returns (calls: seq<GLCall>, ghost s': Slot)
      requires Inv() && InUse(s)
      modifies Repr
      ensures Inv() && Repr == old(Repr) && keys == old(keys) && lists == old(lists)
      ensures Sum(avView) <= old(Sum(avView)) && (Sum(avView) == 0 || Sum(avView) < old(Sum(avView)))
      ensures Shrunk(allView, avView, old(allView), old(avView))
      ensures InUse(s') && (s'.At? <==> s.At?) && (s.At? ==> s'.list == s.list)
      ensures FbAt(s') == old(FbAt(s))
    {
      var trimmed;
      ghost var k, a0, v0 := 0, allView, avView;
      trimmed, calls, s', k := TrimOnce(s);
      SumAfterTrim(v0, avView, if trimmed then k else -1);
      ShrunkAfterTrim(a0, v0, allView, avView, if trimmed then k else -1);
    }

    /** trimMem() on lists[i], following the framebuffer at `s`. */
    method TrimListAt(i: nat, ghost s: Slot) returns (trimmed: bool, calls: seq<GLCall>, ghost s': Slot)
      requires Inv() && i < |lists| && InUse(s)
      modifies Repr
      ensures Inv() && Repr == old(Repr) && keys == old(keys) && lists == old(lists)
      ensures trimmed <==> old(avView[i]) > 0
      ensures trimmed ==>
                && allView == old(allView)[i := old(allView)[i] - 1]
                && avView == old(avView)[i := old(avView)[i] - 1]
      ensures !trimmed ==> unchanged(Repr) && calls == [] && s' == s
      ensures !trimmed ==> allView == old(allView) && avView == old(avView) && avView[i] == 0
      ensures InUse(s') && (s'.At? <==> s.At?) && (s.At? ==> s'.list == s.list)
      ensures FbAt(s') == old(FbAt(s))
    {
      ghost var q: int := if s.At? && s.list == i then s.index else -1;
      ghost var q';
      trimmed, calls, q' := TrimList(i, q);
      s' := s;
      if s.At? && s.list == i {
        s' := At(i, q');
      }
    }

    /**
     * trimMem() on lists[i]: the views of that list are set to what the trim
     * leaves, the other lists are untouched, and the framebuffer in use at
     * position q of the list moves to q'.
     */
    method TrimList(i: nat, ghost q: int) returns (trimmed: bool, calls: seq<GLCall>, ghost q': int)
      requires Inv() && i < |lists| && (0 <= q < |lists[i].fbs| ==> !lists[i].avail[q])
      modifies Repr
      ensures Inv() && Repr == old(Repr) && keys == old(keys) && lists == old(lists)
      ensures trimmed <==> old(avView[i]) > 0
      ensures trimmed ==>
                && allView == old(allView)[i := old(allView)[i] - 1]
                && avView == old(avView)[i := old(avView)[i] - 1]
      ensures !trimmed ==> unchanged(Repr) && calls == [] && q' == q
      ensures forall x :: 0 <= x < |lists| && x != i ==>
                lists[x].fbs == old(lists[x].fbs) && lists[x].avail == old(lists[x].avail)
      ensures 0 <= q < old(|lists[i].fbs|) ==>
                && 0 <= q' < |lists[i].fbs| && lists[i].fbs[q'] == old(lists[i].fbs[q])
                && !lists[i].avail[q']
    {
      var list := lists[i];
      // The views of lists[i] are set first, to what the trim will leave.
      if avView[i] > 0 {
        allView, avView := allView[i := allView[i] - 1], avView[i := avView[i] - 1];
      }
      trimmed, calls, q' := list.TrimMemKeeping(q);
      InvKept(i);
    }

    /** Inserting a new, empty list with its own fresh objects keeps the pool's invariant. */
    twostate lemma InvInserted(i: nat)
      requires old(Inv()) && i <= |old(lists)| && |keys| == |lists|
      requires unchanged(old(Repr) - {this})
      requires i < |lists| && lists == InsertAt(old(lists), i, lists[i])
      requires allView == InsertAt(old(allView), i, 0) && avView == InsertAt(old(avView), i, 0)
      requires lists[i].Valid() && lists[i].fbs == [] && fresh(lists[i].Repr)
      requires Repr == old(Repr) + lists[i].Repr
      ensures Inv()
    {
      forall x | 0 <= x < |lists| && x != i
        ensures lists[x] == old(lists[if x < i then x else x - 1])
        ensures allView[x] == old(allView[if x < i then x else x - 1])
        ensures avView[x] == old(avView[if x < i then x else x - 1])
      {
        InsertAtIndex(old(lists), i, lists[i], x);
        InsertAtIndex(old(allView), i, 0, x);
        InsertAtIndex(old(avView), i, 0, x);
      }
    }

    /**
     * An operation that changes only lists[i], adding only new objects to
     * what it owns, keeps the pool's invariant once the pool owns them too.
     */
    twostate lemma InvGrown(i: nat)
      requires old(Inv()) && i < |old(lists)|
      requires lists == old(lists) && keys == old(keys)
      requires Repr == old(Repr) + lists[i].Repr && fresh(lists[i].Repr - old(lists[i].Repr))
      requires unchanged(old(Repr) - old(lists[i].Repr) - {this})
      requires lists[i].Valid()
      requires |allView| == |avView| == |lists|
      requires allView[i] == |lists[i].fbs| && avView[i] == lists[i].AvCount()
      requires forall x :: 0 <= x < |lists| && x != i ==>
                 allView[x] == old(allView[x]) && avView[x] == old(avView[x])
      ensures Inv()
    {
      forall x | 0 <= x < |lists| && x != i
        ensures lists[x].Repr == old(lists[x].Repr) && lists[x].Valid()
        ensures lists[x].fbs == old(lists[x].fbs) && lists[x].avail == old(lists[x].avail)
        ensures this !in lists[i].Repr && lists[x].Repr !! lists[i].Repr
      {
        assert old(lists[x].Repr) !! old(lists[i].Repr);
      }
    }

    /**
     * An operation that changes only lists[i] (within what it owned) and that
     * list's views keeps the pool's invariant, and leaves the other lists as
     * they were.
     */
    twostate lemma InvKept(i: nat)
      requires old(Inv()) && i < |old(lists)|
      requires lists == old(lists) && Repr == old(Repr) && keys == old(keys)
      requires unchanged(old(Repr) - old(lists[i].Repr) - {this})
      requires lists[i].Valid() && lists[i].Repr <= old(lists[i].Repr)
      requires |allView| == |avView| == |lists|
      requires allView[i] == |lists[i].fbs| && avView[i] == lists[i].AvCount()
      requires forall x :: 0 <= x < |lists| && x != i ==>
                 allView[x] == old(allView[x]) && avView[x] == old(avView[x])
      ensures Inv()
      ensures forall x :: 0 <= x < |lists| && x != i ==>
                lists[x].fbs == old(lists[x].fbs) && lists[x].avail == old(lists[x].avail)
    {
      forall x | 0 <= x < |lists| && x != i
        ensures lists[x].Repr == old(lists[x].Repr) && lists[x].Valid()
        ensures lists[x].fbs == old(lists[x].fbs) && lists[x].avail == old(lists[x].avail)
      {
        assert old(lists[x].Repr) !! old(lists[i].Repr);
      }
    }
  }
}
