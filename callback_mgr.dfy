/**
 * src/utils/CallbackMgr.h: callbacks registered per key. Each key holds its
 * callbacks in registration order, each callback pointer at most once, and
 * a key whose list becomes empty is dropped. The mutex is not modelled:
 * operations run one at a time.
 */
module Callbacks {

  /** A C++ pointer that may be null. */
  datatype Ptr<T> = Null | To(target: T)

  /** One registration: the host reference and the callback pointer. */
  datatype Entry<H, C> = Entry(host: H, callback: C)

  /** Whether `c` is registered in `list`. */
  predicate Holds<H, C(==)>(list: seq<Entry<H, C>>, c: C)
  {
    exists i :: 0 <= i < |list| && list[i].callback == c
  }

  /** No callback pointer appears twice. */
  predicate Distinct<H, C(==)>(list: seq<Entry<H, C>>)
  {
    forall i, j :: 0 <= i < j < |list| ==> list[i].callback != list[j].callback
  }

  /** Every key holds a non-empty list without duplicates. */
  predicate WellFormed<K, H, C(==)>(m: map<K, seq<Entry<H, C>>>)
  {
    forall k :: k in m ==> |m[k]| > 0 && Distinct(m[k])
  }

  /** `list` without the entries of callback `c`. */
  function Without<H, C(==)>(list: seq<Entry<H, C>>, c: C): (r: seq<Entry<H, C>>)
    ensures |r| <= |list|
    ensures !Holds(r, c)
    ensures forall e :: e in r ==> e in list
  {
    if list == [] then []
    else
      var rest := Without(list[..|list| - 1], c);
      if list[|list| - 1].callback == c then rest else rest + [list[|list| - 1]]
  }

  /** What addCallback(key, host, c) makes of the map. */
  function Added<K, H, C(==)>(m: map<K, seq<Entry<H, C>>>, key: K, host: H, c: C): (r: map<K, seq<Entry<H, C>>>)
    ensures key in r && Holds(r[key], c)
    ensures r.Keys == m.Keys + {key}
    ensures forall k :: k in m && k != key ==> r[k] == m[k]
  {
    if key !in m then
      assert [Entry(host, c)][0].callback == c;
      m[key := [Entry(host, c)]]
    else if Holds(m[key], c) then m
    else
      var l := m[key] + [Entry(host, c)];
      assert l[|l| - 1].callback == c;
      m[key := l]
  }

  /** What removeCallback(key, c) makes of the map. */
  function Removed<K, H, C(==)>(m: map<K, seq<Entry<H, C>>>, key: K, c: C): (r: map<K, seq<Entry<H, C>>>)
    ensures key in r ==> key in m && !Holds(r[key], c)
    ensures r.Keys <= m.Keys
    ensures forall k :: k in m && k != key ==> k in r && r[k] == m[k]
  {
    if key !in m then m
    else
      var rest := Without(m[key], c);
      if |rest| == 0 then m - {key} else m[key := rest]
  }

  /** A list without duplicates that does not hold `c` stays so when `c` is appended. */
  lemma AppendDistinct<H, C>(list: seq<Entry<H, C>>, e: Entry<H, C>)
    requires Distinct(list) && !Holds(list, e.callback)
    ensures Distinct(list + [e])
  {
    forall i, j | 0 <= i < j < |list| + 1
      ensures (list + [e])[i].callback != (list + [e])[j].callback
    {
      if j == |list| {
        assert (list + [e])[i] == list[i];
      }
    }
  }

  /** Filtering keeps the list free of duplicates. */
  lemma {:induction false} WithoutDistinct<H, C>(list: seq<Entry<H, C>>, c: C)
    requires Distinct(list)
    ensures Distinct(Without(list, c))
  {
    if list != [] {
      var init := list[..|list| - 1];
      var last := list[|list| - 1];
      assert Distinct(init);
      WithoutDistinct(init, c);
      if last.callback != c {
        var rest := Without(init, c);
        forall i | 0 <= i < |rest|
          ensures rest[i].callback != last.callback
        {
          assert rest[i] in init;
        }
        AppendDistinct(rest, last);
      }
    }
  }

  /** addCallback keeps every list non-empty and free of duplicates. */
  lemma AddedWellFormed<K, H, C>(m: map<K, seq<Entry<H, C>>>, key: K, host: H, c: C)
    requires WellFormed(m)
    ensures WellFormed(Added(m, key, host, c))
  {
    if key in m && !Holds(m[key], c) {
      AppendDistinct(m[key], Entry(host, c));
    }
  }

  /** removeCallback keeps every list non-empty and free of duplicates. */
  lemma RemovedWellFormed<K, H, C>(m: map<K, seq<Entry<H, C>>>, key: K, c: C)
    requires WellFormed(m)
    ensures WellFormed(Removed(m, key, c))
  {
    if key in m {
      WithoutDistinct(m[key], c);
    }
  }

  /** A list that does not hold `c` is its own filter. */
  lemma {:induction false} WithoutAbsent<H, C>(list: seq<Entry<H, C>>, c: C)
    requires !Holds(list, c)
    ensures Without(list, c) == list
  {
    if list != [] {
      var init := list[..|list| - 1];
      WithoutAbsent(init, c);
      assert init + [list[|list| - 1]] == list;
    }
  }

  /** In a list without duplicates, erasing the one entry of `c` is the filter. */
  lemma {:induction false} WithoutErase<H, C>(list: seq<Entry<H, C>>, c: C, i: nat)
    requires Distinct(list) && i < |list| && list[i].callback == c
    ensures Without(list, c) == list[..i] + list[i + 1..]
  {
    var init := list[..|list| - 1];
    var last := list[|list| - 1];
    if i == |list| - 1 {
      WithoutAbsent(init, c);
    } else {
      assert Distinct(init);
      WithoutErase(init, c, i);
      assert last.callback != c by {
        assert list[i].callback != list[|list| - 1].callback;
      }
      assert list[..i] + list[i + 1..] == init[..i] + init[i + 1..] + [last];
    }
  }

  /** Removing a callback right after adding it, when it was not registered, restores the map. */
  lemma RemoveUndoesAdd<K, H, C>(m: map<K, seq<Entry<H, C>>>, key: K, host: H, c: C)
    requires WellFormed(m) && (key in m ==> !Holds(m[key], c))
    ensures Removed(Added(m, key, host, c), key, c) == m
  {
    if key in m {
      var l := m[key] + [Entry(host, c)];
      AppendDistinct(m[key], Entry(host, c));
      WithoutErase(l, c, |m[key]|);
      assert Added(m, key, host, c) == m[key := l];
      assert l[..|m[key]|] + l[|m[key]| + 1..] == m[key];
      assert m[key := m[key]] == m;
    } else {
      var l := [Entry(host, c)];
      WithoutErase(l, c, 0);
    }
  }

  /** Adding a callback a second time changes nothing. */
  lemma AddTwiceIsAddOnce<K, H, C>(m: map<K, seq<Entry<H, C>>>, key: K, host: H, host2: H, c: C)
    ensures Added(Added(m, key, host, c), key, host2, c) == Added(m, key, host, c)
  {
  }

  class CallbackMgr<K(==), H, C(==)> {
    /** callbacks_map */
    var callbacks: map<K, seq<Entry<H, C>>>

    ghost predicate Valid()
      reads this
    {
      WellFormed(callbacks)
    }

    constructor ()
      ensures Valid() && callbacks == map[]
    {
      callbacks := map[];
    }

    /** hasAnyCallback(key) */
    predicate HasAnyCallback(key: K)
      reads this
    {
      key in callbacks
    }

    /**
     * addCallback(key, host, callback): a null callback is ignored; a callback
     * already registered under the key is not added again; otherwise it is
     * appended to the key's list, which is created when missing.
     */
    method AddCallback(key: K, host: H, callback: Ptr<C>)
      requires Valid()
      modifies this
      ensures Valid()
      ensures callback.Null? ==> callbacks == old(callbacks)
      ensures callback.To? ==> callbacks == Added(old(callbacks), key, host, callback.target)
    {
      if callback.Null? {
        return;
      }
      var c := callback.target;
      AddedWellFormed(callbacks, key, host, c);
      if key !in callbacks {
        callbacks := callbacks[key := [Entry(host, c)]];
        return;
      }
      var list := callbacks[key];
      var i := 0;
      while i < |list|
        invariant 0 <= i <= |list|
        invariant forall j :: 0 <= j < i ==> list[j].callback != c
      {
        if list[i].callback == c {
          return;
        }
        i := i + 1;
      }
      callbacks := callbacks[key := list + [Entry(host, c)]];
    }

    /**
     * removeCallback(key, callback): a null callback or a missing key changes
     * nothing; otherwise the callback's entry is erased, and the key with it
     * when its list becomes empty.
     */
    method RemoveCallback(key: K, callback: Ptr<C>)
      requires Valid()
      modifies this
      ensures Valid()
      ensures callback.Null? ==> callbacks == old(callbacks)
      ensures callback.To? ==> callbacks == Removed(old(callbacks), key, callback.target)
    {
      if callback.Null? {
        return;
      }
      var c := callback.target;
      RemovedWellFormed(callbacks, key, c);
      if key !in callbacks {
        return;
      }
      var list := callbacks[key];
      var i := 0;
      while i < |list|
        invariant 0 <= i <= |list|
        invariant forall j :: 0 <= j < i ==> list[j].callback != c
      {
        if list[i].callback == c {
          WithoutErase(list, c, i);
          list := list[..i] + list[i + 1..];
          break;
        }
        i := i + 1;
      }
      if i == |list| {
        WithoutAbsent(list, c);
      }
      if |list| == 0 {
        callbacks := callbacks - {key};
      } else {
        callbacks := callbacks[key := list];
      }
    }

    /** findCallback(key): the key's list, or null when the key is missing. */
    method FindCallback(key: K) returns (r: Ptr<seq<Entry<H, C>>>)
      requires Valid()
      ensures r.Null? <==> !HasAnyCallback(key)
      ensures r.To? ==> r.target == callbacks[key] && |r.target| > 0
    {
      if key !in callbacks {
        return Null;
      }
      r := To(callbacks[key]);
    }

    /** clearCallback(key): drops the key and its list; every other key stays. */
    method ClearCallback(key: K)
      requires Valid()
      modifies this
      ensures Valid()
      ensures callbacks == old(callbacks) - {key}
      ensures !HasAnyCallback(key)
    {
      if key !in callbacks {
        return;
      }
      callbacks := callbacks - {key};
    }
  }
}
