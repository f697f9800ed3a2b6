/**
 * The keys of FramebufferPool's std::map: `to_string(w) + "x" + to_string(h)`,
 * ordered as std::string compares them (byte by byte, a proper prefix first).
 * The map keeps its entries in that order, which decides which list
 * trimMemIfNeed() trims first.
 */
module PoolKey {

  /** The character of a decimal digit. */
  function DigitChar(d: nat): (c: char)
    requires d < 10
    ensures '0' <= c <= '9'
  {
    "0123456789"[d]
  }

  /** The value of a decimal digit character. */
  function DigitValue(c: char): (d: nat)
    requires '0' <= c <= '9'
    ensures d < 10
  {
    (c as int - '0' as int) as nat
  }

  /** Every character is a decimal digit. */
  predicate AllDigits(s: string)
  {
    forall i :: 0 <= i < |s| ==> '0' <= s[i] <= '9'
  }

  /** std::to_string of a non-negative int: its decimal digits, most significant first, no leading zero. */
  function Decimal(n: nat): (s: string)
    ensures |s| >= 1 && AllDigits(s)
    ensures |s| > 1 ==> s[0] != '0'
  {
    if n < 10 then [DigitChar(n)] else Decimal(n / 10) + [DigitChar(n % 10)]
  }

  /** Reads a string of decimal digits back as a number. */
  function ParseDecimal(s: string): nat
    requires AllDigits(s)
  {
    if s == [] then 0 else ParseDecimal(s[..|s| - 1]) * 10 + DigitValue(s[|s| - 1])
  }

  /** Reading the digits of n gives n back. */
  lemma {:induction false} ParseDecimalOfDecimal(n: nat)
    ensures ParseDecimal(Decimal(n)) == n
  {
    var s := Decimal(n);
    if n < 10 {
      assert s[..0] == [];
    } else {
      assert s[..|s| - 1] == Decimal(n / 10);
      ParseDecimalOfDecimal(n / 10);
    }
  }

  /** Different numbers have different decimal strings. */
  lemma DecimalInjective(a: nat, b: nat)
    requires Decimal(a) == Decimal(b)
    ensures a == b
  {
    ParseDecimalOfDecimal(a);
    ParseDecimalOfDecimal(b);
  }

  /** The map key of a framebuffer size. */
  function Key(w: nat, h: nat): (k: string)
    ensures |k| == |Decimal(w)| + 1 + |Decimal(h)|
    ensures k[|Decimal(w)|] == 'x'
  {
    Decimal(w) + "x" + Decimal(h)
  }

  /** Two sizes share a key only when they are the same size. */
  lemma KeyInjective(w1: nat, h1: nat, w2: nat, h2: nat)
    requires Key(w1, h1) == Key(w2, h2)
    ensures w1 == w2 && h1 == h2
  {
    var a, b := Decimal(w1), Decimal(w2);
    var k := Key(w1, h1);
    assert a == k[..|a|] == b;
    DecimalInjective(w1, w2);
    assert Decimal(h1) == k[|a| + 1..] == Decimal(h2);
    DecimalInjective(h1, h2);
  }

  /** std::string's operator<: the first differing character decides, and a proper prefix is smaller. */
  predicate StrLess(a: string, b: string)
  {
    if a == [] then b != []
    else if b == [] then false
    else if a[0] != b[0] then a[0] < b[0]
    else StrLess(a[1..], b[1..])
  }

  /** No string is smaller than itself. */
  lemma {:induction false} StrLessIrreflexive(a: string)
    ensures !StrLess(a, a)
  {
    if a != [] {
      StrLessIrreflexive(a[1..]);
    }
  }

  /** The order is transitive. */
  lemma {:induction false} StrLessTransitive(a: string, b: string, c: string)
    requires StrLess(a, b) && StrLess(b, c)
    ensures StrLess(a, c)
  {
    if a != [] && b != [] && c != [] && a[0] == b[0] && b[0] == c[0] {
      StrLessTransitive(a[1..], b[1..], c[1..]);
    }
  }

  /** Of two different strings, one is smaller. */
  lemma {:induction false} StrLessTotal(a: string, b: string)
    requires a != b
    ensures StrLess(a, b) || StrLess(b, a)
  {
    if a != [] && b != [] && a[0] == b[0] {
      assert a == [a[0]] + a[1..] && b == [b[0]] + b[1..];
      StrLessTotal(a[1..], b[1..]);
    }
  }

  /** Keys in strictly increasing order, which is how the map keeps them. */
  predicate StrictlySorted(keys: seq<string>)
  {
    forall i, j :: 0 <= i < j < |keys| ==> StrLess(keys[i], keys[j])
  }

  /** A strictly sorted sequence holds each key once. */
  lemma SortedDistinct(keys: seq<string>, i: nat, j: nat)
    requires StrictlySorted(keys) && i < |keys| && j < |keys| && i != j
    ensures keys[i] != keys[j]
  {
    if i < j {
      StrLessIrreflexive(keys[i]);
    } else {
      StrLessIrreflexive(keys[j]);
    }
  }

  /** map::find: the index of `key`, or -1. */
  function FindKey(keys: seq<string>, key: string): (r: int)
    ensures -1 <= r < |keys|
    ensures r >= 0 ==> keys[r] == key
    ensures r < 0 <==> key !in keys
  {
    if keys == [] then -1
    else if keys[|keys| - 1] == key then |keys| - 1
    else
      var r := FindKey(keys[..|keys| - 1], key);
      assert key in keys ==> keys[..|keys| - 1] + [keys[|keys| - 1]] == keys;
      r
  }

  /** Where map::operator[] places a new key: after every smaller key. */
  function LowerBound(keys: seq<string>, key: string): (p: nat)
    requires StrictlySorted(keys)
    ensures p <= |keys|
    ensures forall i :: 0 <= i < p ==> StrLess(keys[i], key)
    ensures forall i :: p <= i < |keys| ==> !StrLess(keys[i], key)
  {
    if keys == [] || !StrLess(keys[0], key) then
      assert forall i :: 0 < i < |keys| ==> !StrLess(keys[i], key) by {
        forall i | 0 < i < |keys|
          ensures !StrLess(keys[i], key)
        {
          if StrLess(keys[i], key) {
            StrLessTransitive(keys[0], keys[i], key);
          }
        }
      }
      0
    else
      1 + LowerBound(keys[1..], key)
  }

  /** Inserting a new key at its lower bound keeps the keys strictly sorted. */
  lemma InsertSorted(keys: seq<string>, key: string)
    requires StrictlySorted(keys) && key !in keys
    ensures StrictlySorted(keys[..LowerBound(keys, key)] + [key] + keys[LowerBound(keys, key)..])
  {
    var p := LowerBound(keys, key);
    var r := keys[..p] + [key] + keys[p..];
    forall i | p <= i < |keys|
      ensures StrLess(key, keys[i])
    {
      StrLessTotal(keys[i], key);
    }
    forall i, j | 0 <= i < j < |r|
      ensures StrLess(r[i], r[j])
    {
      if j < p {
        assert r[i] == keys[i] && r[j] == keys[j];
      } else if j == p {
        assert r[i] == keys[i];
      } else if i == p {
        assert r[j] == keys[j - 1];
      } else if i < p {
        assert r[i] == keys[i] && r[j] == keys[j - 1];
      } else {
        assert r[i] == keys[i - 1] && r[j] == keys[j - 1];
      }
    }
  }

  /**
   * Example: std::map orders keys as strings, not as sizes: "100x100" comes
   * before "20x20" because '1' < '2'.
   */
  lemma KeyOrderExample()
    ensures StrLess(Key(100, 100), Key(20, 20))
  {
    assert Decimal(10) == Decimal(1) + ['0'];
    assert Decimal(100) == Decimal(10) + ['0'];
    assert Decimal(20) == Decimal(2) + ['0'];
    assert Key(100, 100)[0] == '1' && Key(20, 20)[0] == '2';
  }
}
