/**
 Decimal ids, object keys made of a path and an id, and the order in which RocksDB keeps keys.
 */
module Keys {
  import opened Characters

  // ---- Decimal numbers ----

  function Digit(d: nat): char
    requires d < 10
  {
    '0' + d as char
  }

  function DigitValue(c: char): nat
    requires IsDigit(c)
  {
    c as int - '0' as int
  }

  /** `std::to_string` of a natural number. */
  function ToString(n: nat): (s: string)
    ensures s != [] && forall i :: 0 <= i < |s| ==> IsDigit(s[i])
  {
    if n < 10 then [Digit(n)] else ToString(n / 10) + [Digit(n % 10)]
  }

  /** The number a string of digits denotes. */
  function ToInt(s: string): nat
    requires forall i :: 0 <= i < |s| ==> IsDigit(s[i])
  {
    if s == [] then 0 else 10 * ToInt(s[..|s| - 1]) + DigitValue(s[|s| - 1])
  }

  lemma {:induction false} ToIntToString(n: nat)
    ensures ToInt(ToString(n)) == n
    decreases n
  {
    var s := ToString(n);
    if n < 10 {
      assert s[..0] == [];
    } else {
      assert s[..|s| - 1] == ToString(n / 10);
      ToIntToString(n / 10);
    }
  }

  /** No number but 0 starts with a 0. */
  lemma {:induction false} ToStringIsCanonical(n: nat)
    ensures ToString(n)[0] == '0' <==> n == 0
    ensures n == 0 ==> ToString(n) == "0"
    decreases n
  {
    if n >= 10 {
      ToStringIsCanonical(n / 10);
    }
  }

  function DigitPrefix(s: string): (d: string)
    ensures d <= s && forall i :: 0 <= i < |d| ==> IsDigit(d[i])
    ensures |d| < |s| ==> !IsDigit(s[|d|])
  {
    if s == [] || !IsDigit(s[0]) then [] else [s[0]] + DigitPrefix(s[1..])
  }

  /** `atoi`: the number at the start of a string, 0 if there is none. */
  function Atoi(s: string): nat {
    ToInt(DigitPrefix(s))
  }

  lemma AtoiToString(n: nat)
    ensures DigitPrefix(ToString(n)) == ToString(n) && Atoi(ToString(n)) == n
  {
    var s := ToString(n);
    assert |DigitPrefix(s)| == |s|;
    ToIntToString(n);
  }

  // ---- Object keys ----

  function ObjectKey(path: string, id: nat): string {
    path + "/" + ToString(id)
  }

  /** A key determines its path and its id: the id is what follows the last slash. */
  lemma ObjectKeyIsInjective(p: string, i: nat, q: string, j: nat)
    requires ObjectKey(p, i) == ObjectKey(q, j)
    ensures p == q && i == j
  {
    var k := ObjectKey(p, i);
    assert k == ObjectKey(q, j);
    LastSlash(p, i);
    LastSlash(q, j);
    assert k[|p|] == '/' && k[|q|] == '/';
    assert |p| == |q|;
    assert p == k[..|p|] == q;
    assert ToString(i) == k[|p| + 1..] == ToString(j);
    ToIntToString(i);
    ToIntToString(j);
  }

  lemma LastSlash(p: string, i: nat)
    ensures var k := ObjectKey(p, i); k[|p|] == '/' && forall n :: |p| < n < |k| ==> k[n] != '/'
  {
  }

  lemma ObjectKeyEndsInDigit(p: string, i: nat)
    ensures var k := ObjectKey(p, i); |k| > |p| && p <= k && IsDigit(k[|k| - 1])
  {
  }

  /** The keys of the first `n` objects of a path. */
  function ObjectKeys(path: string, n: nat): set<string> {
    set i | 0 <= i < n :: ObjectKey(path, i)
  }

  lemma ObjectKeysSnoc(path: string, n: nat)
    ensures ObjectKeys(path, n + 1) == ObjectKeys(path, n) + {ObjectKey(path, n)}
    ensures ObjectKey(path, n) !in ObjectKeys(path, n)
  {
    if ObjectKey(path, n) in ObjectKeys(path, n) {
      var i :| 0 <= i < n && ObjectKey(path, n) == ObjectKey(path, i);
      ObjectKeyIsInjective(path, n, path, i);
    }
  }

  // ---- Bytewise order ----

  /** The order of RocksDB's default comparator. */
  predicate Less(a: string, b: string) {
    b != [] && (a == [] || a[0] < b[0] || (a[0] == b[0] && Less(a[1..], b[1..])))
  }

  /** The bytes are equal up to `i` and smaller there. */
  ghost predicate SmallerAt(a: string, b: string, i: nat) {
    i < |a| && i < |b| && a[..i] == b[..i] && a[i] < b[i]
  }

  /** It is the lexicographic order: a proper prefix comes first, and otherwise the first difference decides. */
  lemma {:induction false} LessMeans(a: string, b: string)
    ensures Less(a, b) <==> a < b || exists i :: SmallerAt(a, b, i)
    decreases |a|
  {
    if a == [] || b == [] {
      assert a == [] && b != [] ==> a < b;
    } else if a[0] != b[0] {
      assert a[0] < b[0] ==> SmallerAt(a, b, 0);
      assert forall i: nat :: 0 < i < |a| && i < |b| ==> a[..i][0] != b[..i][0];
    } else {
      LessMeans(a[1..], b[1..]);
      LessTail(a, b);
    }
  }

  lemma LessTail(a: string, b: string)
    requires a != [] && b != [] && a[0] == b[0]
    ensures a < b <==> a[1..] < b[1..]
    ensures (exists i :: SmallerAt(a, b, i)) <==> exists i :: SmallerAt(a[1..], b[1..], i)
  {
    assert a == [a[0]] + a[1..] && b == [b[0]] + b[1..];
    if i: nat :| SmallerAt(a, b, i) {
      assert i > 0;
      assert a[1..][..i - 1] == a[..i][1..] && b[1..][..i - 1] == b[..i][1..];
      assert SmallerAt(a[1..], b[1..], i - 1);
    }
    if i: nat :| SmallerAt(a[1..], b[1..], i) {
      assert a[..i + 1] == [a[0]] + a[1..][..i] && b[..i + 1] == [b[0]] + b[1..][..i];
      assert SmallerAt(a, b, i + 1);
    }
  }

  lemma {:induction false} LessTransitive(a: string, b: string, c: string)
    requires Less(a, b) && Less(b, c)
    ensures Less(a, c)
    decreases |a|
  {
    if a != [] && a[0] == b[0] == c[0] {
      LessTransitive(a[1..], b[1..], c[1..]);
    }
  }

  lemma {:induction false} LessIrreflexive(a: string)
    ensures !Less(a, a)
    decreases |a|
  {
    if a != [] {
      LessIrreflexive(a[1..]);
    }
  }

  lemma {:induction false} LessTotal(a: string, b: string)
    ensures Less(a, b) || a == b || Less(b, a)
    decreases |a|
  {
    if a != [] && b != [] && a[0] == b[0] {
      LessTotal(a[1..], b[1..]);
      assert a == [a[0]] + a[1..] && b == [b[0]] + b[1..];
    }
  }

  ghost predicate Sorted(keys: seq<string>) {
    forall i, j :: 0 <= i < j < |keys| ==> Less(keys[i], keys[j])
  }

  ghost predicate Least(k: string, keys: set<string>) {
    k in keys && forall other :: other in keys && other != k ==> Less(k, other)
  }

  lemma {:induction false} LeastExists(keys: set<string>)
    requires keys != {}
    ensures exists k :: Least(k, keys)
    decreases keys
  {
    var k :| k in keys;
    var rest := keys - {k};
    if rest == {} {
      assert keys == {k};
      assert Least(k, keys);
    } else {
      LeastExists(rest);
      var m :| Least(m, rest);
      LessTotal(k, m);
      if Less(k, m) {
        forall other | other in keys && other != k ensures Less(k, other) {
          if other != m {
            assert other in rest;
            LessTransitive(k, m, other);
          }
        }
        assert Least(k, keys);
      } else {
        forall other | other in keys && other != m ensures Less(m, other) {
          assert other == k || other in rest;
        }
        assert Least(m, keys);
      }
    }
  }

  /** The keys as an iterator meets them. */
  ghost function InOrder(keys: set<string>): (r: seq<string>)
    ensures Sorted(r)
    ensures forall k :: k in r <==> k in keys
    ensures |r| == |keys|
    decreases keys
  {
    if keys == {} then [] else
      LeastExists(keys);
      var k :| Least(k, keys);
      [k] + InOrder(keys - {k})
  }

  lemma SortedHasNoDuplicates(keys: seq<string>)
    requires Sorted(keys)
    ensures forall i, j :: 0 <= i < j < |keys| ==> keys[i] != keys[j]
  {
    forall i, j | 0 <= i < j < |keys| ensures keys[i] != keys[j] {
      LessIrreflexive(keys[i]);
    }
  }

  lemma EmptyHasNoMember(keys: seq<string>)
    ensures keys != [] ==> exists k :: k in keys
  {
    assert keys != [] ==> keys[0] in keys;
  }

  /** A sorted sequence is determined by its elements. */
  lemma {:induction false} SortedIsUnique(a: seq<string>, b: seq<string>)
    requires Sorted(a) && Sorted(b) && forall k :: k in a <==> k in b
    ensures a == b
    decreases |a|
  {
    if a == [] {
      EmptyHasNoMember(b);
    } else {
      assert a[0] in b;
      SortedHeads(a, b);
      SortedHasNoDuplicates(a);
      SortedHasNoDuplicates(b);
      forall k ensures k in a[1..] <==> k in b[1..] {
        TailMembers(a, k);
        TailMembers(b, k);
      }
      SortedIsUnique(a[1..], b[1..]);
      assert a == [a[0]] + a[1..] && b == [b[0]] + b[1..];
    }
  }

  lemma TailMembers(a: seq<string>, k: string)
    requires a != [] && forall i, j :: 0 <= i < j < |a| ==> a[i] != a[j]
    ensures k in a[1..] <==> k in a && k != a[0]
  {
  }

  lemma SortedHeads(a: seq<string>, b: seq<string>)
    requires Sorted(a) && Sorted(b) && a != [] && b != [] && a[0] in b && b[0] in a
    ensures a[0] == b[0]
  {
    var i :| 0 <= i < |b| && b[i] == a[0];
    var j :| 0 <= j < |a| && a[j] == b[0];
    if i > 0 && j > 0 {
      LessTransitive(a[0], a[j], b[i]);
      LessIrreflexive(a[0]);
    }
  }

  /** `SeekToFirst`, then `Next` until the iterator is no longer valid: the keys in order. */
  method NewIterator(keys: set<string>) returns (order: seq<string>)
    ensures order == InOrder(keys)
  {
    order := [];
    var rest := keys;
    while rest != {}
      invariant Sorted(order)
      invariant forall k :: k in keys <==> k in order || k in rest
      invariant forall i, k :: 0 <= i < |order| && k in rest ==> Less(order[i], k)
      decreases rest
    {
      var k := Smallest(rest);
      order := order + [k];
      rest := rest - {k};
    }
    SortedIsUnique(order, InOrder(keys));
  }

  method Smallest(keys: set<string>) returns (k: string)
    requires keys != {}
    ensures Least(k, keys)
  {
    k :| k in keys;
    var rest := keys - {k};
    while rest != {}
      invariant rest < keys && k in keys && k !in rest
      invariant forall other :: other in keys && other !in rest && other != k ==> Less(k, other)
      decreases rest
    {
      var other :| other in rest;
      LessTotal(k, other);
      if Less(other, k) {
        forall third | third in keys && third !in rest && third != k ensures Less(other, third) {
          LessTransitive(other, k, third);
        }
        k := other;
      }
      rest := rest - {other};
    }
  }
}
