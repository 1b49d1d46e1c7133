/**
 * Cart keys and the order in which the application enumerates them.
 *
 * A cart line is keyed by the pair (machine name, part code). Every listing of
 * the cart (the order summary and the PDF export) walks the keys in ascending
 * tuple order: machine name first, then part code, each compared as a string
 * character by character (a proper prefix sorts first).
 */
module Keys {

  datatype Key = Key(machine: string, code: string)

  /** Lexicographic string order by character code. */
  predicate StrLt(a: string, b: string)
    decreases |a|
  {
    if a == [] then b != []
    else if b == [] then false
    else if a[0] != b[0] then a[0] < b[0]
    else StrLt(a[1..], b[1..])
  }

  lemma {:induction false} StrLtIrreflexive(a: string)
    ensures !StrLt(a, a)
    decreases |a|
  {
    if a != [] {
      StrLtIrreflexive(a[1..]);
    }
  }

  lemma {:induction false} StrLtTransitive(a: string, b: string, c: string)
    requires StrLt(a, b) && StrLt(b, c)
    ensures StrLt(a, c)
    decreases |a|
  {
    if a != [] && a[0] == b[0] && b[0] == c[0] {
      StrLtTransitive(a[1..], b[1..], c[1..]);
    }
  }

  lemma {:induction false} StrLtTrichotomy(a: string, b: string)
    ensures a == b || StrLt(a, b) || StrLt(b, a)
    decreases |a|
  {
    if a != [] && b != [] && a[0] == b[0] {
      StrLtTrichotomy(a[1..], b[1..]);
      if a[1..] == b[1..] {
        assert a == [a[0]] + a[1..] && b == [b[0]] + b[1..];
      }
    }
  }

  lemma {:induction false} StrLtAsymmetric(a: string, b: string)
    requires StrLt(a, b)
    ensures !StrLt(b, a)
  {
    if StrLt(b, a) {
      StrLtTransitive(a, b, a);
      StrLtIrreflexive(a);
    }
  }

  /** The tuple order on keys: machine first, then code. */
  predicate KeyLt(a: Key, b: Key)
  {
    StrLt(a.machine, b.machine) || (a.machine == b.machine && StrLt(a.code, b.code))
  }

  lemma KeyLtIrreflexive(a: Key)
    ensures !KeyLt(a, a)
  {
    StrLtIrreflexive(a.machine);
    StrLtIrreflexive(a.code);
  }

  lemma KeyLtTransitive(a: Key, b: Key, c: Key)
    requires KeyLt(a, b) && KeyLt(b, c)
    ensures KeyLt(a, c)
  {
    if StrLt(a.machine, b.machine) && StrLt(b.machine, c.machine) {
      StrLtTransitive(a.machine, b.machine, c.machine);
    } else if a.machine == b.machine && b.machine == c.machine {
      StrLtTransitive(a.code, b.code, c.code);
    }
  }

  lemma KeyLtTrichotomy(a: Key, b: Key)
    ensures a == b || KeyLt(a, b) || KeyLt(b, a)
  {
    StrLtTrichotomy(a.machine, b.machine);
    StrLtTrichotomy(a.code, b.code);
  }

  lemma KeyLtAsymmetric(a: Key, b: Key)
    requires KeyLt(a, b)
    ensures !KeyLt(b, a)
  {
    if StrLt(a.machine, b.machine) {
      StrLtAsymmetric(a.machine, b.machine);
      if b.machine == a.machine {
        StrLtIrreflexive(a.machine);
      }
    } else {
      StrLtIrreflexive(a.machine);
      StrLtAsymmetric(a.code, b.code);
    }
  }

  /** Keys listed in strictly ascending order (so also without repetition). */
  predicate StrictlySorted(ks: seq<Key>)
  {
    forall i, j :: 0 <= i < j < |ks| ==> KeyLt(ks[i], ks[j])
  }

  /** Every non-empty finite set of keys has a least element. */
  lemma {:induction false} LeastKey(s: set<Key>) returns (m: Key)
    requires s != {}
    ensures m in s && forall k :: k in s && k != m ==> KeyLt(m, k)
    decreases |s|
  {
    var x :| x in s;
    if s == {x} {
      m := x;
    } else {
      var m' := LeastKey(s - {x});
      KeyLtTrichotomy(x, m');
      if KeyLt(x, m') {
        m := x;
        forall k | k in s && k != m
          ensures KeyLt(m, k)
        {
          if k != m' {
            KeyLtTransitive(x, m', k);
          }
        }
      } else {
        m := m';
      }
    }
  }

  lemma LeastKeyExists(s: set<Key>)
    requires s != {}
    ensures exists m :: m in s && forall k :: k in s && k != m ==> KeyLt(m, k)
  {
    var m := LeastKey(s);
  }

  lemma KeyLtAsymmetricAll()
    ensures forall a: Key, b: Key :: KeyLt(a, b) ==> !KeyLt(b, a)
  {
    forall a: Key, b: Key | KeyLt(a, b)
      ensures !KeyLt(b, a)
    {
      KeyLtAsymmetric(a, b);
    }
  }

  /** The least key of a non-empty set. */
  function MinKey(s: set<Key>): (m: Key)
    requires s != {}
    ensures m in s
    ensures forall k :: k in s && k != m ==> KeyLt(m, k)
  {
    LeastKeyExists(s);
    KeyLtAsymmetricAll();
    var m :| m in s && forall k :: k in s && k != m ==> KeyLt(m, k);
    m
  }

  /** The keys of a set in ascending order, as `sorted` produces them. */
  function SortedKeys(s: set<Key>): (r: seq<Key>)
    ensures |r| == |s|
    ensures forall k :: k in r <==> k in s
    decreases |s|
  {
    if s == {} then []
    else
      var m := MinKey(s);
      [m] + SortedKeys(s - {m})
  }

  /** `SortedKeys` lists its keys in strictly ascending order. */
  lemma {:induction false} SortedKeysSorted(s: set<Key>)
    ensures StrictlySorted(SortedKeys(s))
    decreases |s|
  {
    if s != {} {
      var m := MinKey(s);
      var rest := SortedKeys(s - {m});
      SortedKeysSorted(s - {m});
      assert SortedKeys(s) == [m] + rest;
      forall j | 0 <= j < |rest|
        ensures KeyLt(m, rest[j])
      {
        assert rest[j] in s - {m};
      }
    }
  }

  predicate Distinct(ks: seq<Key>)
  {
    forall i, j :: 0 <= i < j < |ks| ==> ks[i] != ks[j]
  }

  lemma StrictlySortedDistinct(ks: seq<Key>)
    requires StrictlySorted(ks)
    ensures Distinct(ks)
  {
    forall i, j | 0 <= i < j < |ks|
      ensures ks[i] != ks[j]
    {
      if ks[i] == ks[j] {
        KeyLtIrreflexive(ks[i]);
      }
    }
  }

  /** `SortedKeys` lists every key once. */
  lemma SortedKeysDistinct(s: set<Key>)
    ensures Distinct(SortedKeys(s))
  {
    SortedKeysSorted(s);
    StrictlySortedDistinct(SortedKeys(s));
  }

  /**
   * A strictly sorted listing of a set of keys is unique: whatever order the
   * keys were inserted in, the enumeration is the same.
   */
  lemma {:induction false} SortedUnique(a: seq<Key>, b: seq<Key>)
    requires StrictlySorted(a) && StrictlySorted(b)
    requires forall k :: k in a <==> k in b
    ensures a == b
    decreases |a|
  {
    assert a != [] ==> a[0] in b;
    assert b != [] ==> b[0] in a;
    if a != [] && b != [] {
      assert b[0] in a;
      assert a[0] in b;
      if a[0] != b[0] {
        var i :| 0 <= i < |a| && a[i] == b[0];
        var j :| 0 <= j < |b| && b[j] == a[0];
        assert KeyLt(a[0], b[0]) by {
          assert i != 0;
        }
        assert KeyLt(b[0], a[0]) by {
          assert j != 0;
        }
        KeyLtAsymmetric(a[0], b[0]);
      }
      forall k
        ensures k in a[1..] <==> k in b[1..]
      {
        if k in a[1..] {
          var i :| 1 <= i < |a| && a[i] == k;
          assert KeyLt(a[0], k);
          if k == b[0] {
            KeyLtIrreflexive(k);
          }
          assert k in b;
        }
        if k in b[1..] {
          var j :| 1 <= j < |b| && b[j] == k;
          assert KeyLt(b[0], k);
          if k == a[0] {
            KeyLtIrreflexive(k);
          }
          assert k in a;
        }
      }
      SortedUnique(a[1..], b[1..]);
      assert a == [a[0]] + a[1..] && b == [b[0]] + b[1..];
    }
  }

  /** Any strictly ascending listing of exactly the keys of `s` is `SortedKeys(s)`. */
  lemma SortedKeysCanonical(s: set<Key>, ks: seq<Key>)
    requires StrictlySorted(ks)
    requires forall k :: k in ks <==> k in s
    ensures SortedKeys(s) == ks
  {
    SortedKeysSorted(s);
    SortedUnique(SortedKeys(s), ks);
  }
}
