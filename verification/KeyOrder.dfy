/** The order of keys in the original's maps. */
module KeyOrder {
  /** Lexicographic, and strict. */
  predicate Before(a: string, b: string) {
    b != [] && (a == [] || a[0] < b[0] || (a[0] == b[0] && Before(a[1..], b[1..])))
  }

  /** The keys agree up to here, where the first one ends or has the smaller letter. */
  ghost predicate SmallerAt(a: string, b: string, k: nat) {
    k <= |a| && k < |b| && a[..k] == b[..k] && (k == |a| || a[k] < b[k])
  }

  lemma SameHead(a: string, b: string, k: nat)
    requires SmallerAt(a, b, k) && k > 0
    ensures a[0] == b[0] && SmallerAt(a[1..], b[1..], k - 1)
  {
    assert a[..k][0] == b[..k][0];
    assert a[1..][..k - 1] == a[..k][1..] && b[1..][..k - 1] == b[..k][1..];
  }

  /** One key comes before another exactly if it is smaller where they first differ. */
  lemma {:induction false} BeforeIff(a: string, b: string)
    ensures Before(a, b) <==> exists k: nat :: SmallerAt(a, b, k)
  {
    forall k: nat | SmallerAt(a, b, k) && k > 0 ensures a[0] == b[0] && SmallerAt(a[1..], b[1..], k - 1) {
      SameHead(a, b, k);
    }
    if a != [] && b != [] && a[0] == b[0] {
      BeforeIff(a[1..], b[1..]);
      forall j: nat | SmallerAt(a[1..], b[1..], j) ensures SmallerAt(a, b, j + 1) {
        assert a[..j + 1] == [a[0]] + a[1..][..j] && b[..j + 1] == [b[0]] + b[1..][..j];
      }
    } else if Before(a, b) {
      assert SmallerAt(a, b, 0);
    }
  }

  lemma {:induction false} Total(a: string, b: string)
    ensures a == b || Before(a, b) || Before(b, a)
  {
    if a != [] && b != [] && a[0] == b[0] {
      Total(a[1..], b[1..]);
      assert a == [a[0]] + a[1..] && b == [b[0]] + b[1..];
    }
  }

  lemma {:induction false} Irreflexive(a: string)
    ensures !Before(a, a)
  {
    if a != [] {
      Irreflexive(a[1..]);
    }
  }

  lemma {:induction false} Transitive(a: string, b: string, c: string)
    requires Before(a, b) && Before(b, c)
    ensures Before(a, c)
  {
    if a != [] && a[0] == b[0] == c[0] {
      Transitive(a[1..], b[1..], c[1..]);
    }
  }

  /** The first key. */
  method Least(keys: set<string>) returns (first: string)
    requires keys != {}
    ensures first in keys && forall key | key in keys && key != first :: Before(first, key)
  {
    first :| first in keys;
    var left := keys - {first};
    while left != {}
      invariant first in keys && left <= keys
      invariant forall key | key in keys && key !in left && key != first :: Before(first, key)
      decreases |left|
    {
      var key :| key in left;
      left := left - {key};
      Total(first, key);
      if Before(key, first) {
        forall other | other in keys && other !in left && other != key ensures Before(key, other) {
          if other != first {
            Transitive(key, first, other);
          }
        }
        first := key;
      }
    }
  }
}
