/**
 * The per-key counters of `getStatistics`: a plain object used as a map
 * from key to count, updated by `counter[k] = (counter[k] || 0) + 1`.
 * Keys are kept in insertion order, the order in which the object lists
 * them.
 */
module Counters {

  datatype Bucket = Bucket(key: string, count: nat)

  /** The counter's value for `k`; `counter[k] || 0`. */
  function CountOf(c: seq<Bucket>, k: string): nat {
    if c == [] then 0 else if c[0].key == k then c[0].count else CountOf(c[1..], k)
  }

  /** The sum of all counts. */
  function Total(c: seq<Bucket>): nat {
    if c == [] then 0 else c[0].count + Total(c[1..])
  }

  predicate HasKey(c: seq<Bucket>, k: string) {
    exists i :: 0 <= i < |c| && c[i].key == k
  }

  predicate DistinctKeys(c: seq<Bucket>) {
    forall i, j :: 0 <= i < j < |c| ==> c[i].key != c[j].key
  }

  /** `counter[k] = (counter[k] || 0) + 1`: an existing key is incremented
      in place, a new key is added at the end with count 1. */
  function Bump(c: seq<Bucket>, k: string): (r: seq<Bucket>)
    ensures |r| == |c| || |r| == |c| + 1
  {
    if c == [] then [Bucket(k, 1)]
    else if c[0].key == k then [Bucket(k, c[0].count + 1)] + c[1..]
    else [c[0]] + Bump(c[1..], k)
  }

  /** How often `k` occurs in `keys`. */
  function Occurrences(keys: seq<string>, k: string): nat {
    if keys == [] then 0
    else Occurrences(keys[..|keys| - 1], k) + (if keys[|keys| - 1] == k then 1 else 0)
  }

  /** Counting every key of `keys`, one after the other, from an empty object. */
  function Tally(keys: seq<string>): seq<Bucket> {
    if keys == [] then [] else Bump(Tally(keys[..|keys| - 1]), keys[|keys| - 1])
  }

  lemma {:induction false} BumpTotal(c: seq<Bucket>, k: string)
    ensures Total(Bump(c, k)) == Total(c) + 1
  {
    if c != [] && c[0].key != k {
      BumpTotal(c[1..], k);
      assert Bump(c, k)[1..] == Bump(c[1..], k);
    } else if c != [] {
      assert Bump(c, k)[1..] == c[1..];
    }
  }

  lemma {:induction false} BumpCount(c: seq<Bucket>, k: string, j: string)
    ensures CountOf(Bump(c, k), j) == CountOf(c, j) + (if j == k then 1 else 0)
  {
    if c != [] && c[0].key != k {
      BumpCount(c[1..], k, j);
      assert Bump(c, k)[1..] == Bump(c[1..], k);
    } else if c != [] {
      assert Bump(c, k)[1..] == c[1..];
    }
  }

  lemma HasKeyCons(c: seq<Bucket>, j: string)
    requires c != []
    ensures HasKey(c, j) <==> c[0].key == j || HasKey(c[1..], j)
  {
    if HasKey(c, j) && c[0].key != j {
      var i :| 0 <= i < |c| && c[i].key == j;
      assert c[1..][i - 1].key == j;
    }
    if HasKey(c[1..], j) {
      var i :| 0 <= i < |c[1..]| && c[1..][i].key == j;
      assert c[i + 1].key == j;
    }
  }

  lemma {:induction false} BumpKeys(c: seq<Bucket>, k: string, j: string)
    ensures HasKey(Bump(c, k), j) <==> HasKey(c, j) || j == k
  {
    var r := Bump(c, k);
    if c == [] {
      assert r[0].key == k;
    } else {
      HasKeyCons(c, j);
      HasKeyCons(r, j);
      if c[0].key == k {
        assert r[1..] == c[1..];
      } else {
        BumpKeys(c[1..], k, j);
        assert r[1..] == Bump(c[1..], k);
      }
    }
  }

  lemma {:induction false} BumpDistinct(c: seq<Bucket>, k: string)
    requires DistinctKeys(c)
    ensures DistinctKeys(Bump(c, k))
  {
    var r := Bump(c, k);
    if c != [] && c[0].key != k {
      BumpDistinct(c[1..], k);
      assert r[1..] == Bump(c[1..], k);
      HasKeyCons(c, c[0].key);
      assert !HasKey(c[1..], c[0].key) by {
        forall i | 0 <= i < |c[1..]| ensures c[1..][i].key != c[0].key {
          assert c[1..][i] == c[i + 1];
        }
      }
      BumpKeys(c[1..], k, c[0].key);
      forall j | 0 < j < |r| ensures r[0].key != r[j].key {
        assert r[1..][j - 1] == r[j];
      }
    } else if c != [] {
      forall i, j | 0 <= i < j < |r| ensures r[i].key != r[j].key {
        assert r[j] == c[j];
        if i > 0 { assert r[i] == c[i]; }
      }
    }
  }

  /** The counts add up to the number of keys counted. */
  lemma {:induction false} TallyTotal(keys: seq<string>)
    ensures Total(Tally(keys)) == |keys|
  {
    if keys != [] {
      TallyTotal(keys[..|keys| - 1]);
      BumpTotal(Tally(keys[..|keys| - 1]), keys[|keys| - 1]);
    }
  }

  /** Each key's count is the number of its occurrences. */
  lemma {:induction false} TallyCount(keys: seq<string>, k: string)
    ensures CountOf(Tally(keys), k) == Occurrences(keys, k)
  {
    if keys != [] {
      TallyCount(keys[..|keys| - 1], k);
      BumpCount(Tally(keys[..|keys| - 1]), keys[|keys| - 1], k);
    }
  }

  /** The counter lists each key once, and exactly the keys that occur. */
  lemma {:induction false} TallyKeys(keys: seq<string>, k: string)
    ensures DistinctKeys(Tally(keys))
    ensures HasKey(Tally(keys), k) <==> k in keys
  {
    if keys != [] {
      var init := keys[..|keys| - 1];
      TallyKeys(init, k);
      BumpDistinct(Tally(init), keys[|keys| - 1]);
      BumpKeys(Tally(init), keys[|keys| - 1], k);
      assert keys == init + [keys[|keys| - 1]];
    }
  }

  /** Counting `xs` and then one more key. */
  lemma TallySnoc(xs: seq<string>, x: string)
    ensures Tally(xs + [x]) == Bump(Tally(xs), x)
  {
    assert (xs + [x])[..|xs|] == xs;
  }
}
