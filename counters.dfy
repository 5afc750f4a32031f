/**
 * Counters kept in the order their keys first appear, the way a Python
 * `dict`, `Counter` or `defaultdict(int)` keeps them when it is filled by
 * `d[k] = d.get(k, 0) + 1` or `d[k] += 1`.
 */
module Counters {
  import opened Text

  type Counts<K> = seq<(K, nat)>

  function Keys<K>(c: Counts<K>): seq<K> {
    seq(|c|, i requires 0 <= i < |c| => c[i].0)
  }

  /** `d.get(k, 0)` */
  function Get<K(==)>(c: Counts<K>, k: K): nat {
    if c == [] then 0 else if c[0].0 == k then c[0].1 else Get(c[1..], k)
  }

  /** The sum of all counts, `sum(d.values())`. */
  function Total<K>(c: Counts<K>): nat {
    if c == [] then 0 else c[0].1 + Total(c[1..])
  }

  /** `d[k] = d.get(k, 0) + 1`: an existing key keeps its place, a new one goes last. */
  function Bump<K(==)>(c: Counts<K>, k: K): Counts<K> {
    if c == [] then [(k, 1)]
    else if c[0].0 == k then [(k, c[0].1 + 1)] + c[1..]
    else [c[0]] + Bump(c[1..], k)
  }

  /** `Counter(keys)`: every key of `keys` counted, in first-seen order. */
  function Tally<K(==)>(keys: seq<K>): Counts<K> {
    if keys == [] then [] else Bump(Tally(keys[..|keys| - 1]), keys[|keys| - 1])
  }

  lemma {:induction false} BumpGet<K>(c: Counts<K>, k: K, j: K)
    ensures Get(Bump(c, k), j) == Get(c, j) + (if j == k then 1 else 0)
  {
    if c != [] && c[0].0 != k {
      BumpGet(c[1..], k, j);
      assert Bump(c, k)[1..] == Bump(c[1..], k);
    }
  }

  lemma {:induction false} BumpTotal<K>(c: Counts<K>, k: K)
    ensures Total(Bump(c, k)) == Total(c) + 1
  {
    if c != [] {
      if c[0].0 == k {
        assert Bump(c, k)[1..] == c[1..];
      } else {
        BumpTotal(c[1..], k);
        assert Bump(c, k)[1..] == Bump(c[1..], k);
      }
    }
  }

  lemma {:induction false} BumpKeys<K>(c: Counts<K>, k: K)
    ensures Keys(Bump(c, k)) == if k in Keys(c) then Keys(c) else Keys(c) + [k]
  {
    if c != [] {
      assert Keys(c) == [c[0].0] + Keys(c[1..]);
      if c[0].0 != k {
        BumpKeys(c[1..], k);
        assert Keys(Bump(c, k)) == [c[0].0] + Keys(Bump(c[1..], k));
      }
    }
  }

  /** Every key is counted as often as it occurs. */
  lemma {:induction false} TallyCounts<K>(keys: seq<K>, k: K)
    ensures Get(Tally(keys), k) == multiset(keys)[k]
  {
    if keys != [] {
      var init := keys[..|keys| - 1];
      TallyCounts(init, k);
      BumpGet(Tally(init), keys[|keys| - 1], k);
      assert keys == init + [keys[|keys| - 1]];
    }
  }

  /** The counts add up to the number of keys counted. */
  lemma {:induction false} TallyTotal<K>(keys: seq<K>)
    ensures Total(Tally(keys)) == |keys|
  {
    if keys != [] {
      TallyTotal(keys[..|keys| - 1]);
      BumpTotal(Tally(keys[..|keys| - 1]), keys[|keys| - 1]);
    }
  }

  /** The counter has exactly the keys counted, each once. */
  lemma {:induction false} TallyKeys<K>(keys: seq<K>)
    ensures NoDuplicates(Keys(Tally(keys)))
    ensures forall k :: k in Keys(Tally(keys)) <==> k in keys
  {
    if keys != [] {
      var init := keys[..|keys| - 1];
      TallyKeys(init);
      BumpKeys(Tally(init), keys[|keys| - 1]);
      assert keys == init + [keys[|keys| - 1]];
    }
  }
}
