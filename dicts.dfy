/** A JavaScript object used as a counter (`if (!o[k]) o[k] = 0; o[k] += v`):
    a sequence of (key, value) entries in insertion order, the order in which
    `Object.entries` lists them. */
module Dicts {
  import opened Common

  type Entry = (string, int)
  type Dict = seq<Entry>

  function Keys(d: Dict): (r: seq<string>)
    ensures |r| == |d|
    ensures forall i | 0 <= i < |d| :: r[i] == d[i].0
  {
    if d == [] then [] else [d[0].0] + Keys(d[1..])
  }

  predicate DistinctKeys(d: Dict) {
    forall i, j | 0 <= i < j < |d| :: d[i].0 != d[j].0
  }

  /** `o[k] || 0`: the value stored under `k`, or 0 when there is none. */
  function Count(d: Dict, k: string): int {
    if d == [] then 0 else if d[0].0 == k then d[0].1 else Count(d[1..], k)
  }

  /** `Object.values(o)` summed. */
  function Total(d: Dict): int {
    if d == [] then 0 else d[0].1 + Total(d[1..])
  }

  /** `if (!o[k]) o[k] = 0; o[k] += v`. */
  function Add(d: Dict, k: string, v: int): Dict {
    if d == [] then [(k, v)]
    else if d[0].0 == k then [(k, d[0].1 + v)] + d[1..]
    else [d[0]] + Add(d[1..], k, v)
  }

  /** An existing key keeps its place; a new key is appended. */
  lemma {:induction false} AddKeys(d: Dict, k: string, v: int)
    ensures Keys(Add(d, k, v)) == if k in Keys(d) then Keys(d) else Keys(d) + [k]
  {
    if d != [] {
      assert Keys(d) == [d[0].0] + Keys(d[1..]);
      if d[0].0 == k {
        assert Add(d, k, v)[1..] == d[1..];
      } else {
        AddKeys(d[1..], k, v);
        assert Add(d, k, v)[1..] == Add(d[1..], k, v);
      }
    }
  }

  /** The values grow in total by the amount added. */
  lemma {:induction false} AddTotal(d: Dict, k: string, v: int)
    ensures Total(Add(d, k, v)) == Total(d) + v
  {
    if d != [] {
      if d[0].0 == k {
        assert Add(d, k, v)[1..] == d[1..];
      } else {
        AddTotal(d[1..], k, v);
        assert Add(d, k, v)[1..] == Add(d[1..], k, v);
      }
    }
  }

  /** Adding changes the value of the key added, by the amount added, and of no other key. */
  lemma {:induction false} AddCount(d: Dict, k: string, v: int, k': string)
    ensures Count(Add(d, k, v), k') == Count(d, k') + (if k' == k then v else 0)
  {
    if d != [] {
      if d[0].0 == k {
        assert Add(d, k, v)[1..] == d[1..];
      } else {
        AddCount(d[1..], k, v, k');
        assert Add(d, k, v)[1..] == Add(d[1..], k, v);
      }
    }
  }

  /** Adding never lists a key twice. */
  lemma AddDistinct(d: Dict, k: string, v: int)
    requires DistinctKeys(d)
    ensures DistinctKeys(Add(d, k, v))
  {
    var r := Add(d, k, v);
    AddKeys(d, k, v);
    assert forall i | 0 <= i < |d| :: r[i].0 == Keys(r)[i] == Keys(d)[i] == d[i].0;
    if k !in Keys(d) {
      assert r[|d|].0 == Keys(r)[|d|] == k;
    }
  }

  /** The counter object built by adding `amount(x)` under `key(x)` for every `x` of `s`, in order. */
  function TallyBy<T>(s: seq<T>, key: T -> string, amount: T -> int): Dict
  {
    if s == [] then []
    else Add(TallyBy(s[..|s| - 1], key, amount), key(s[|s| - 1]), amount(s[|s| - 1]))
  }

  /** Sum of `amount` over the elements of `s` whose key is `k`. */
  function AmountFor<T>(s: seq<T>, key: T -> string, amount: T -> int, k: string): int
  {
    if s == [] then 0
    else AmountFor(s[..|s| - 1], key, amount, k) + (if key(s[|s| - 1]) == k then amount(s[|s| - 1]) else 0)
  }

  lemma TallySnoc<T>(s: seq<T>, x: T, key: T -> string, amount: T -> int)
    ensures TallyBy(s + [x], key, amount) == Add(TallyBy(s, key, amount), key(x), amount(x))
    ensures AmountFor(s + [x], key, amount, key(x)) == AmountFor(s, key, amount, key(x)) + amount(x)
  {
    assert (s + [x])[..|s + [x]| - 1] == s;
  }

  /** A tally lists every key once; each key's value is the sum of the amounts filed under it;
      its keys are exactly the keys that occur; the values add up to the sum of all amounts. */
  lemma {:induction false} TallyMeaning<T>(s: seq<T>, key: T -> string, amount: T -> int)
    ensures DistinctKeys(TallyBy(s, key, amount))
    ensures forall k :: Count(TallyBy(s, key, amount), k) == AmountFor(s, key, amount, k)
    ensures forall k :: k in Keys(TallyBy(s, key, amount)) <==> exists i :: 0 <= i < |s| && key(s[i]) == k
    ensures Total(TallyBy(s, key, amount)) == SumOf(s, amount)
  {
    if s != [] {
      var init := s[..|s| - 1];
      var x := s[|s| - 1];
      TallyMeaning(init, key, amount);
      AddDistinct(TallyBy(init, key, amount), key(x), amount(x));
      AddKeys(TallyBy(init, key, amount), key(x), amount(x));
      AddTotal(TallyBy(init, key, amount), key(x), amount(x));
      forall k ensures Count(TallyBy(s, key, amount), k) == AmountFor(s, key, amount, k) {
        AddCount(TallyBy(init, key, amount), key(x), amount(x), k);
      }
      forall k | k in Keys(TallyBy(s, key, amount))
        ensures exists i :: 0 <= i < |s| && key(s[i]) == k
      {
        if k in Keys(TallyBy(init, key, amount)) {
          var i :| 0 <= i < |init| && key(init[i]) == k;
          assert key(s[i]) == k;
        } else {
          assert key(s[|s| - 1]) == k;
        }
      }
      forall k | exists i :: 0 <= i < |s| && key(s[i]) == k
        ensures k in Keys(TallyBy(s, key, amount))
      {
        var i :| 0 <= i < |s| && key(s[i]) == k;
        if i < |s| - 1 {
          assert key(init[i]) == k;
        }
      }
    }
  }

  lemma TallyStep<T>(done: seq<T>, items: seq<T>, j: int, key: T -> string, amount: T -> int)
    requires 0 <= j < |items|
    ensures TallyBy(done + items[..j + 1], key, amount)
            == Add(TallyBy(done + items[..j], key, amount), key(items[j]), amount(items[j]))
  {
    assert done + items[..j + 1] == (done + items[..j]) + [items[j]];
    TallySnoc(done + items[..j], items[j], key, amount);
  }

  /** An inner `forEach` over `items` adding each amount under its key to the counter built so far. */
  method TallyInto<T>(stats0: Dict, done: seq<T>, items: seq<T>, key: T -> string, amount: T -> int)
    returns (stats: Dict)
    requires stats0 == TallyBy(done, key, amount)
    ensures stats == TallyBy(done + items, key, amount)
  {
    stats := stats0;
    var j := 0;
    assert done + items[..0] == done;
    while j < |items|
      invariant 0 <= j <= |items|
      invariant stats == TallyBy(done + items[..j], key, amount)
    {
      TallyStep(done, items, j, key, amount);
      stats := Add(stats, key(items[j]), amount(items[j]));
      j := j + 1;
    }
    assert items[..j] == items;
  }
}
