/** The appearance counter: the `collections.Counter` that tallies names across queries. */
module Tally {
  import opened Seqs

  /**
   * A counter of names: how often each name was counted, and the keys in the order in which
   * each was first inserted (the iteration order of the dictionary behind the counter).
   */
  datatype Counter = Counter(counts: map<string, nat>, order: seq<string>)

  /** The insertion order lists every key exactly once, and every key was counted at least once. */
  ghost predicate Valid(c: Counter) {
    && Distinct(c.order)
    && (forall n :: n in c.counts <==> n in c.order)
    && (forall n :: n in c.counts ==> c.counts[n] >= 1)
  }

  /** `Counter()`. */
  const Empty: Counter := Counter(map[], [])

  /** `counter[n]`: a name never counted reads as zero. */
  function Count(c: Counter, n: string): nat {
    if n in c.counts then c.counts[n] else 0
  }

  /**
   * One step of `Counter.update`: `n`'s count goes up by one and no other count changes;
   * an existing key keeps its place, a new key goes to the end of the insertion order.
   */
  function Increment(c: Counter, n: string): (r: Counter)
    ensures Count(r, n) == Count(c, n) + 1
    ensures forall m :: m != n ==> Count(r, m) == Count(c, m)
    ensures n in c.counts ==> r.order == c.order
    ensures n !in c.counts ==> r.order == c.order + [n]
  {
    if n in c.counts then Counter(c.counts[n := c.counts[n] + 1], c.order)
    else Counter(c.counts[n := 1], c.order + [n])
  }

  /** `Counter.update(names)`: one increment per element of `names`, first to last. */
  function Update(c: Counter, names: seq<string>): Counter
    decreases |names|
  {
    if names == [] then c
    else Increment(Update(c, names[..|names| - 1]), names[|names| - 1])
  }

  /** After `Counter.update(names)` every count has grown by the number of times the name occurs in `names`. */
  lemma {:induction false} UpdateCounts(c: Counter, names: seq<string>)
    ensures forall m :: Count(Update(c, names), m) == Count(c, m) + Occurrences(names, m)
    decreases |names|
  {
    if names != [] {
      var k := |names| - 1;
      assert names == names[..k] + [names[k]];
      UpdateCounts(c, names[..k]);
    }
  }

  /** Incrementing keeps the counter well formed. */
  lemma IncrementValid(c: Counter, n: string)
    requires Valid(c)
    ensures Valid(Increment(c, n))
  {
    if n !in c.counts {
      var r := Increment(c, n);
      forall i, j | 0 <= i < j < |r.order| ensures r.order[i] != r.order[j] {
        if j == |c.order| {
          assert r.order[i] == c.order[i];
        }
      }
    }
  }

  /** Updating keeps the counter well formed. */
  lemma {:induction false} UpdateValid(c: Counter, names: seq<string>)
    requires Valid(c)
    ensures Valid(Update(c, names))
    decreases |names|
  {
    if names != [] {
      var k := |names| - 1;
      UpdateValid(c, names[..k]);
      IncrementValid(Update(c, names[..k]), names[k]);
    }
  }

  /** Updating with `a` and then with `b` is updating with `a + b`. */
  lemma {:induction false} UpdateConcat(c: Counter, a: seq<string>, b: seq<string>)
    ensures Update(Update(c, a), b) == Update(c, a + b)
    decreases |b|
  {
    if b == [] {
      assert a + b == a;
    } else {
      var k := |b| - 1;
      var ab := a + b;
      UpdateConcat(c, a, b[..k]);
      assert ab[..|ab| - 1] == a + b[..k];
      assert ab[|ab| - 1] == b[k];
      calc {
        Update(c, ab);
        Increment(Update(c, a + b[..k]), b[k]);
        Increment(Update(Update(c, a), b[..k]), b[k]);
        Update(Update(c, a), b);
      }
    }
  }

  /** The number of distinct names counted is the length of the insertion order. */
  lemma KeysMatchOrder(c: Counter)
    requires Valid(c)
    ensures c.counts.Keys == set n | n in c.order
    ensures |c.counts| == |c.order|
  {
    assert c.counts.Keys == set n | n in c.order;
    DistinctCardinality(c.order);
  }

  /** A counter built from `names` holds exactly the names that occur in `names`. */
  lemma UpdateKeys(names: seq<string>)
    ensures Valid(Update(Empty, names))
    ensures forall n :: n in Update(Empty, names).counts <==> n in names
  {
    var c := Update(Empty, names);
    UpdateValid(Empty, names);
    UpdateCounts(Empty, names);
    forall n ensures n in c.counts <==> n in names {
      assert Count(c, n) == Occurrences(names, n);
    }
  }

  /** One more name keeps an order that follows first occurrences: a name already seen changes nothing, a new one comes last. */
  lemma FirstSeenStep(p: seq<string>, x: string, o: seq<string>, o': seq<string>)
    requires forall i, j :: 0 <= i < j < |o| ==> IndexOf(p, o[i]) < IndexOf(p, o[j])
    requires forall i :: 0 <= i < |o| ==> o[i] in p
    requires o' == o || (x !in p && o' == o + [x])
    ensures forall i, j :: 0 <= i < j < |o'| ==> IndexOf(p + [x], o'[i]) < IndexOf(p + [x], o'[j])
  {
    forall i | 0 <= i < |o| ensures IndexOf(p + [x], o[i]) == IndexOf(p, o[i]) < |p| {
      IndexOfAppend(p, [x], o[i]);
    }
    if o' != o {
      IndexOfAppend(p, [x], x);
      forall i, j | 0 <= i < j < |o'| ensures IndexOf(p + [x], o'[i]) < IndexOf(p + [x], o'[j]) {
        assert o'[i] == o[i];
        if j < |o| {
          assert o'[j] == o[j];
        }
      }
    }
  }

  /** The insertion order of a counter built from `names` is the order in which each name first occurs in `names`. */
  lemma {:induction false} UpdateOrderIsFirstSeen(names: seq<string>)
    ensures forall i, j :: 0 <= i < j < |Update(Empty, names).order| ==>
      IndexOf(names, Update(Empty, names).order[i]) < IndexOf(names, Update(Empty, names).order[j])
    decreases |names|
  {
    if names != [] {
      var k := |names| - 1;
      var p := names[..k];
      var x := names[k];
      assert names == p + [x];
      UpdateOrderIsFirstSeen(p);
      UpdateKeys(p);
      var c' := Update(Empty, p);
      assert forall i :: 0 <= i < |c'.order| ==> c'.order[i] in p;
      var o' := Increment(c', x).order;
      assert x in c'.counts <==> x in p;
      if x in c'.counts {
        assert o' == c'.order;
      } else {
        assert o' == c'.order + [x];
      }
      FirstSeenStep(p, x, c'.order, o');
      assert Update(Empty, names).order == o';
    }
  }
}
