/** The accumulation every dashboard section repeats:
      deals.forEach(deal => {
        if (!acc[key]) acc[key] = { volume: 0, ... };
        acc[key].volume += volume; ...; acc[key].deals += 1; })
    followed by `Object.entries(acc)`. The accumulator is a map together with the order in
    which its keys were first created. */
module Grouping {
  import opened Wrappers
  import opened Sequences
  import opened Deals

  /** One bucket's accumulator object. Every section keeps some of these four fields:
      volume and deals everywhere, revenue for clients and the timeline, and the
      price-times-volume sum (`totalValue`) for average prices. */
  datatype Totals = Totals(volume: real, revenue: real, value: real, deals: nat)

  const Zero := Totals(0.0, 0.0, 0.0, 0)

  /** The `+=` updates one deal makes to its bucket. */
  function Add(t: Totals, d: Deal): Totals {
    Totals(t.volume + Volume(d), t.revenue + Revenue(d), t.value + Weighted(d), t.deals + 1)
  }

  /** Componentwise sum of two accumulators. */
  function Plus(a: Totals, b: Totals): Totals {
    Totals(a.volume + b.volume, a.revenue + b.revenue, a.value + b.value, a.deals + b.deals)
  }

  /** The accumulator after adding `s` to an empty bucket, deal by deal. */
  function Sum(s: seq<Deal>): (t: Totals)
    ensures t.volume == SumOf(s, Volume)
    ensures t.revenue == SumOf(s, Revenue)
    ensures t.value == SumOf(s, Weighted)
    ensures t.deals == |s|
    decreases |s|
  {
    if s == [] then Zero else Add(Sum(s[..|s| - 1]), s[|s| - 1])
  }

  /** The accumulator object: keys in first-creation order, and each key's bucket. A
      deal whose key is `None` is skipped (the `if (!date) return;` of the date sections). */
  datatype Groups<K> = Groups(order: seq<K>, totals: map<K, Totals>)

  function Step<K(==)>(g: Groups<K>, d: Deal, key: Deal -> Option<K>): Groups<K> {
    match key(d)
    case None => g
    case Some(k) =>
      if k in g.totals then Groups(g.order, g.totals[k := Add(g.totals[k], d)])
      else Groups(g.order + [k], g.totals[k := Add(Zero, d)])
  }

  /** The accumulator after the `forEach` over `deals`. */
  function GroupOf<K(==)>(deals: seq<Deal>, key: Deal -> Option<K>): Groups<K>
    decreases |deals|
  {
    if deals == [] then Groups([], map[])
    else Step(GroupOf(deals[..|deals| - 1], key), deals[|deals| - 1], key)
  }

  /** The loop itself, updating the map in place. */
  method Accumulate<K(==)>(deals: seq<Deal>, key: Deal -> Option<K>) returns (order: seq<K>, totals: map<K, Totals>)
    ensures Groups(order, totals) == GroupOf(deals, key)
  {
    order, totals := [], map[];
    for i := 0 to |deals|
      invariant Groups(order, totals) == GroupOf(deals[..i], key)
    {
      var deal := deals[i];
      assert deals[..i + 1][..i] == deals[..i];
      var k := key(deal);
      if k.Some? {
        if k.value !in totals {
          order := order + [k.value];
          totals := totals[k.value := Zero];
        }
        totals := totals[k.value := Add(totals[k.value], deal)];
      }
    }
    assert deals[..|deals|] == deals;
  }

  /** Every key is listed once, and the listed keys are exactly the map's keys. */
  predicate WellFormed<K(==)>(g: Groups<K>) {
    && (forall i, j :: 0 <= i < j < |g.order| ==> g.order[i] != g.order[j])
    && g.totals.Keys == set i | 0 <= i < |g.order| :: g.order[i]
  }

  lemma {:induction false} GroupWellFormed<K>(deals: seq<Deal>, key: Deal -> Option<K>)
    ensures WellFormed(GroupOf(deals, key))
    decreases |deals|
  {
    if deals != [] {
      var p, d := deals[..|deals| - 1], deals[|deals| - 1];
      GroupWellFormed(p, key);
      var g := GroupOf(p, key);
      if key(d).Some? && key(d).value !in g.totals {
        var k := key(d).value;
        var order := g.order + [k];
        assert forall i :: 0 <= i < |g.order| ==> g.order[i] in g.totals;
        var before := set i | 0 <= i < |g.order| :: g.order[i];
        var after := set i | 0 <= i < |order| :: order[i];
        forall x | x in after
          ensures x in before + {k}
        {
          var i :| 0 <= i < |order| && order[i] == x;
          if i < |g.order| {
            assert g.order[i] == x;
          }
        }
        forall x | x in before + {k}
          ensures x in after
        {
          if x == k {
            assert order[|g.order|] == k;
          } else {
            var i :| 0 <= i < |g.order| && g.order[i] == x;
            assert order[i] == x;
          }
        }
      }
    }
  }

  // ---------------------------------------------------------------------
  // Buckets
  // ---------------------------------------------------------------------

  predicate Keyed<K(==)>(key: Deal -> Option<K>, d: Deal) {
    key(d).Some?
  }

  predicate Keys<K(==)>(key: Deal -> Option<K>, k: K, d: Deal) {
    key(d) == Some(k)
  }

  /** The deals that land in bucket `k`, in input order. */
  function InBucket<K(==)>(deals: seq<Deal>, key: Deal -> Option<K>, k: K): seq<Deal> {
    Filter(deals, d => Keys(key, k, d))
  }

  /** The deals that land in some bucket. */
  function Bucketed<K(==)>(deals: seq<Deal>, key: Deal -> Option<K>): seq<Deal> {
    Filter(deals, d => Keyed(key, d))
  }

  /** A bucket exists exactly when some deal has its key, and it holds the sum of those
      deals: its deal count is their number and its volume their total volume. */
  lemma {:induction false} BucketContents<K>(deals: seq<Deal>, key: Deal -> Option<K>, k: K)
    ensures k in GroupOf(deals, key).totals <==> InBucket(deals, key, k) != []
    ensures k in GroupOf(deals, key).totals ==> GroupOf(deals, key).totals[k] == Sum(InBucket(deals, key, k))
    decreases |deals|
  {
    if deals != [] {
      var p, d := deals[..|deals| - 1], deals[|deals| - 1];
      BucketContents(p, key, k);
      var b := InBucket(p, key, k);
      if key(d) == Some(k) {
        assert InBucket(deals, key, k) == b + [d];
        assert (b + [d])[..|b|] == b;
        if k !in GroupOf(p, key).totals {
          assert b == [];
        }
      } else {
        assert InBucket(deals, key, k) == b;
      }
    }
  }

  /** A deal's own bucket holds it. */
  lemma DealInOwnBucket<K>(deals: seq<Deal>, key: Deal -> Option<K>, i: nat)
    requires i < |deals| && key(deals[i]).Some?
    ensures deals[i] in InBucket(deals, key, key(deals[i]).value)
    ensures key(deals[i]).value in GroupOf(deals, key).totals
  {
    BucketContents(deals, key, key(deals[i]).value);
  }

  // ---------------------------------------------------------------------
  // Object.entries
  // ---------------------------------------------------------------------

  datatype Entry<K> = Entry(key: K, totals: Totals)

  function Lookup<K(==)>(totals: map<K, Totals>, k: K): Totals {
    if k in totals then totals[k] else Zero
  }

  /** `Object.entries(acc)`: the pairs in key-creation order. */
  function Entries<K(==)>(g: Groups<K>): (es: seq<Entry<K>>)
    ensures |es| == |g.order|
  {
    seq(|g.order|, i requires 0 <= i < |g.order| => Entry(g.order[i], Lookup(g.totals, g.order[i])))
  }

  /** A new key adds one entry at the end and leaves the others alone. */
  lemma EntriesOfNewKey<K>(g: Groups<K>, k: K, t: Totals)
    requires WellFormed(g) && k !in g.totals
    ensures Entries(Groups(g.order + [k], g.totals[k := t])) == Entries(g) + [Entry(k, t)]
  {
    assert forall i :: 0 <= i < |g.order| ==> g.order[i] in g.totals;
  }

  /** An update to an existing key changes its entry only. */
  lemma EntriesOfUpdate<K>(g: Groups<K>, j: nat, t: Totals)
    requires WellFormed(g) && j < |g.order|
    ensures Entries(Groups(g.order, g.totals[g.order[j] := t])) == Entries(g)[j := Entry(g.order[j], t)]
  {
  }

  /** No entry occurs twice, since no key does. */
  lemma EntriesDistinct<K>(deals: seq<Deal>, key: Deal -> Option<K>)
    ensures Distinct(Entries(GroupOf(deals, key)))
  {
    var g := GroupOf(deals, key);
    var es := Entries(g);
    GroupWellFormed(deals, key);
    forall i, j | 0 <= i < j < |es|
      ensures es[i] != es[j]
    {
      assert es[i].key == g.order[i] && es[j].key == g.order[j];
    }
  }

  /** Each entry is a bucket with its own deals' sum, and each bucket is an entry. */
  lemma EntriesAreBuckets<K>(deals: seq<Deal>, key: Deal -> Option<K>)
    ensures forall e :: e in Entries(GroupOf(deals, key)) ==>
      e.key in GroupOf(deals, key).totals && e.totals == Sum(InBucket(deals, key, e.key)) && e.totals.deals >= 1
    ensures forall k :: k in GroupOf(deals, key).totals ==>
      Entry(k, GroupOf(deals, key).totals[k]) in Entries(GroupOf(deals, key))
  {
    var g := GroupOf(deals, key);
    var es := Entries(g);
    GroupWellFormed(deals, key);
    forall e | e in es
      ensures e.key in g.totals && e.totals == Sum(InBucket(deals, key, e.key)) && e.totals.deals >= 1
    {
      var i :| 0 <= i < |es| && es[i] == e;
      assert g.order[i] in g.totals;
      BucketContents(deals, key, e.key);
    }
    forall k | k in g.totals
      ensures Entry(k, g.totals[k]) in es
    {
      var i :| 0 <= i < |g.order| && g.order[i] == k;
      assert es[i] == Entry(k, g.totals[k]);
    }
  }

  /** The sum of all buckets' accumulators. */
  function TotalOf<K(==)>(es: seq<Entry<K>>): Totals
    decreases |es|
  {
    if es == [] then Zero else Plus(TotalOf(es[..|es| - 1]), es[|es| - 1].totals)
  }

  /** Adding a deal to one entry adds it to the total. */
  lemma {:induction false} TotalOfAdd<K>(es: seq<Entry<K>>, j: nat, d: Deal)
    requires j < |es|
    ensures TotalOf(es[j := Entry(es[j].key, Add(es[j].totals, d))]) == Add(TotalOf(es), d)
    decreases |es|
  {
    var es' := es[j := Entry(es[j].key, Add(es[j].totals, d))];
    var n := |es|;
    if j < n - 1 {
      assert es'[..n - 1] == es[..n - 1][j := Entry(es[j].key, Add(es[j].totals, d))];
      TotalOfAdd(es[..n - 1], j, d);
    } else {
      assert es'[..n - 1] == es[..n - 1];
    }
  }

  /** Conservation: the buckets together hold every deal that has a key exactly once, so
      the bucket deal counts add up to the number of such deals, and the bucket volumes
      (revenues, weighted prices) to their total volume (revenue, weighted price). */
  lemma {:induction false} Conservation<K>(deals: seq<Deal>, key: Deal -> Option<K>)
    ensures TotalOf(Entries(GroupOf(deals, key))) == Sum(Bucketed(deals, key))
    decreases |deals|
  {
    if deals != [] {
      var p, d := deals[..|deals| - 1], deals[|deals| - 1];
      Conservation(p, key);
      GroupWellFormed(p, key);
      var g := GroupOf(p, key);
      var b := Bucketed(p, key);
      var es := Entries(g);
      if key(d).Some? {
        var k := key(d).value;
        assert Bucketed(deals, key) == b + [d];
        assert (b + [d])[..|b|] == b;
        if k in g.totals {
          var j :| 0 <= j < |g.order| && g.order[j] == k;
          EntriesOfUpdate(g, j, Add(g.totals[k], d));
          assert es[j].totals == g.totals[k];
          TotalOfAdd(es, j, d);
        } else {
          EntriesOfNewKey(g, k, Add(Zero, d));
          var es' := es + [Entry(k, Add(Zero, d))];
          assert es'[..|es|] == es;
        }
      } else {
        assert Bucketed(deals, key) == b;
      }
    }
  }

  /** When every deal has a key, the buckets hold all of them. */
  lemma {:induction false} ConservationTotal<K>(deals: seq<Deal>, key: Deal -> Option<K>)
    requires forall i :: 0 <= i < |deals| ==> key(deals[i]).Some?
    ensures TotalOf(Entries(GroupOf(deals, key))).deals == |deals|
    ensures TotalOf(Entries(GroupOf(deals, key))).volume == SumOf(deals, Volume)
    ensures TotalOf(Entries(GroupOf(deals, key))).revenue == SumOf(deals, Revenue)
  {
    Conservation(deals, key);
    FilterAll(deals, d => Keyed(key, d));
  }

  function EntryVolume<K(==)>(e: Entry<K>): real {
    e.totals.volume
  }

  /** The volume total over the entries is the volume component of their total. */
  lemma {:induction false} TotalOfVolume<K>(es: seq<Entry<K>>)
    ensures TotalOf(es).volume == SumOf(es, EntryVolume)
    decreases |es|
  {
    if es != [] {
      TotalOfVolume(es[..|es| - 1]);
    }
  }
}
