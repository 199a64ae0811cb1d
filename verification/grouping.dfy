/** Group-by-key summation of cashflows (audit_script.py lines 47 and 134):
    one row per distinct key, rows in ascending key order, each row holding
    the sum of the cashflows filed under its key. */
module Grouping {
  import opened SeqMath

  /** One cashflow filed under a grouping key (a date or an hour). */
  datatype Flow = Flow(key: int, amount: int)

  /** One output row of the group-by: a key and the sum of its amounts. */
  datatype Bucket = Bucket(key: int, total: int)

  predicate StrictlyAscending(bs: seq<Bucket>)
  {
    forall i, j :: 0 <= i < j < |bs| ==> bs[i].key < bs[j].key
  }

  /** The distinct keys of a row list. */
  function BucketKeys(bs: seq<Bucket>): set<int>
  {
    if |bs| == 0 then {} else {bs[0].key} + BucketKeys(bs[1..])
  }

  /** The distinct keys of a flow sequence. */
  function FlowKeys(fs: seq<Flow>): set<int>
  {
    if |fs| == 0 then {} else {fs[0].key} + FlowKeys(fs[1..])
  }

  /** A key is present exactly when some row carries it. */
  lemma {:induction false} BucketKeysIndex(bs: seq<Bucket>, k: int)
    ensures k in BucketKeys(bs) <==> exists i :: 0 <= i < |bs| && bs[i].key == k
  {
    if |bs| > 0 {
      BucketKeysIndex(bs[1..], k);
      if exists i :: 0 <= i < |bs| && bs[i].key == k {
        var i :| 0 <= i < |bs| && bs[i].key == k;
        if i > 0 {
          assert bs[1..][i - 1].key == k;
        }
      }
    }
  }

  function Totals(bs: seq<Bucket>): (t: seq<int>)
    ensures |t| == |bs|
    ensures forall i :: 0 <= i < |bs| ==> t[i] == bs[i].total
  {
    if |bs| == 0 then [] else [bs[0].total] + Totals(bs[1..])
  }

  function Amounts(fs: seq<Flow>): (a: seq<int>)
    ensures |a| == |fs|
    ensures forall i :: 0 <= i < |fs| ==> a[i] == fs[i].amount
  {
    if |fs| == 0 then [] else [fs[0].amount] + Amounts(fs[1..])
  }

  /** The total filed under `k`, or 0 when `k` has no row. */
  function Lookup(bs: seq<Bucket>, k: int): int
  {
    if |bs| == 0 then 0
    else if bs[0].key == k then bs[0].total
    else Lookup(bs[1..], k)
  }

  /** A key is present exactly when some flow carries it. */
  lemma {:induction false} FlowKeysIndex(fs: seq<Flow>, k: int)
    ensures k in FlowKeys(fs) <==> exists i :: 0 <= i < |fs| && fs[i].key == k
  {
    if |fs| > 0 {
      FlowKeysIndex(fs[1..], k);
      if exists i :: 0 <= i < |fs| && fs[i].key == k {
        var i :| 0 <= i < |fs| && fs[i].key == k;
        if i > 0 {
          assert fs[1..][i - 1].key == k;
        }
      }
    }
  }

  /** Reference definition of a group's sum: the amounts of all flows with key `k`. */
  function KeyTotal(fs: seq<Flow>, k: int): int
  {
    if |fs| == 0 then 0
    else (if fs[0].key == k then fs[0].amount else 0) + KeyTotal(fs[1..], k)
  }

  /** Files one flow into a strictly ascending row list: adds it to the row
      of its key, or opens a new row at the place that keeps keys ascending. */
  function Insert(bs: seq<Bucket>, f: Flow): (r: seq<Bucket>)
    requires StrictlyAscending(bs)
    ensures StrictlyAscending(r)
    ensures BucketKeys(r) == BucketKeys(bs) + {f.key}
  {
    if |bs| == 0 then
      [Bucket(f.key, f.amount)]
    else if bs[0].key == f.key then
      var r := [Bucket(f.key, bs[0].total + f.amount)] + bs[1..];
      assert r[1..] == bs[1..];
      r
    else if f.key < bs[0].key then
      var r := [Bucket(f.key, f.amount)] + bs;
      assert r[1..] == bs;
      r
    else
      var tail := Insert(bs[1..], f);
      var r := [bs[0]] + tail;
      assert r[1..] == tail;
      assert StrictlyAscending(r) by {
        forall j | 0 < j < |r| ensures r[0].key < r[j].key {
          BucketKeysIndex(tail, r[j].key);
          assert r[j].key in BucketKeys(bs[1..]) + {f.key};
          BucketKeysIndex(bs[1..], r[j].key);
        }
      }
      r
  }

  /** Inserting a flow adds its amount to its key's total and to no other. */
  lemma {:induction false} InsertLookup(bs: seq<Bucket>, f: Flow, k: int)
    requires StrictlyAscending(bs)
    ensures Lookup(Insert(bs, f), k) == Lookup(bs, k) + (if k == f.key then f.amount else 0)
  {
    var r := Insert(bs, f);
    if |bs| == 0 {
    } else if bs[0].key == f.key {
      assert r[1..] == bs[1..];
      LookupFirstAbsent(bs);
    } else if f.key < bs[0].key {
      assert r[1..] == bs;
      if k == f.key {
        LookupBelowFirst(bs, k);
      }
    } else {
      assert r[1..] == Insert(bs[1..], f);
      InsertLookup(bs[1..], f, k);
    }
  }

  /** Inserting a flow adds its amount to the grand total. */
  lemma {:induction false} InsertTotal(bs: seq<Bucket>, f: Flow)
    requires StrictlyAscending(bs)
    ensures Sum(Totals(Insert(bs, f))) == Sum(Totals(bs)) + f.amount
  {
    var r := Insert(bs, f);
    if |bs| == 0 {
    } else if bs[0].key == f.key {
      assert Totals(r)[1..] == Totals(bs)[1..];
    } else if f.key < bs[0].key {
      assert Totals(r)[1..] == Totals(bs);
    } else {
      assert Totals(r)[1..] == Totals(Insert(bs[1..], f));
      assert Totals(bs)[1..] == Totals(bs[1..]);
      InsertTotal(bs[1..], f);
    }
  }


  /** In an ascending list, a key below the first key has no row. */
  lemma {:induction false} LookupBelowFirst(bs: seq<Bucket>, k: int)
    requires StrictlyAscending(bs)
    requires |bs| > 0 && k < bs[0].key
    ensures Lookup(bs, k) == 0
  {
    if |bs| > 1 {
      LookupBelowFirst(bs[1..], k);
    }
  }

  /** In an ascending list, the first key does not occur again further on. */
  lemma LookupFirstAbsent(bs: seq<Bucket>)
    requires StrictlyAscending(bs)
    requires |bs| > 0
    ensures Lookup(bs[1..], bs[0].key) == 0
  {
    if |bs| > 1 {
      LookupBelowFirst(bs[1..], bs[0].key);
    }
  }

  /** The group-by-sum of a sequence of flows. */
  function GroupSum(fs: seq<Flow>): (r: seq<Bucket>)
    ensures StrictlyAscending(r)
    ensures BucketKeys(r) == FlowKeys(fs)
  {
    if |fs| == 0 then []
    else
      Insert(GroupSum(fs[1..]), fs[0])
  }

  /** Every key's group total is the sum of that key's flows; an absent key reads 0. */
  lemma {:induction false} GroupSumLookup(fs: seq<Flow>, k: int)
    ensures Lookup(GroupSum(fs), k) == KeyTotal(fs, k)
  {
    if |fs| > 0 {
      GroupSumLookup(fs[1..], k);
      InsertLookup(GroupSum(fs[1..]), fs[0], k);
    }
  }

  /** Grouping neither loses nor invents money: the rows' totals add up to the flows' amounts. */
  lemma {:induction false} GroupSumTotal(fs: seq<Flow>)
    ensures Sum(Totals(GroupSum(fs))) == Sum(Amounts(fs))
  {
    if |fs| > 0 {
      GroupSumTotal(fs[1..]);
      InsertTotal(GroupSum(fs[1..]), fs[0]);
      assert Amounts(fs)[1..] == Amounts(fs[1..]);
    }
  }


  /** A row's total is the sum of its key's flows. */
  lemma RowTotal(fs: seq<Flow>, i: int)
    requires 0 <= i < |GroupSum(fs)|
    ensures GroupSum(fs)[i].total == KeyTotal(fs, GroupSum(fs)[i].key)
  {
    var r := GroupSum(fs);
    LookupAt(r, i);
    GroupSumLookup(fs, r[i].key);
  }

  /** In an ascending list, looking up a row's key finds that row. */
  lemma {:induction false} LookupAt(bs: seq<Bucket>, i: int)
    requires StrictlyAscending(bs)
    requires 0 <= i < |bs|
    ensures Lookup(bs, bs[i].key) == bs[i].total
  {
    if i > 0 {
      LookupAt(bs[1..], i - 1);
    }
  }

  /** There is one row per distinct key: as many rows as distinct keys. */
  lemma GroupSumSize(fs: seq<Flow>)
    ensures |GroupSum(fs)| == |FlowKeys(fs)|
  {
    AscendingKeysCount(GroupSum(fs));
  }

  /** Strictly ascending keys are pairwise distinct, so they count the rows. */
  lemma {:induction false} AscendingKeysCount(bs: seq<Bucket>)
    requires StrictlyAscending(bs)
    ensures |BucketKeys(bs)| == |bs|
  {
    if |bs| > 0 {
      AscendingKeysCount(bs[1..]);
      BucketKeysIndex(bs[1..], bs[0].key);
    }
  }

  /** Keys confined to `[lo, hi)` allow at most `hi - lo` rows. */
  lemma {:induction false} AscendingInRange(bs: seq<Bucket>, lo: int, hi: int)
    requires StrictlyAscending(bs)
    requires forall i :: 0 <= i < |bs| ==> lo <= bs[i].key < hi
    ensures |bs| <= if hi < lo then 0 else hi - lo
  {
    if |bs| > 0 {
      AscendingInRange(bs[1..], bs[0].key + 1, hi);
    }
  }
}
