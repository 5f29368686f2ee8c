/** The final `.sort`: most recent order first. JavaScript's `Array.prototype.sort`
    is stable, so orders with equal timestamps keep the order they had. */
module Recency {
  import opened Orders

  /** Most recent first: timestamps never increase along the list. */
  ghost predicate Recent(os: seq<Order>) {
    forall i, j :: 0 <= i < j < |os| ==> os[i].timestamp >= os[j].timestamp
  }

  /** The orders stamped `t`, in list order. Stability means a sort leaves
      this subsequence alone for every `t`. */
  function At(os: seq<Order>, t: int): (same: seq<Order>)
    ensures forall o :: o in same <==> o in os && o.timestamp == t
  {
    if |os| == 0 then []
    else if os[0].timestamp == t then [os[0]] + At(os[1..], t)
    else At(os[1..], t)
  }

  /** Places `o` in front of the first order that is no more recent than it. */
  function Insert(o: Order, os: seq<Order>): (r: seq<Order>)
    ensures multiset(r) == multiset(os) + multiset{o}
    ensures forall x :: x in r ==> x == o || x in os
    ensures Recent(os) ==> Recent(r)
  {
    if |os| == 0 || o.timestamp >= os[0].timestamp then
      assert Recent(os) ==> forall x :: x in os ==> x.timestamp <= o.timestamp;
      [o] + os
    else
      var rest := Insert(o, os[1..]);
      assert os == [os[0]] + os[1..];
      assert Recent(os) ==> forall x :: x in rest ==> x.timestamp <= os[0].timestamp;
      [os[0]] + rest
  }

  /** `.sort((a, b) => new Date(b.timestamp) - new Date(a.timestamp))`, which
      compares the parsed instants: a most-recent-first rearrangement of the
      orders. */
  function SortByRecency(os: seq<Order>): (r: seq<Order>)
    ensures multiset(r) == multiset(os)
    ensures |r| == |os|
    ensures Recent(r)
  {
    if |os| == 0 then []
    else
      assert os == [os[0]] + os[1..];
      Insert(os[0], SortByRecency(os[1..]))
  }

  /** Inserting touches only the subsequence stamped like the inserted order,
      and there the new order goes first. */
  lemma {:induction false} AtInsert(o: Order, os: seq<Order>, t: int)
    ensures At(Insert(o, os), t) == (if o.timestamp == t then [o] else []) + At(os, t)
  {
    if |os| == 0 || o.timestamp >= os[0].timestamp {
      assert ([o] + os)[1..] == os;
    } else {
      var rest := Insert(o, os[1..]);
      assert ([os[0]] + rest)[1..] == rest;
      AtInsert(o, os[1..], t);
    }
  }

  /** The sort is stable: for every timestamp, the orders carrying it appear
      in the result exactly as they did in the input. */
  lemma {:induction false} SortByRecencyStable(os: seq<Order>, t: int)
    ensures At(SortByRecency(os), t) == At(os, t)
  {
    if |os| > 0 {
      SortByRecencyStable(os[1..], t);
      AtInsert(os[0], SortByRecency(os[1..]), t);
    }
  }

  /** Sorting keeps every id as often as it occurs. */
  lemma {:induction false} SortByRecencyKeepsIds(os: seq<Order>)
    ensures multiset(Ids(SortByRecency(os))) == multiset(Ids(os))
  {
    if |os| > 0 {
      SortByRecencyKeepsIds(os[1..]);
      InsertKeepsIds(os[0], SortByRecency(os[1..]));
      assert Ids(os) == [os[0].id] + Ids(os[1..]);
    }
  }

  lemma {:induction false} InsertKeepsIds(o: Order, os: seq<Order>)
    ensures multiset(Ids(Insert(o, os))) == multiset(Ids(os)) + multiset{o.id}
  {
    if |os| == 0 || o.timestamp >= os[0].timestamp {
      assert Ids([o] + os) == [o.id] + Ids(os);
    } else {
      InsertKeepsIds(o, os[1..]);
      assert Ids([os[0]] + Insert(o, os[1..])) == [os[0].id] + Ids(Insert(o, os[1..]));
      assert Ids(os) == [os[0].id] + Ids(os[1..]);
    }
  }

  /** Most-recent-first order plus stability leave no freedom: two lists that
      are both most recent first and agree on every timestamp's subsequence
      are equal. So any stable descending sort, whatever its algorithm,
      returns exactly `SortByRecency`. */
  lemma {:induction false} StableRecentUnique(a: seq<Order>, b: seq<Order>)
    requires Recent(a) && Recent(b)
    requires forall t :: At(a, t) == At(b, t)
    ensures a == b
    decreases |a|
  {
    if |a| > 0 {
      assert a[0] in At(a, a[0].timestamp);
      assert a[0] in At(b, a[0].timestamp);
      assert b[0] in At(b, b[0].timestamp);
      var t := a[0].timestamp;
      assert b[0].timestamp == t by {
        assert a[0] in At(b, t);
        assert b[0] in At(a, b[0].timestamp);
      }
      assert a[0] == b[0] by {
        assert At(a, t) == [a[0]] + At(a[1..], t);
        assert At(b, t) == [b[0]] + At(b[1..], t);
        assert At(a, t) == At(b, t);
        assert At(a, t)[0] == a[0] && At(b, t)[0] == b[0];
      }
      forall u
        ensures At(a[1..], u) == At(b[1..], u)
      {
        if u == t {
          assert At(a, t) == [a[0]] + At(a[1..], t);
          assert At(b, t) == [b[0]] + At(b[1..], t);
          assert ([a[0]] + At(a[1..], t))[1..] == At(a[1..], t);
          assert ([b[0]] + At(b[1..], t))[1..] == At(b[1..], t);
        } else {
          assert At(a, u) == At(a[1..], u);
          assert At(b, u) == At(b[1..], u);
        }
      }
      StableRecentUnique(a[1..], b[1..]);
      assert a == [a[0]] + a[1..];
      assert b == [b[0]] + b[1..];
    }
  }
}
