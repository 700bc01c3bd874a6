/**
  The stock collection as the controller queries it: `findOne` and `find`
  with equality filters on date, tyre size and status, over the documents in
  insertion order. `StockOf` totals the quantity a filter selects, the
  measure the controller's updates move.
 */
module StockStore {
  import opened Wrappers
  import opened StockModel

  /** An equality filter; an absent date or tyre size is not filtered on. Location never is. */
  datatype Query = Query(date: Option<int>, tyreSize: Option<string>, status: Status)

  /** The filter { date, tyreSize, status } of a point lookup. */
  function Key(date: int, tyreSize: string, status: Status): Query {
    Query(Some(date), Some(tyreSize), status)
  }

  /** The filter { date, status } of a day's scan. */
  function OnDay(date: int, status: Status): Query {
    Query(Some(date), None, status)
  }

  predicate Hit(q: Query, r: StockRecord) {
    && r.status == q.status
    && (q.date.None? || r.date == q.date.value)
    && (q.tyreSize.None? || r.tyreSize == q.tyreSize.value)
  }

  /** `findOne`: the position of the first document the filter selects, if any. */
  function FirstMatch(s: seq<StockRecord>, q: Query): (r: Option<nat>)
    ensures r.Some? ==> r.value < |s| && Hit(q, s[r.value])
    ensures r.Some? ==> forall j :: 0 <= j < r.value ==> !Hit(q, s[j])
    ensures r.None? ==> forall j :: 0 <= j < |s| ==> !Hit(q, s[j])
  {
    if |s| == 0 then None
    else if Hit(q, s[0]) then Some(0)
    else match FirstMatch(s[1..], q)
      case None => None
      case Some(k) => Some(k + 1)
  }

  /** `find`: every document the filter selects, in stored order. */
  function Find(s: seq<StockRecord>, q: Query): (r: seq<StockRecord>)
    ensures |r| <= |s|
    ensures forall x :: x in r <==> x in s && Hit(q, x)
  {
    if |s| == 0 then []
    else (if Hit(q, s[0]) then [s[0]] else []) + Find(s[1..], q)
  }

  /** Each selected document comes back as often as it is stored, and no other does. */
  lemma {:induction false} FindCount(s: seq<StockRecord>, q: Query)
    ensures forall x :: multiset(Find(s, q))[x] == if Hit(q, x) then multiset(s)[x] else 0
  {
    if |s| > 0 {
      assert s == [s[0]] + s[1..];
      FindCount(s[1..], q);
    }
  }

  /** The quantity one document contributes to the filter's total. */
  function Contribution(q: Query, r: StockRecord): int {
    if Hit(q, r) then r.quantity else 0
  }

  /** The total quantity of the documents the filter selects. */
  function StockOf(s: seq<StockRecord>, q: Query): int {
    if |s| == 0 then 0 else Contribution(q, s[0]) + StockOf(s[1..], q)
  }

  lemma {:induction false} FindAppend(s: seq<StockRecord>, t: seq<StockRecord>, q: Query)
    ensures Find(s + t, q) == Find(s, q) + Find(t, q)
  {
    if |s| == 0 {
      assert s + t == t;
    } else {
      assert (s + t)[1..] == s[1..] + t;
      FindAppend(s[1..], t, q);
    }
  }

  /** A filter that selects no document finds nothing. */
  lemma {:induction false} FindNone(s: seq<StockRecord>, q: Query)
    requires forall j :: 0 <= j < |s| ==> !Hit(q, s[j])
    ensures Find(s, q) == []
  {
    if |s| > 0 {
      FindNone(s[1..], q);
    }
  }

  lemma {:induction false} StockOfAppend(s: seq<StockRecord>, t: seq<StockRecord>, q: Query)
    ensures StockOf(s + t, q) == StockOf(s, q) + StockOf(t, q)
  {
    if |s| == 0 {
      assert s + t == t;
    } else {
      assert (s + t)[1..] == s[1..] + t;
      StockOfAppend(s[1..], t, q);
    }
  }

  /** Replacing one document moves the total by exactly the change in what that document contributes. */
  lemma {:induction false} StockOfUpdate(s: seq<StockRecord>, i: nat, v: StockRecord, q: Query)
    requires i < |s|
    ensures StockOf(s[i := v], q) == StockOf(s, q) - Contribution(q, s[i]) + Contribution(q, v)
  {
    if i > 0 {
      assert s[i := v][1..] == s[1..][i - 1 := v];
      StockOfUpdate(s[1..], i - 1, v, q);
    } else {
      assert s[i := v][1..] == s[1..];
    }
  }

  /** A filter that selects nothing totals zero. */
  lemma {:induction false} StockOfNone(s: seq<StockRecord>, q: Query)
    requires forall j :: 0 <= j < |s| ==> !Hit(q, s[j])
    ensures StockOf(s, q) == 0
  {
    if |s| > 0 {
      StockOfNone(s[1..], q);
    }
  }

  /**
    Totalling a narrower filter over the result of a wider one gives the same
    as totalling it over the whole collection.
   */
  lemma {:induction false} StockOfFind(s: seq<StockRecord>, wide: Query, narrow: Query)
    requires forall x :: Hit(narrow, x) ==> Hit(wide, x)
    ensures StockOf(Find(s, wide), narrow) == StockOf(s, narrow)
  {
    if |s| > 0 {
      var head := if Hit(wide, s[0]) then [s[0]] else [];
      StockOfFind(s[1..], wide, narrow);
      StockOfAppend(head, Find(s[1..], wide), narrow);
      if Hit(wide, s[0]) {
        assert StockOf(head, narrow) == Contribution(narrow, s[0]) + StockOf(head[1..], narrow);
        assert head[1..] == [];
      }
    }
  }
}
