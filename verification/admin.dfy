/** The admin panel's query over the order log: keep the orders of the chosen
    day, keep those whose name, phone or some item name contains the search
    text, and list them newest first. JavaScript's `sort` is stable, so orders
    with the same instant keep their log order. */
module Admin {
  import opened Collections
  import opened Strings
  import opened Cart
  import opened Shop

  /** `o.name?.includes(q) || o.phone?.includes(q) || o.items?.some(i => i.name.includes(q))`. */
  predicate Matches(o: Order, q: string)
    ensures Matches(o, q) ==> o.name.Some? || o.phone.Some? || |o.items| > 0
    ensures o.name == Some(q) || o.phone == Some(q) ==> Matches(o, q)
  {
    ContainsEmptyAndSelf(q);
    (o.name.Some? && Contains(o.name.value, q))
    || (o.phone.Some? && Contains(o.phone.value, q))
    || (exists i | 0 <= i < |o.items| :: Contains(o.items[i].item.name, q))
  }

  /** The empty search matches exactly the orders with a name, a phone or an item. */
  lemma EmptySearchMatches(o: Order)
    ensures Matches(o, "") <==> o.name.Some? || o.phone.Some? || |o.items| > 0
  {
    if o.name.Some? { ContainsEmptyAndSelf(o.name.value); }
    if o.phone.Some? { ContainsEmptyAndSelf(o.phone.value); }
    if |o.items| > 0 { ContainsEmptyAndSelf(o.items[0].item.name); }
  }

  /** The test "placed on `day`". */
  function OnDay(day: string): Order -> bool {
    (o: Order) => o.day == day
  }

  /** The test "matches the search `q`". */
  function MatchesSearch(q: string): Order -> bool {
    (o: Order) => Matches(o, q)
  }

  /** The test "placed on `day` and matches `q`": what the query keeps. */
  function Selected(day: string, q: string): Order -> bool {
    (o: Order) => o.day == day && Matches(o, q)
  }

  /** `s` lists orders newest first. */
  predicate NewestFirstOrder(s: seq<Order>) {
    forall i, j :: 0 <= i < j < |s| ==> s[i].date.millis >= s[j].date.millis
  }

  /** An order no newer than `x` can follow `x` at the head of a newest-first list. */
  lemma ConsNewestFirst(x: Order, s: seq<Order>)
    requires NewestFirstOrder(s)
    requires forall y :: y in s ==> y.date.millis <= x.date.millis
    ensures NewestFirstOrder([x] + s)
  {
    var r := [x] + s;
    forall i, j | 0 <= i < j < |r| ensures r[i].date.millis >= r[j].date.millis {
      assert r[j] == s[j - 1];
      if i > 0 {
        assert r[i] == s[i - 1];
      } else {
        assert s[j - 1] in s;
      }
    }
  }

  /** Dropping the newest order of a newest-first list leaves a newest-first list. */
  lemma NewestFirstTail(s: seq<Order>)
    requires |s| > 0 && NewestFirstOrder(s)
    ensures NewestFirstOrder(s[1..])
  {
    forall i, j | 0 <= i < j < |s| - 1 ensures s[1..][i].date.millis >= s[1..][j].date.millis {
      assert s[1..][i] == s[i + 1] && s[1..][j] == s[j + 1];
    }
  }

  /** Place `o` into the newest-first list `s`, before every order that is not newer. */
  function Insert(o: Order, s: seq<Order>): (r: seq<Order>)
    ensures multiset(r) == multiset(s) + multiset{o}
  {
    if |s| == 0 || s[0].date.millis <= o.date.millis then [o] + s
    else
      assert s == [s[0]] + s[1..];
      [s[0]] + Insert(o, s[1..])
  }

  /** Inserting into a newest-first list gives a newest-first list. */
  lemma {:induction false} InsertKeepsOrder(o: Order, s: seq<Order>)
    requires NewestFirstOrder(s)
    ensures NewestFirstOrder(Insert(o, s))
  {
    if |s| == 0 || s[0].date.millis <= o.date.millis {
      ConsNewestFirst(o, s);
    } else {
      var tail := Insert(o, s[1..]);
      InsertKeepsOrder(o, s[1..]);
      forall y | y in tail ensures y.date.millis <= s[0].date.millis {
        assert y in multiset(tail);
        if y != o {
          assert y in s[1..];
          var k :| 1 <= k < |s| && s[k] == y;
        }
      }
      ConsNewestFirst(s[0], tail);
    }
  }

  /** `sort((a, b) => new Date(b.date) - new Date(a.date))`, as a stable insertion sort. */
  function SortNewestFirst(s: seq<Order>): (r: seq<Order>)
    ensures multiset(r) == multiset(s)
  {
    if |s| == 0 then []
    else
      assert s == [s[0]] + s[1..];
      Insert(s[0], SortNewestFirst(s[1..]))
  }

  /** The sort lists the orders newest first. */
  lemma {:induction false} SortIsNewestFirst(s: seq<Order>)
    ensures NewestFirstOrder(SortNewestFirst(s))
  {
    if |s| > 0 {
      SortIsNewestFirst(s[1..]);
      InsertKeepsOrder(s[0], SortNewestFirst(s[1..]));
    }
  }

  /** The test "placed at instant `t`". */
  function AtInstant(t: int): Order -> bool {
    (o: Order) => o.date.millis == t
  }

  /** When one of `a` and `b` is empty, `a` then `b` then `c` may be written `b`
      then `a` then `c`. */
  lemma Interleave(a: seq<Order>, b: seq<Order>, c: seq<Order>, bc: seq<Order>)
    requires bc == b + c && (a == [] || b == [])
    ensures a + bc == b + (a + c)
  {
  }

  /** Inserting `o` into a newest-first list puts it before the orders of its own
      instant that are already there. */
  lemma {:induction false} InsertAtInstant(o: Order, s: seq<Order>, t: int)
    requires NewestFirstOrder(s)
    ensures Filter(Insert(o, s), AtInstant(t)) == Filter([o], AtInstant(t)) + Filter(s, AtInstant(t))
  {
    if |s| == 0 || s[0].date.millis <= o.date.millis {
      FilterConcat([o], s, AtInstant(t));
    } else {
      var head, tail := s[0], s[1..];
      NewestFirstTail(s);
      InsertAtInstant(o, tail, t);
      assert s == [head] + tail;
      assert Insert(o, s) == [head] + Insert(o, tail);
      FilterConcat([head], Insert(o, tail), AtInstant(t));
      FilterConcat([head], tail, AtInstant(t));
      // At most one of `o` and `head` is at instant `t`, since `head` is newer.
      var fo, fh := Filter([o], AtInstant(t)), Filter([head], AtInstant(t));
      assert fh == [] || fo == [];
      Interleave(fh, fo, Filter(tail, AtInstant(t)), Filter(Insert(o, tail), AtInstant(t)));
    }
  }

  /** The sort is stable: the orders placed at any one instant come out in the
      order they had in the input. */
  lemma {:induction false} SortIsStable(s: seq<Order>, t: int)
    ensures Filter(SortNewestFirst(s), AtInstant(t)) == Filter(s, AtInstant(t))
  {
    if |s| > 0 {
      var head, rest := s[0], s[1..];
      var sortedRest := SortNewestFirst(rest);
      assert SortNewestFirst(s) == Insert(head, sortedRest);
      SortIsNewestFirst(rest);
      calc {
        Filter(SortNewestFirst(s), AtInstant(t));
        Filter(Insert(head, sortedRest), AtInstant(t));
        { InsertAtInstant(head, sortedRest, t); }
        Filter([head], AtInstant(t)) + Filter(sortedRest, AtInstant(t));
        { SortIsStable(rest, t); }
        Filter([head], AtInstant(t)) + Filter(rest, AtInstant(t));
        { FilterConcat([head], rest, AtInstant(t)); }
        Filter([head] + rest, AtInstant(t));
      }
    }
  }

  /** The admin list: the orders of `day` matching `q`, newest first. */
  function Query(log: seq<Order>, day: string, q: string): (r: seq<Order>)
    ensures |r| <= |log|
    ensures forall o :: o in r ==> o in log && o.day == day && Matches(o, q)
    ensures NewestFirstOrder(r)
  {
    var kept := Filter(Filter(log, OnDay(day)), MatchesSearch(q));
    SortIsNewestFirst(kept);
    var sorted := SortNewestFirst(kept);
    assert |sorted| == |multiset(kept)|;
    assert forall o :: o in sorted ==> o in multiset(sorted);
    assert forall o :: o in multiset(kept) ==> o in kept;
    sorted
  }

  /** Filtering by day and then by search keeps what the combined test keeps. */
  lemma {:induction false} TwoFiltersAreOne(log: seq<Order>, day: string, q: string)
    ensures Filter(Filter(log, OnDay(day)), MatchesSearch(q)) == Filter(log, Selected(day, q))
  {
    if |log| > 0 {
      var o, rest := log[0], log[1..];
      TwoFiltersAreOne(rest, day, q);
      var restDay := Filter(rest, OnDay(day));
      if o.day == day {
        var byDay := Filter(log, OnDay(day));
        assert byDay == [o] + restDay;
        assert byDay[0] == o && byDay[1..] == restDay;
      } else {
        assert Filter(log, OnDay(day)) == restDay;
      }
    }
  }

  /** The query returns each order of the log that was placed on `day` and matches
      `q`, as often as the log holds it and nothing else, newest first, with
      orders of the same instant in log order. */
  lemma QuerySpec(log: seq<Order>, day: string, q: string)
    ensures forall o :: o in Query(log, day, q) <==> o in log && o.day == day && Matches(o, q)
    ensures multiset(Query(log, day, q)) == multiset(Filter(log, Selected(day, q)))
    ensures NewestFirstOrder(Query(log, day, q))
    ensures forall t :: Filter(Query(log, day, q), AtInstant(t)) == Filter(Filter(log, Selected(day, q)), AtInstant(t))
  {
    TwoFiltersAreOne(log, day, q);
    var kept := Filter(log, Selected(day, q));
    forall o ensures o in Query(log, day, q) <==> o in kept {
      assert o in Query(log, day, q) <==> o in multiset(Query(log, day, q));
      assert o in kept <==> o in multiset(kept);
    }
    SortIsNewestFirst(kept);
    forall t ensures Filter(Query(log, day, q), AtInstant(t)) == Filter(kept, AtInstant(t)) {
      SortIsStable(kept, t);
    }
  }

  /** An order appended to the log shows up in the query exactly when it was placed
      on `day` and matches `q`; the orders listed before stay listed. */
  lemma QueryAfterAppend(log: seq<Order>, o: Order, day: string, q: string)
    ensures multiset(Query(log + [o], day, q))
         == multiset(Query(log, day, q)) + (if o.day == day && Matches(o, q) then multiset{o} else multiset{})
  {
    TwoFiltersAreOne(log + [o], day, q);
    TwoFiltersAreOne(log, day, q);
    FilterConcat(log, [o], Selected(day, q));
  }

  /** Searching for nothing lists every order of the day that has a name or a
      phone, which every submitted order has. */
  lemma EmptySearchListsTheDay(log: seq<Order>, day: string)
    requires forall o :: o in log ==> o.name.Some?
    ensures multiset(Query(log, day, "")) == multiset(Filter(log, OnDay(day)))
  {
    forall o | o in log ensures Selected(day, "")(o) == OnDay(day)(o) {
      EmptySearchMatches(o);
    }
    FilterCongruent(log, Selected(day, ""), OnDay(day));
    QuerySpec(log, day, "");
  }
}
