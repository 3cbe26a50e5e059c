// Walking a set in some order, and sorting ids by their text: what sorting keeps,
// and when the outcome does not depend on the order it started from.
module Sorting {
  import opened Ids

  predicate NoRepeats(order: seq<ConnectionId>) {
    forall i, j | 0 <= i < j < |order| :: order[i] != order[j]
  }

  predicate Enumerates(order: seq<ConnectionId>, ids: set<ConnectionId>) {
    NoRepeats(order)
    && (forall id | id in order :: id in ids)
    && (forall id | id in ids :: id in order)
  }

  /** The set `ids`, walked in the order in which it happens to be walked. */
  function Walked(ids: set<ConnectionId>, order: seq<ConnectionId>): (walk: seq<ConnectionId>)
    requires Enumerates(order, ids)
    ensures Enumerates(walk, ids) && walk == order
  {
    order
  }

  function Members(order: seq<ConnectionId>): set<ConnectionId> {
    set c | c in order
  }

  // Sorting by text

  predicate TextLe(a: string, b: string) {
    a == "" || (b != "" && (a[0] < b[0] || (a[0] == b[0] && TextLe(a[1..], b[1..]))))
  }

  predicate IdLe(a: ConnectionId, b: ConnectionId) {
    TextLe(Render(a), Render(b))
  }

  /** A new element goes behind all that are not greater: equal keys keep their order. */
  function Insert(sorted: seq<ConnectionId>, id: ConnectionId): seq<ConnectionId> {
    if sorted == [] then [id]
    else if IdLe(sorted[0], id) then [sorted[0]] + Insert(sorted[1..], id)
    else [id] + sorted
  }

  function SortByText(ids: seq<ConnectionId>): seq<ConnectionId> {
    if ids == [] then [] else Insert(SortByText(ids[..|ids| - 1]), ids[|ids| - 1])
  }

  // The order of texts

  lemma {:induction false} TextLeTotal(a: string, b: string)
    ensures TextLe(a, b) || TextLe(b, a)
  {
    if a != "" && b != "" {
      TextLeTotal(a[1..], b[1..]);
    }
  }

  lemma {:induction false} TextLeAntisymmetric(a: string, b: string)
    requires TextLe(a, b) && TextLe(b, a)
    ensures a == b
  {
    if a != "" && b != "" {
      TextLeAntisymmetric(a[1..], b[1..]);
      assert a == [a[0]] + a[1..] && b == [b[0]] + b[1..];
    }
  }

  lemma {:induction false} TextLeTransitive(a: string, b: string, c: string)
    requires TextLe(a, b) && TextLe(b, c)
    ensures TextLe(a, c)
  {
    if a != "" && b != "" && c != "" && a[0] == b[0] == c[0] {
      TextLeTransitive(a[1..], b[1..], c[1..]);
    }
  }

  // Sorting loses nothing

  lemma MultisetCons(id: ConnectionId, ids: seq<ConnectionId>)
    ensures multiset([id] + ids) == multiset{id} + multiset(ids)
  {
  }

  lemma {:induction false} InsertKeeps(sorted: seq<ConnectionId>, id: ConnectionId)
    ensures multiset(Insert(sorted, id)) == multiset(sorted) + multiset{id}
  {
    if sorted == [] {
    } else {
      var head, rest := sorted[0], sorted[1..];
      InsertKeeps(rest, id);
      MultisetCons(head, Insert(rest, id));
      MultisetCons(head, rest);
      MultisetCons(id, sorted);
      assert sorted == [head] + rest;
    }
  }

  lemma MultisetSnoc(ids: seq<ConnectionId>, id: ConnectionId)
    ensures multiset(ids + [id]) == multiset(ids) + multiset{id}
  {
  }

  lemma {:induction false} SortKeeps(ids: seq<ConnectionId>)
    ensures multiset(SortByText(ids)) == multiset(ids)
  {
    if ids == [] {
    } else {
      var init, last := ids[..|ids| - 1], ids[|ids| - 1];
      SortKeeps(init);
      InsertKeeps(SortByText(init), last);
      MultisetSnoc(init, last);
      assert ids == init + [last];
    }
  }

  lemma SortedAreSame(ids: seq<ConnectionId>)
    ensures |SortByText(ids)| == |ids|
    ensures forall id :: id in SortByText(ids) <==> id in ids
  {
    SortKeeps(ids);
    assert |multiset(SortByText(ids))| == |multiset(ids)|;
    assert forall id :: id in SortByText(ids) <==> id in multiset(SortByText(ids));
    assert forall id :: id in ids <==> id in multiset(ids);
  }

  predicate Sorted(ids: seq<ConnectionId>) {
    forall i, j | 0 <= i < j < |ids| :: IdLe(ids[i], ids[j])
  }

  lemma InsertMembers(sorted: seq<ConnectionId>, id: ConnectionId)
    ensures forall c :: c in Insert(sorted, id) <==> c in sorted || c == id
  {
    InsertKeeps(sorted, id);
    assert forall c :: c in Insert(sorted, id) <==> c in multiset(Insert(sorted, id));
    assert forall c :: c in sorted <==> c in multiset(sorted);
  }

  lemma SortedCons(head: ConnectionId, rest: seq<ConnectionId>)
    requires Sorted(rest) && forall c | c in rest :: IdLe(head, c)
    ensures Sorted([head] + rest)
  {
    var all := [head] + rest;
    forall i, j | 0 <= i < j < |all| ensures IdLe(all[i], all[j]) {
      assert all[j] == rest[j - 1];
      if i == 0 {
        assert rest[j - 1] in rest;
      } else {
        assert IdLe(rest[i - 1], rest[j - 1]);
      }
    }
  }

  lemma {:induction false} InsertSorts(sorted: seq<ConnectionId>, id: ConnectionId)
    requires Sorted(sorted)
    ensures Sorted(Insert(sorted, id))
  {
    if sorted != [] {
      var head, rest := sorted[0], sorted[1..];
      assert sorted == [head] + rest;
      if IdLe(head, id) {
        InsertSorts(rest, id);
        InsertMembers(rest, id);
        SortedCons(head, Insert(rest, id));
      } else {
        TextLeTotal(Render(head), Render(id));
        forall c | c in sorted ensures IdLe(id, c) {
          if c != head {
            TextLeTransitive(Render(id), Render(head), Render(c));
          }
        }
        SortedCons(id, sorted);
      }
    }
  }

  lemma {:induction false} SortSorts(ids: seq<ConnectionId>)
    ensures Sorted(SortByText(ids))
  {
    if ids != [] {
      SortSorts(ids[..|ids| - 1]);
      InsertSorts(SortByText(ids[..|ids| - 1]), ids[|ids| - 1]);
    }
  }

  lemma {:induction false} InsertLast(sorted: seq<ConnectionId>, id: ConnectionId)
    requires forall c | c in sorted :: IdLe(c, id)
    ensures Insert(sorted, id) == sorted + [id]
  {
    if sorted != [] {
      InsertLast(sorted[1..], id);
      assert sorted == [sorted[0]] + sorted[1..];
    }
  }

  lemma {:induction false} SortOfSorted(ids: seq<ConnectionId>)
    requires Sorted(ids)
    ensures SortByText(ids) == ids
  {
    if ids != [] {
      var init, last := ids[..|ids| - 1], ids[|ids| - 1];
      SortOfSorted(init);
      InsertLast(init, last);
      assert ids == init + [last];
    }
  }

  /** What stands between two elements with the same text has that text too. */
  lemma SameTextBetween(sorted: seq<ConnectionId>, i: nat, k: nat, j: nat)
    requires Sorted(sorted) && i <= k <= j < |sorted| && Render(sorted[i]) == Render(sorted[j])
    ensures Render(sorted[k]) == Render(sorted[i])
  {
    if i < k < j {
      TextLeAntisymmetric(Render(sorted[i]), Render(sorted[k]));
    }
  }

  predicate DistinctTexts(ids: set<ConnectionId>) {
    forall a, b | a in ids && b in ids && Render(a) == Render(b) :: a == b
  }

  /** A sorted sequence of ids with different texts is determined by its members. */
  lemma {:induction false} SortedUnique(a: seq<ConnectionId>, b: seq<ConnectionId>)
    requires Sorted(a) && Sorted(b) && multiset(a) == multiset(b) && DistinctTexts(Members(a))
    ensures a == b
  {
    assert |multiset(a)| == |multiset(b)|;
    if a != [] {
      SameHead(a, b);
      assert a == [a[0]] + a[1..] && b == [b[0]] + b[1..];
      assert multiset(a[1..]) == multiset(a) - multiset{a[0]};
      assert multiset(b[1..]) == multiset(b) - multiset{b[0]};
      SortedUnique(a[1..], b[1..]);
    }
  }

  lemma HeadIsLeast(sorted: seq<ConnectionId>, c: ConnectionId)
    requires Sorted(sorted) && c in sorted
    ensures IdLe(sorted[0], c)
  {
    TextLeTotal(Render(c), Render(c));
  }

  lemma SameHead(a: seq<ConnectionId>, b: seq<ConnectionId>)
    requires Sorted(a) && Sorted(b) && multiset(a) == multiset(b) && DistinctTexts(Members(a))
    requires a != [] && b != []
    ensures a[0] == b[0]
  {
    assert a[0] in multiset(b) && b[0] in multiset(a);
    HeadIsLeast(a, b[0]);
    HeadIsLeast(b, a[0]);
    TextLeAntisymmetric(Render(a[0]), Render(b[0]));
    assert a[0] in Members(a) && b[0] in Members(a);
  }

  lemma {:induction false} EnumerationIsSet(order: seq<ConnectionId>, ids: set<ConnectionId>)
    requires Enumerates(order, ids)
    ensures multiset(order) == multiset(ids)
  {
    if order == [] {
      assert ids == {};
    } else {
      var init, last := order[..|order| - 1], order[|order| - 1];
      assert order == init + [last];
      assert last !in init;
      EnumerationIsSet(init, ids - {last});
      assert ids == (ids - {last}) + {last};
    }
  }

  /** Sorting any two walks of one set gives the same sequence. */
  lemma SortForgetsOrder(a: seq<ConnectionId>, b: seq<ConnectionId>, ids: set<ConnectionId>)
    requires Enumerates(a, ids) && Enumerates(b, ids) && DistinctTexts(ids)
    ensures SortByText(a) == SortByText(b)
  {
    EnumerationIsSet(a, ids);
    EnumerationIsSet(b, ids);
    SortKeeps(a);
    SortKeeps(b);
    SortSorts(a);
    SortSorts(b);
    SortedAreSame(a);
    assert Members(SortByText(a)) == ids;
    SortedUnique(SortByText(a), SortByText(b));
  }

  /** A sorted walk is a walk still. */
  lemma SortEnumerates(order: seq<ConnectionId>, ids: set<ConnectionId>)
    requires Enumerates(order, ids)
    ensures Enumerates(SortByText(order), ids)
  {
    var sorted := SortByText(order);
    SortedAreSame(order);
    SortKeeps(order);
    EnumerationIsSet(order, ids);
    forall i, j | 0 <= i < j < |sorted| ensures sorted[i] != sorted[j] {
      if sorted[i] == sorted[j] {
        CountTwice(sorted, i, j);
      }
    }
  }

  lemma CountTwice(order: seq<ConnectionId>, i: nat, j: nat)
    requires i < j < |order| && order[i] == order[j]
    ensures multiset(order)[order[i]] >= 2
  {
    assert order == order[..i] + [order[i]] + order[i + 1..j] + [order[j]] + order[j + 1..];
  }
}
