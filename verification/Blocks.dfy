// A text put together from blocks in the order of a sorted list: when the order of
// elements with equal keys can be seen in it.
module Blocks {
  import opened Ids
  import opened Sorting

  type Blocks = map<ConnectionId, string>

  function At(blocks: Blocks, id: ConnectionId): string {
    if id in blocks then blocks[id] else ""
  }

  /** The blocks of the ids, one after the other. */
  function Joined(blocks: Blocks, ids: seq<ConnectionId>): string {
    if ids == [] then "" else Joined(blocks, ids[..|ids| - 1]) + At(blocks, ids[|ids| - 1])
  }

  predicate Commute(x: string, y: string) {
    x + y == y + x
  }

  /** Where two ids have the same text, it makes no difference which block comes first. */
  predicate TiesCommute(blocks: Blocks) {
    forall a, b | a in blocks && b in blocks && Render(a) == Render(b) :: Commute(At(blocks, a), At(blocks, b))
  }

  // Strings

  lemma Associate(x: string, y: string, z: string)
    ensures (x + y) + z == x + (y + z)
  {
  }

  lemma CommuteWithBoth(x: string, y: string, z: string)
    requires Commute(x, y) && Commute(x, z)
    ensures Commute(x, y + z)
  {
    Associate(x, y, z);
    Associate(y, x, z);
    Associate(y, z, x);
  }

  lemma Cancel(head: string, x: string, y: string, tail: string)
    requires |x| == |y| && (head + x) + tail == (head + y) + tail
    ensures x == y
  {
    assert x == ((head + x) + tail)[|head|..|head| + |x|];
    assert y == ((head + y) + tail)[|head|..|head| + |y|];
  }

  // Moving one block

  lemma JoinedSnoc(blocks: Blocks, ids: seq<ConnectionId>, last: ConnectionId)
    ensures Joined(blocks, ids + [last]) == Joined(blocks, ids) + At(blocks, last)
  {
    assert (ids + [last])[..|ids|] == ids;
  }

  lemma {:induction false} JoinedAppend(blocks: Blocks, a: seq<ConnectionId>, b: seq<ConnectionId>)
    ensures Joined(blocks, a + b) == Joined(blocks, a) + Joined(blocks, b)
  {
    if b == [] {
      assert a + b == a;
    } else {
      var init, last := b[..|b| - 1], b[|b| - 1];
      JoinedAppend(blocks, a, init);
      JoinedSnoc(blocks, a + init, last);
      Associate(Joined(blocks, a), Joined(blocks, init), At(blocks, last));
      assert a + b == (a + init) + [last];
    }
  }

  lemma {:induction false} CommuteWithAll(blocks: Blocks, id: ConnectionId, ids: seq<ConnectionId>)
    requires forall c | c in ids :: Commute(At(blocks, id), At(blocks, c))
    ensures Commute(At(blocks, id), Joined(blocks, ids))
  {
    if ids != [] {
      var init, last := ids[..|ids| - 1], ids[|ids| - 1];
      assert last in ids;
      CommuteWithAll(blocks, id, init);
      CommuteWithBoth(At(blocks, id), Joined(blocks, init), At(blocks, last));
    }
  }

  /** A block can be moved to the end if it commutes with all that come behind it. */
  lemma MoveToEnd(blocks: Blocks, before: seq<ConnectionId>, id: ConnectionId, behind: seq<ConnectionId>)
    requires forall c | c in behind :: Commute(At(blocks, id), At(blocks, c))
    ensures Joined(blocks, before + [id] + behind) == Joined(blocks, before + behind) + At(blocks, id)
  {
    CommuteWithAll(blocks, id, behind);
    JoinedAppend(blocks, before + [id], behind);
    JoinedSnoc(blocks, before, id);
    JoinedAppend(blocks, before, behind);
    Associate(Joined(blocks, before), At(blocks, id), Joined(blocks, behind));
    Associate(Joined(blocks, before), Joined(blocks, behind), At(blocks, id));
  }

  // Sorted lists

  lemma WithoutOneSorted(ids: seq<ConnectionId>, i: nat)
    requires Sorted(ids) && i < |ids|
    ensures Sorted(ids[..i] + ids[i + 1..])
  {
    var rest := ids[..i] + ids[i + 1..];
    forall j, k | 0 <= j < k < |rest| ensures IdLe(rest[j], rest[k]) {
      var j', k' := if j < i then j else j + 1, if k < i then k else k + 1;
      assert rest[j] == ids[j'] && rest[k] == ids[k'];
    }
  }

  lemma LastIsGreatest(sorted: seq<ConnectionId>, c: ConnectionId)
    requires Sorted(sorted) && c in sorted
    ensures IdLe(c, sorted[|sorted| - 1])
  {
    TextLeTotal(Render(c), Render(c));
  }

  /** What stands behind a greatest element has its text. */
  lemma TiedBehind(sorted: seq<ConnectionId>, i: nat, c: ConnectionId)
    requires Sorted(sorted) && i < |sorted| && c in sorted[i + 1..] && IdLe(c, sorted[i])
    ensures Render(c) == Render(sorted[i])
  {
    var k :| 0 <= k < |sorted[i + 1..]| && sorted[i + 1..][k] == c;
    assert IdLe(sorted[i], sorted[i + 1 + k]);
    TextLeAntisymmetric(Render(c), Render(sorted[i]));
  }

  lemma SameMembers(a: seq<ConnectionId>, b: seq<ConnectionId>, c: ConnectionId)
    requires multiset(a) == multiset(b) && c in a
    ensures c in b
  {
    assert c in multiset(a);
  }

  lemma TakenOut(ids: seq<ConnectionId>, i: nat)
    requires i < |ids|
    ensures ids == ids[..i] + [ids[i]] + ids[i + 1..]
    ensures multiset(ids) == multiset(ids[..i] + ids[i + 1..]) + multiset{ids[i]}
  {
    assert ids == ids[..i] + [ids[i]] + ids[i + 1..];
  }

  /** All that stands behind an occurrence of the greatest element has a block that commutes with its own. */
  lemma GreatestCommutes(blocks: Blocks, a: seq<ConnectionId>, b: seq<ConnectionId>, i: nat, c: ConnectionId)
    requires Sorted(a) && Sorted(b) && multiset(a) == multiset(b) && TiesCommute(blocks)
    requires a != [] && i < |b| && b[i] == a[|a| - 1] && c in b[i + 1..]
    requires c in blocks && b[i] in blocks
    ensures Commute(At(blocks, b[i]), At(blocks, c))
  {
    SameMembers(b, a, c);
    LastIsGreatest(a, c);
    TiedBehind(b, i, c);
  }

  lemma SameWithoutOne(a: seq<ConnectionId>, b: seq<ConnectionId>, i: nat)
    requires multiset(a) == multiset(b) && a != [] && i < |b| && b[i] == a[|a| - 1]
    ensures multiset(a[..|a| - 1]) == multiset(b[..i] + b[i + 1..])
  {
    var init, rest, last := a[..|a| - 1], b[..i] + b[i + 1..], b[i];
    TakenOut(b, i);
    assert a == init + [last];
    assert multiset(init) == multiset(a) - multiset{last};
    assert multiset(rest) == multiset(b) - multiset{last};
  }

  lemma AllIn(blocks: Blocks, ids: seq<ConnectionId>, i: nat)
    requires i < |ids| && forall c | c in ids :: c in blocks
    ensures forall c | c in ids[..i] + ids[i + 1..] :: c in blocks
  {
  }

  /** Two sorted lists of the same ids give the same text if ties commute. */
  lemma {:induction false} SortedJoined(blocks: Blocks, a: seq<ConnectionId>, b: seq<ConnectionId>)
    requires Sorted(a) && Sorted(b) && multiset(a) == multiset(b) && TiesCommute(blocks)
    requires (forall c | c in a :: c in blocks) && (forall c | c in b :: c in blocks)
    ensures Joined(blocks, a) == Joined(blocks, b)
    decreases |a|
  {
    if a == [] {
      assert |multiset(a)| == |multiset(b)|;
    } else {
      SameMembers(a, b, a[|a| - 1]);
      var i :| 0 <= i < |b| && b[i] == a[|a| - 1];
      SameWithoutOne(a, b, i);
      WithoutOneSorted(b, i);
      AllIn(blocks, b, i);
      SortedJoined(blocks, a[..|a| - 1], b[..i] + b[i + 1..]);
      GreatestToEnd(blocks, a, b, i);
    }
  }

  lemma GreatestToEnd(blocks: Blocks, a: seq<ConnectionId>, b: seq<ConnectionId>, i: nat)
    requires Sorted(a) && Sorted(b) && multiset(a) == multiset(b) && TiesCommute(blocks)
    requires a != [] && i < |b| && b[i] == a[|a| - 1] && forall c | c in b :: c in blocks
    ensures Joined(blocks, b) == Joined(blocks, b[..i] + b[i + 1..]) + At(blocks, b[i])
  {
    forall c | c in b[i + 1..] ensures Commute(At(blocks, b[i]), At(blocks, c)) {
      GreatestCommutes(blocks, a, b, i, c);
    }
    MoveToEnd(blocks, b[..i], b[i], b[i + 1..]);
    TakenOut(b, i);
  }

  // Neighbours that change places

  function Swapped(ids: seq<ConnectionId>, i: nat): (swapped: seq<ConnectionId>)
    requires i + 1 < |ids|
    ensures |swapped| == |ids|
    ensures forall k | 0 <= k < |ids| :: swapped[k] == ids[if k == i then i + 1 else if k == i + 1 then i else k]
  {
    ids[..i] + [ids[i + 1], ids[i]] + ids[i + 2..]
  }

  lemma SwappedWalks(sorted: seq<ConnectionId>, ids: set<ConnectionId>, i: nat)
    requires Sorted(sorted) && Enumerates(sorted, ids)
    requires i + 1 < |sorted| && Render(sorted[i]) == Render(sorted[i + 1])
    ensures Sorted(Swapped(sorted, i)) && Enumerates(Swapped(sorted, i), ids)
  {
    var swapped := Swapped(sorted, i);
    TextLeTotal(Render(sorted[i]), Render(sorted[i]));
    forall id | id in ids ensures id in swapped {
      var k :| 0 <= k < |sorted| && sorted[k] == id;
      assert swapped[if k == i then i + 1 else if k == i + 1 then i else k] == id;
    }
  }

  lemma JoinedAround(blocks: Blocks, head: seq<ConnectionId>, a: ConnectionId, b: ConnectionId,
                     tail: seq<ConnectionId>)
    ensures Joined(blocks, head + [a, b] + tail)
            == (Joined(blocks, head) + (At(blocks, a) + At(blocks, b))) + Joined(blocks, tail)
  {
    assert head + [a, b] == (head + [a]) + [b];
    JoinedAppend(blocks, head + [a, b], tail);
    JoinedSnoc(blocks, head + [a], b);
    JoinedSnoc(blocks, head, a);
    Associate(Joined(blocks, head), At(blocks, a), At(blocks, b));
  }

  /** If the text stays the same when two neighbours change places, their blocks commute. */
  lemma SwappedJoined(blocks: Blocks, ids: seq<ConnectionId>, i: nat)
    requires i + 1 < |ids|
    requires Joined(blocks, ids) == Joined(blocks, Swapped(ids, i))
    ensures Commute(At(blocks, ids[i]), At(blocks, ids[i + 1]))
  {
    var head, tail := ids[..i], ids[i + 2..];
    assert ids == head + [ids[i], ids[i + 1]] + tail;
    JoinedAround(blocks, head, ids[i], ids[i + 1], tail);
    JoinedAround(blocks, head, ids[i + 1], ids[i], tail);
    var x, y := At(blocks, ids[i]), At(blocks, ids[i + 1]);
    Cancel(Joined(blocks, head), x + y, y + x, Joined(blocks, tail));
  }

  /** A block does not commute with its own beginning if what follows begins differently. */
  lemma TitleDoesNotCommute(title: string, lines: string, k: nat)
    requires k < |title| && k < |lines| && title[k] != lines[k]
    ensures !Commute(title + lines, title)
  {
    assert ((title + lines) + title)[|title| + k] == lines[k];
    assert (title + (title + lines))[|title| + k] == title[k];
  }
}
