// Loops that visit the members of disjoint groups of a buffer, one group after
// the other, adding each member's share.
module GroupLoop {
  import opened Sums

  // Where member k of group c stands, and what it receives.
  type Place = (int, int) -> int
  type Share = (int, int) -> real

  // groups x n places of a buffer, no two alike.
  ghost predicate Layout(place: Place, groups: nat, n: nat, total: nat) {
    && (forall c, k :: 0 <= c < groups && 0 <= k < n ==> 0 <= place(c, k) < total)
    && (forall c, k, c', k' ::
          0 <= c < groups && 0 <= k < n && 0 <= c' < groups && 0 <= k' < n && place(c, k) == place(c', k') ==>
          c == c' && k == k')
  }

  ghost predicate Before(p: int, j: int, c: int, k: int) { p < c || (p == c && j < k) }

  // The members before member k of group c have received their shares.
  ghost predicate Shared(now: seq<real>, was: seq<real>, place: Place, groups: nat, n: nat, share: Share, c: int,
                         k: int) {
    && |now| == |was|
    && forall p, j :: 0 <= p < groups && 0 <= j < n && 0 <= place(p, j) < |now| ==>
      now[place(p, j)] == was[place(p, j)] + if Before(p, j, c, k) then share(p, j) else 0.0
  }

  lemma SharedNone(was: seq<real>, place: Place, groups: nat, n: nat, share: Share)
    ensures Shared(was, was, place, groups, n, share, 0, 0)
  {
  }

  lemma SharedStep(now: seq<real>, was: seq<real>, place: Place, groups: nat, n: nat, share: Share, c: int, k: int)
    requires Layout(place, groups, n, |was|) && Shared(now, was, place, groups, n, share, c, k) && 0 <= c < groups
    requires 0 <= k < n
    ensures 0 <= place(c, k) < |now|
    ensures Shared(now[place(c, k) := now[place(c, k)] + share(c, k)], was, place, groups, n, share, c, k + 1)
  {
    var next := now[place(c, k) := now[place(c, k)] + share(c, k)];
    forall p, j | 0 <= p < groups && 0 <= j < n && 0 <= place(p, j) < |next|
      ensures next[place(p, j)] == was[place(p, j)] + if Before(p, j, c, k + 1) then share(p, j) else 0.0
    {
      if place(p, j) == place(c, k) { assert p == c && j == k; }
    }
  }

  lemma SharedCarry(now: seq<real>, was: seq<real>, place: Place, groups: nat, n: nat, share: Share, c: int)
    requires Shared(now, was, place, groups, n, share, c, n)
    ensures Shared(now, was, place, groups, n, share, c + 1, 0)
  {
  }

  // When all groups are done every member has its share.
  lemma SharedAll(now: seq<real>, was: seq<real>, place: Place, groups: nat, n: nat, share: Share, total: nat)
    requires Shared(now, was, place, groups, n, share, groups, 0) && Layout(place, groups, n, total) && |now| == total
    ensures forall p, j :: 0 <= p < groups && 0 <= j < n ==> now[place(p, j)] == was[place(p, j)] + share(p, j)
  {
  }

  // Every position of the buffer is the place of a member of a group.
  ghost predicate Covers(place: Place, groups: nat, n: nat, total: nat) {
    forall q :: 0 <= q < total ==> Placed(place, groups, n, q)
  }

  ghost predicate Placed(place: Place, groups: nat, n: nat, q: int) {
    exists c, k :: 0 <= c < groups && 0 <= k < n && place(c, k) == q
  }

  // ── Sums over the buffer, group by group ──

  // f(q) where q is the member's place, and nothing elsewhere.
  ghost function Hit(place: Place, f: int -> real, q: int, c: int, k: int): real {
    if place(c, k) == q then f(q) else 0.0
  }

  ghost function HitsOfGroup(place: Place, n: nat, f: int -> real, q: int): int -> real {
    c => Sum(n, k => Hit(place, f, q, c, k))
  }

  ghost function HitsOfPlace(place: Place, total: nat, f: int -> real, c: int): int -> real {
    k => Sum(total, q => Hit(place, f, q, c, k))
  }

  ghost function GroupTotal(place: Place, n: nat, f: int -> real): int -> real {
    c => Sum(n, k => f(place(c, k)))
  }

  // A position is hit once.
  lemma HitOnce(place: Place, groups: nat, n: nat, total: nat, f: int -> real, q: int)
    requires Layout(place, groups, n, total) && Placed(place, groups, n, q)
    ensures Sum(groups, HitsOfGroup(place, n, f, q)) == f(q)
  {
    var c, k :| 0 <= c < groups && 0 <= k < n && place(c, k) == q;
    forall c' | 0 <= c' < groups && c' != c
      ensures HitsOfGroup(place, n, f, q)(c') == 0.0
    {
      SumZero(n, k' => Hit(place, f, q, c', k'));
    }
    SumDelta(groups, c, HitsOfGroup(place, n, f, q));
    SumDelta(n, k, k' => Hit(place, f, q, c, k'));
  }

  ghost function GroupHits(place: Place, n: nat, f: int -> real): (int, int) -> real {
    (q, c) => HitsOfGroup(place, n, f, q)(c)
  }

  // What group c hits is f at its places.
  lemma GroupSum(place: Place, groups: nat, n: nat, total: nat, f: int -> real, c: int)
    requires Layout(place, groups, n, total) && 0 <= c < groups
    ensures Sum(total, q => GroupHits(place, n, f)(q, c)) == GroupTotal(place, n, f)(c)
  {
    var hits := (q: int, k: int) => Hit(place, f, q, c, k);
    forall k | 0 <= k < n
      ensures HitsOfPlace(place, total, f, c)(k) == f(place(c, k))
    {
      SumDelta(total, place(c, k), q => Hit(place, f, q, c, k));
    }
    hide Sum, Layout;
    forall q | 0 <= q < total
      ensures GroupHits(place, n, f)(q, c) == Sum(n, k => hits(q, k))
    {
      calc {
        GroupHits(place, n, f)(q, c);
        HitsOfGroup(place, n, f, q)(c);
        Sum(n, k => Hit(place, f, q, c, k));
        { SumEq(n, k => Hit(place, f, q, c, k), k => hits(q, k)); }
        Sum(n, k => hits(q, k));
      }
    }
    forall k | 0 <= k < n
      ensures HitsOfPlace(place, total, f, c)(k) == Sum(total, q => hits(q, k))
    {
      SumEq(total, q => Hit(place, f, q, c, k), q => hits(q, k));
    }
    SumExchange(total, n, hits, q => GroupHits(place, n, f)(q, c), HitsOfPlace(place, total, f, c));
    SumEq(n, HitsOfPlace(place, total, f, c), k => f(place(c, k)));
  }

  // When the places are all positions, each once, a sum over the buffer is the sum of
  // the groups' sums.
  lemma SumByGroup(place: Place, groups: nat, n: nat, total: nat, f: int -> real)
    requires Layout(place, groups, n, total) && Covers(place, groups, n, total)
    ensures Sum(total, f) == Sum(groups, GroupTotal(place, n, f))
  {
    hide Layout, Placed, Sum, GroupTotal, HitsOfGroup, Hit;
    var rows := (q: int) => Sum(groups, HitsOfGroup(place, n, f, q));
    forall q | 0 <= q < total
      ensures rows(q) == f(q) && rows(q) == Sum(groups, c => GroupHits(place, n, f)(q, c))
    {
      HitOnce(place, groups, n, total, f, q);
      var row := (c: int) => GroupHits(place, n, f)(q, c);
      forall c | 0 <= c < groups
        ensures HitsOfGroup(place, n, f, q)(c) == row(c)
      {
        assert row(c) == GroupHits(place, n, f)(q, c) == HitsOfGroup(place, n, f, q)(c);
      }
      SumEq(groups, HitsOfGroup(place, n, f, q), row);
      SumEq(groups, row, c => GroupHits(place, n, f)(q, c));
    }
    forall c | 0 <= c < groups
      ensures GroupTotal(place, n, f)(c) == Sum(total, q => GroupHits(place, n, f)(q, c))
    {
      GroupSum(place, groups, n, total, f, c);
    }
    SumEq(total, f, rows);
    SumExchange(total, groups, GroupHits(place, n, f), rows, GroupTotal(place, n, f));
  }
}
