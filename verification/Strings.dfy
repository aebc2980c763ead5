// The two-pass string algorithms: count first, then fill a buffer of exactly
// the counted size.
module Strings {

  type Bytes = seq<bv8>

  // ── What splitting means ──

  predicate MatchAt(s: Bytes, q: int, d: Bytes) {
    0 <= q && q + |d| <= |s| && s[q..q + |d|] == d
  }

  // strstr: the leftmost match at or after p, or -1.
  ghost function Find(s: Bytes, d: Bytes, p: nat): (q: int)
    ensures q == -1 || (p <= q && MatchAt(s, q, d))
    ensures forall i :: p <= i && (q == -1 || i < q) ==> !MatchAt(s, i, d)
    decreases |s| - p
  {
    if MatchAt(s, p, d) then p
    else if p >= |s| then -1
    else Find(s, d, p + 1)
  }

  // The pieces of s from start on, cut at each leftmost match.
  ghost function Pieces(s: Bytes, d: Bytes, start: nat): (r: seq<Bytes>)
    requires d != [] && start <= |s|
    ensures r != []
    decreases |s| - start
  {
    var q := Find(s, d, start);
    if q == -1 then [s[start..]] else [s[start..q]] + Pieces(s, d, q + |d|)
  }

  ghost function Split(s: Bytes, d: Bytes): seq<Bytes> {
    if s == [] then [[]] else if d == [] then [s] else Pieces(s, d, 0)
  }

  ghost function Join(ps: seq<Bytes>, d: Bytes): Bytes {
    if |ps| == 0 then [] else if |ps| == 1 then ps[0] else ps[0] + d + Join(ps[1..], d)
  }

  ghost predicate Contains(s: Bytes, d: Bytes) { exists q :: MatchAt(s, q, d) }

  lemma SliceSlice(s: Bytes, a: nat, b: nat, x: nat, y: nat)
    requires a <= b <= |s| && x <= y <= b - a
    ensures s[a..b][x..y] == s[a + x..a + y]
  {
    var u, v := s[a..b][x..y], s[a + x..a + y];
    assert |u| == |v| == y - x;
    assert forall i :: 0 <= i < y - x ==> u[i] == v[i];
  }

  // ── Laws ──

  lemma {:induction false} JoinPieces(s: Bytes, d: Bytes, start: nat)
    requires d != [] && start <= |s|
    ensures Join(Pieces(s, d, start), d) == s[start..]
    decreases |s| - start
  {
    hide Find, Join, MatchAt;
    var q := Find(s, d, start);
    if q == -1 {
      JoinOne(s[start..], d);
    } else {
      MatchText(s, q, d);
      JoinPieces(s, d, q + |d|);
      JoinCons(s[start..q], Pieces(s, d, q + |d|), d);
      SliceCut(s, start, q, q + |d|);
    }
  }

  lemma JoinOne(p: Bytes, d: Bytes)
    ensures Join([p], d) == p
  {
  }

  lemma JoinCons(p: Bytes, ps: seq<Bytes>, d: Bytes)
    requires ps != []
    ensures Join([p] + ps, d) == p + d + Join(ps, d)
  {
    assert ([p] + ps)[1..] == ps;
  }

  lemma MatchText(s: Bytes, q: nat, d: Bytes)
    requires MatchAt(s, q, d)
    ensures q + |d| <= |s| && s[q..q + |d|] == d
  {
  }

  lemma SliceCut(s: Bytes, a: nat, b: nat, c: nat)
    requires a <= b <= c <= |s|
    ensures s[a..b] + s[b..c] + s[c..] == s[a..]
  {
  }

  lemma PiecesCut(s: Bytes, d: Bytes, start: nat, q: nat)
    requires d != [] && start <= q && MatchAt(s, q, d) && Find(s, d, start) == q
    ensures Pieces(s, d, start) == [s[start..q]] + Pieces(s, d, q + |d|)
  {
  }

  // join(split(s, d), d) = s, for every s and d.
  lemma JoinSplit(s: Bytes, d: Bytes)
    ensures Join(Split(s, d), d) == s
  {
    if s != [] && d != [] { JoinPieces(s, d, 0); }
  }

  lemma NoMatchInside(s: Bytes, d: Bytes, start: nat, end: nat)
    requires d != [] && start <= end <= |s|
    requires forall i :: start <= i < end ==> !MatchAt(s, i, d)
    ensures !Contains(s[start..end], d)
  {
    forall q
      ensures !MatchAt(s[start..end], q, d)
    {
      if 0 <= q && q + |d| <= end - start {
        SliceSlice(s, start, end, q, q + |d|);
        assert !MatchAt(s, start + q, d);
      }
    }
  }

  lemma {:induction false} PiecesFree(s: Bytes, d: Bytes, start: nat)
    requires d != [] && start <= |s|
    ensures forall i :: 0 <= i < |Pieces(s, d, start)| ==> !Contains(Pieces(s, d, start)[i], d)
    decreases |s| - start
  {
    var q := Find(s, d, start);
    if q == -1 {
      NoMatchInside(s, d, start, |s|);
      assert s[start..|s|] == s[start..];
    } else {
      NoMatchInside(s, d, start, q);
      PiecesFree(s, d, q + |d|);
    }
  }

  // For a non-empty delimiter no part contains it.
  lemma SplitFree(s: Bytes, d: Bytes)
    requires d != []
    ensures forall i :: 0 <= i < |Split(s, d)| ==> !Contains(Split(s, d)[i], d)
  {
    if s == [] {
      assert !Contains([], d);
    } else {
      PiecesFree(s, d, 0);
    }
  }

  // ── When splitting undoes joining ──

  // No match of d starts inside part ps[i] before the delimiter that follows it.
  ghost predicate Separable(ps: seq<Bytes>, d: Bytes) {
    && ps != []
    && !Contains(ps[|ps| - 1], d)
    && forall i, q :: 0 <= i < |ps| - 1 && 0 <= q < |ps[i]| ==> !MatchAt(ps[i] + d, q, d)
  }

  // Matches only depend on the bytes they cover.
  lemma MatchPrefix(s: Bytes, t: Bytes, q: int, d: Bytes)
    requires q + |d| <= |s|
    ensures MatchAt(s + t, q, d) <==> MatchAt(s, q, d)
  {
    if 0 <= q { assert (s + t)[q..q + |d|] == s[q..q + |d|]; }
  }

  lemma MatchShift(s: Bytes, n: nat, q: int, d: Bytes)
    requires n <= |s| && 0 <= q
    ensures MatchAt(s[n..], q, d) <==> MatchAt(s, n + q, d)
  {
    if q + |d| <= |s| - n { assert s[n..][q..q + |d|] == s[n + q..n + q + |d|]; }
  }

  lemma FindUnique(s: Bytes, d: Bytes, p: nat, q: int)
    requires p <= q && MatchAt(s, q, d) && forall i :: p <= i < q ==> !MatchAt(s, i, d)
    ensures Find(s, d, p) == q
  {
    var f := Find(s, d, p);
    assert f != -1;
  }

  lemma {:induction false} PiecesShift(s: Bytes, d: Bytes, start: nat)
    requires d != [] && start <= |s|
    ensures Pieces(s, d, start) == Pieces(s[start..], d, 0)
    decreases |s| - start
  {
    hide MatchAt, Find, Pieces;
    var q, u := Find(s, d, start), s[start..];
    forall i: nat
      ensures MatchAt(u, i, d) <==> MatchAt(s, start + i, d)
    {
      MatchShift(s, start, i, d);
    }
    if q == -1 {
      FindNone(u, d, 0);
      assert u[0..] == u;
      NoCut(s, d, start);
      NoCut(u, d, 0);
    } else {
      var e := q + |d|;
      MatchText(s, q, d);
      FindUnique(u, d, 0, q - start);
      MatchText(u, q - start, d);
      PiecesShift(s, d, e);
      PiecesShift(u, d, e - start);
      assert u[e - start..] == s[e..];
      SliceSlice(s, start, |s|, 0, q - start);
      assert s[start..|s|] == u;
      PiecesCut(s, d, start, q);
      PiecesCut(u, d, 0, q - start);
    }
  }

  lemma FindNone(s: Bytes, d: Bytes, p: nat)
    requires forall i :: p <= i ==> !MatchAt(s, i, d)
    ensures Find(s, d, p) == -1
  {
    var f := Find(s, d, p);
  }

  lemma {:induction false} SplitJoinIf(ps: seq<Bytes>, d: Bytes)
    requires d != [] && Separable(ps, d)
    ensures Pieces(Join(ps, d), d, 0) == ps
  {
    var s := Join(ps, d);
    if |ps| == 1 {
      assert Find(s, d, 0) == -1;
      assert s[0..] == s;
    } else {
      var rest := ps[1..];
      forall i, q | 0 <= i < |rest| - 1 && 0 <= q < |rest[i]|
        ensures !MatchAt(rest[i] + d, q, d)
      {
        assert rest[i] == ps[i + 1];
      }
      SplitJoinIf(rest, d);
      FirstCut(ps, d);
      assert [ps[0]] + rest == ps;
    }
  }

  // The first cut of a join whose first part is separable falls right after it.
  lemma FirstCut(ps: seq<Bytes>, d: Bytes)
    requires d != [] && |ps| > 1
    requires forall q :: 0 <= q < |ps[0]| ==> !MatchAt(ps[0] + d, q, d)
    ensures Pieces(Join(ps, d), d, 0) == [ps[0]] + Pieces(Join(ps[1..], d), d, 0)
  {
    hide Find, Pieces, Join;
    var s, head, tail := Join(ps, d), ps[0] + d, Join(ps[1..], d);
    var n := |ps[0]|;
    JoinCons(ps[0], ps[1..], d);
    assert [ps[0]] + ps[1..] == ps;
    assert s == head + tail;
    assert s[n..n + |d|] == d;
    forall i | 0 <= i < n
      ensures !MatchAt(s, i, d)
    {
      MatchPrefix(head, tail, i, d);
    }
    FindUnique(s, d, 0, n);
    PiecesCut(s, d, 0, n);
    PiecesShift(s, d, n + |d|);
    assert s[n + |d|..] == tail;
    assert s[0..n] == ps[0];
  }

  lemma {:induction false} SplitJoinOnlyIf(ps: seq<Bytes>, d: Bytes)
    requires d != [] && ps != [] && Pieces(Join(ps, d), d, 0) == ps
    ensures Separable(ps, d)
  {
    hide MatchAt, Find, Pieces, Join;
    var s := Join(ps, d);
    PiecesFree(s, d, 0);
    if |ps| > 1 {
      var head, rest := ps[0] + d, ps[1..];
      assert [ps[0]] + rest == ps;
      JoinCons(ps[0], rest, d);
      FirstPiece(s, d);
      forall q | 0 <= q < |ps[0]|
        ensures !MatchAt(head, q, d)
      {
        MatchPrefix(head, Join(rest, d), q, d);
      }
      PiecesShift(s, d, |head|);
      assert s[|head|..] == Join(rest, d);
      SplitJoinOnlyIf(rest, d);
      forall i, q | 0 <= i < |ps| - 1 && 0 <= q < |ps[i]|
        ensures !MatchAt(ps[i] + d, q, d)
      {
        if i > 0 { assert ps[i] == rest[i - 1]; }
      }
    }
  }

  // The first piece ends at the first match.
  lemma FirstPiece(s: Bytes, d: Bytes)
    requires d != [] && |Pieces(s, d, 0)| > 1
    ensures var p := Pieces(s, d, 0);
      && |p[0]| + |d| <= |s| && p[1..] == Pieces(s, d, |p[0]| + |d|)
      && forall q :: 0 <= q < |p[0]| ==> !MatchAt(s, q, d)
  {
  }

  lemma {:induction false} JoinEmpty(ps: seq<Bytes>, d: Bytes)
    requires d != [] && ps != [] && Join(ps, d) == []
    ensures ps == [[]]
  {
    assert |ps| > 1 ==> |Join(ps, d)| >= |d|;
  }

  // split(join(ps, d), d) = ps exactly when the parts are separable.
  lemma SplitJoinIff(ps: seq<Bytes>, d: Bytes)
    requires d != [] && ps != []
    ensures Split(Join(ps, d), d) == ps <==> Separable(ps, d)
  {
    var s := Join(ps, d);
    if s == [] {
      JoinEmpty(ps, d);
      assert !Contains([], d);
    } else {
      if Separable(ps, d) { SplitJoinIf(ps, d); }
      if Split(s, d) == ps { SplitJoinOnlyIf(ps, d); }
    }
  }

  // Splitting is the only way to cut s into separable parts; an empty delimiter does not
  // cut at all.
  lemma SplitIs(s: Bytes, d: Bytes, ps: seq<Bytes>)
    ensures d != [] && ps != [] ==> (Split(s, d) == ps <==> Join(ps, d) == s && Separable(ps, d))
    ensures d == [] ==> Split(s, d) == [s]
  {
    if d != [] && ps != [] {
      JoinSplit(s, d);
      SplitJoinIff(ps, d);
    }
  }

  // ── Where the parts of a join stand ──

  ghost function PartStart(ps: seq<Bytes>, d: Bytes, i: nat): nat
    requires i <= |ps|
  {
    if i == 0 then 0 else PartStart(ps, d, i - 1) + |ps[i - 1]| + |d|
  }

  lemma {:induction false} PartStartTail(ps: seq<Bytes>, d: Bytes, i: nat)
    requires 0 < i <= |ps|
    ensures PartStart(ps, d, i) == |ps[0]| + |d| + PartStart(ps[1..], d, i - 1)
  {
    if i > 1 { PartStartTail(ps, d, i - 1); }
  }

  lemma TailSlice(head: Bytes, tail: Bytes, q: nat, n: nat)
    requires q + n <= |tail|
    ensures (head + tail)[|head| + q..|head| + q + n] == tail[q..q + n]
  {
  }

  // Part i comes right after the parts and delimiters before it, and a delimiter comes
  // after every part but the last.
  lemma {:induction false} JoinIs(ps: seq<Bytes>, d: Bytes, i: nat)
    requires i < |ps|
    ensures var p, s := PartStart(ps, d, i), Join(ps, d);
      && p + |ps[i]| <= |s| && s[p..p + |ps[i]|] == ps[i]
      && (if i + 1 == |ps| then |s| == p + |ps[i]| else MatchAt(s, p + |ps[i]|, d))
  {
    hide MatchAt, PartStart;
    PartStartFirst(ps, d);
    if |ps| == 1 {
      JoinOne(ps[0], d);
      assert ps == [ps[0]] && ps[0][0..|ps[0]|] == ps[0];
    } else {
      var head, tail := ps[0] + d, Join(ps[1..], d);
      JoinCons(ps[0], ps[1..], d);
      assert [ps[0]] + ps[1..] == ps;
      if i == 0 {
        FirstPart(ps[0], d, tail);
      } else {
        JoinIs(ps[1..], d, i - 1);
        PartStartTail(ps, d, i);
        var q := PartStart(ps[1..], d, i - 1);
        TailSlice(head, tail, q, |ps[i]|);
        if i + 1 < |ps| { TailMatch(head, tail, q + |ps[i]|, d); }
      }
    }
  }

  lemma PartStartFirst(ps: seq<Bytes>, d: Bytes)
    ensures PartStart(ps, d, 0) == 0
  {
  }

  lemma FirstPart(p: Bytes, d: Bytes, tail: Bytes)
    ensures var s := p + d + tail; s[0..|p|] == p && MatchAt(s, |p|, d)
  {
    var s := p + d + tail;
    assert s[0..|p|] == p && s[|p|..|p| + |d|] == d;
  }

  lemma TailMatch(head: Bytes, tail: Bytes, q: nat, d: Bytes)
    requires MatchAt(tail, q, d)
    ensures MatchAt(head + tail, |head| + q, d)
  {
    TailSlice(head, tail, q, |d|);
  }

  // For a one-byte delimiter, parts free of it are always separable.
  lemma SplitJoinOneByte(ps: seq<Bytes>, d: Bytes)
    requires |d| == 1 && ps != [] && forall i :: 0 <= i < |ps| ==> !Contains(ps[i], d)
    ensures Split(Join(ps, d), d) == ps
  {
    forall i, q | 0 <= i < |ps| - 1 && 0 <= q < |ps[i]|
      ensures !MatchAt(ps[i] + d, q, d)
    {
      MatchPrefix(ps[i], d, q, d);
    }
    SplitJoinIff(ps, d);
  }

  // For a longer delimiter freedom is not enough: "a" and "b" joined on "aa".
  lemma SplitJoinOverlap(a: bv8, b: bv8)
    requires a != b
    ensures var ps, d := [[a], [b]], [a, a];
      !Contains(ps[0], d) && !Contains(ps[1], d) && Split(Join(ps, d), d) != ps
  {
    var ps, d := [[a], [b]], [a, a];
    assert !Contains([a], d) && !Contains([b], d);
    assert MatchAt(ps[0] + d, 0, d);
    SplitJoinIff(ps, d);
  }

  // ── plnt_str_split ──

  // Advancing past a position with no match changes no piece count.
  lemma CountSkip(s: Bytes, d: Bytes, start: nat, p: nat)
    requires d != [] && start <= p <= |s| && forall i :: start <= i < p ==> !MatchAt(s, i, d)
    ensures Find(s, d, start) == Find(s, d, p) && |Pieces(s, d, start)| == |Pieces(s, d, p)|
  {
    hide MatchAt, Find, Pieces;
    var q := Find(s, d, p);
    if q == -1 {
      FindNone(s, d, start);
    } else {
      FindUnique(s, d, start, q);
    }
    SameCuts(s, d, start, p);
  }

  lemma SameCuts(s: Bytes, d: Bytes, a: nat, b: nat)
    requires d != [] && a <= |s| && b <= |s| && Find(s, d, a) == Find(s, d, b)
    ensures |Pieces(s, d, a)| == |Pieces(s, d, b)|
  {
    hide MatchAt, Find;
  }

  lemma NoMoreMatches(s: Bytes, d: Bytes, start: nat, p: nat)
    requires d != [] && start <= p <= |s| && p + |d| > |s| && forall i :: start <= i < p ==> !MatchAt(s, i, d)
    ensures Pieces(s, d, start) == [s[start..]]
  {
    FindNone(s, d, start);
  }

  // Pass 1: count the parts.
  method CountParts(s: Bytes, d: Bytes) returns (count: nat)
    requires d != []
    ensures count == |Pieces(s, d, 0)|
  {
    hide MatchAt, Find;
    count := 1;
    var p := 0;
    ghost var start := 0;
    while p + |d| <= |s|
      invariant 0 <= start <= p <= |s|
      invariant forall i :: start <= i < p ==> !MatchAt(s, i, d)
      invariant count + |Pieces(s, d, start)| == 1 + |Pieces(s, d, 0)|
      decreases |s| - p
    {
      if MatchesHere(s, p, d) {
        FindUnique(s, d, start, p);
        PiecesCut(s, d, start, p);
        count := count + 1;
        p := p + |d|;
        start := p;
      } else {
        p := p + 1;
      }
    }
    NoMoreMatches(s, d, start, p);
  }

  // memcmp at p.
  predicate MatchesHere(s: Bytes, p: nat, d: Bytes): (b: bool)
    requires p + |d| <= |s|
    ensures b <==> MatchAt(s, p, d)
  {
    s[p..p + |d|] == d
  }

  // Pass 2 fills exactly the array that pass 1 sized.
  method StrSplit(src: Bytes, delim: Bytes) returns (parts: array<Bytes>)
    ensures fresh(parts) && parts[..] == Split(src, delim)
  {
    hide MatchAt, Find, Pieces;
    if |src| == 0 {
      parts := new Bytes[1](_ => []);
      assert parts[..] == [[]];
      return;
    }
    if |delim| == 0 {
      parts := new Bytes[1](_ => src);
      assert parts[..] == [src];
      return;
    }
    var count := CountParts(src, delim);
    parts := new Bytes[count](_ => []);
    var idx, start, p := 0, 0, 0;
    while p + |delim| <= |src|
      invariant 0 <= start <= p <= |src| && fresh(parts) && parts.Length == count
      invariant forall i :: start <= i < p ==> !MatchAt(src, i, delim)
      invariant idx + |Pieces(src, delim, start)| == count
      invariant parts[..idx] + Pieces(src, delim, start) == Pieces(src, delim, 0)
      decreases |src| - p
    {
      if MatchesHere(src, p, delim) {
        FindUnique(src, delim, start, p);
        PiecesCut(src, delim, start, p);
        ghost var done := parts[..idx];
        parts[idx] := src[start..p];
        assert parts[..idx + 1] == done + [src[start..p]];
        idx := idx + 1;
        p := p + |delim|;
        start := p;
      } else {
        p := p + 1;
      }
    }
    NoMoreMatches(src, delim, start, p);
    ghost var done := parts[..idx];
    parts[idx] := src[start..];
    assert parts[..] == done + [src[start..]];
  }

  // ── plnt_str_join ──

  ghost function TotalBytes(ps: seq<Bytes>): nat {
    if ps == [] then 0 else TotalBytes(ps[..|ps| - 1]) + |ps[|ps| - 1]|
  }

  lemma {:induction false} JoinSnoc(ps: seq<Bytes>, q: Bytes, d: Bytes)
    ensures Join(ps + [q], d) == if ps == [] then q else Join(ps, d) + d + q
  {
    if |ps| > 1 {
      JoinSnoc(ps[1..], q, d);
      assert (ps + [q])[1..] == ps[1..] + [q];
      assert Join(ps + [q], d) == ps[0] + d + (Join(ps[1..], d) + d + q);
    } else if |ps| == 1 {
      assert (ps + [q])[1..] == [q];
    } else {
      assert ps + [q] == [q];
    }
  }

  lemma {:induction false} JoinLength(ps: seq<Bytes>, d: Bytes)
    ensures |Join(ps, d)| == TotalBytes(ps) + (if |ps| > 1 then |d| * (|ps| - 1) else 0)
  {
    if ps != [] {
      var last := |ps| - 1;
      JoinLength(ps[..last], d);
      JoinSnoc(ps[..last], ps[last], d);
      assert ps[..last] + [ps[last]] == ps;
      if last > 1 { assert |d| * (last - 1) + |d| == |d| * last; }
    }
  }

  // The bytes of src go into the buffer from the given place on.
  method CopyInto(buf: array<bv8>, at: nat, src: Bytes)
    requires at + |src| <= buf.Length
    modifies buf
    ensures buf[..at] == old(buf[..at]) && buf[at..at + |src|] == src
    ensures buf[at + |src|..] == old(buf[at + |src|..])
  {
    var i := 0;
    while i < |src|
      invariant 0 <= i <= |src|
      invariant buf[..at] == old(buf[..at]) && buf[at..at + i] == src[..i]
      invariant buf[at + i..] == old(buf[at + i..])
    {
      ghost var was := buf[..];
      buf[at + i] := src[i];
      assert buf[at..at + i + 1] == was[at..at + i] + [src[i]];
      assert buf[at + i + 1..] == was[at + i + 1..];
      assert old(buf[at + i..])[1..] == old(buf[at + i + 1..]);
      i := i + 1;
    }
  }

  // Appending to a buffer whose first at bytes are done.
  method Append(buf: array<bv8>, at: nat, src: Bytes, ghost done: Bytes) returns (out: nat)
    requires at + |src| <= buf.Length && buf[..at] == done
    modifies buf
    ensures out == at + |src| && buf[..out] == done + src
  {
    CopyInto(buf, at, src);
    out := at + |src|;
    assert buf[..out] == buf[..at] + buf[at..out];
  }

  // Pass 1: the combined length.
  method CombinedLength(parts: array<Bytes>, delim: Bytes) returns (totalLen: nat)
    ensures totalLen == |Join(parts[..], delim)|
  {
    hide Join;
    ghost var ps := parts[..];
    JoinLength(ps, delim);
    totalLen := 0;
    var i := 0;
    while i < parts.Length
      invariant 0 <= i <= parts.Length && totalLen == TotalBytes(ps[..i])
    {
      assert ps[..i + 1][..i] == ps[..i];
      totalLen := totalLen + |parts[i]|;
      i := i + 1;
    }
    assert ps[..parts.Length] == ps;
    if parts.Length > 1 {
      totalLen := totalLen + |delim| * (parts.Length - 1);
    }
  }

  // Pass 2 fills exactly the buffer that pass 1 sized.
  method StrJoin(parts: array<Bytes>, delim: Bytes) returns (buf: array<bv8>)
    ensures fresh(buf) && buf[..] == Join(parts[..], delim)
  {
    hide Join;
    if parts.Length == 0 {
      buf := new bv8[0];
      JoinNone(delim);
      assert parts[..] == [] && buf[..] == [];
      return;
    }
    var totalLen := CombinedLength(parts, delim);
    ghost var ps := parts[..];
    buf := new bv8[totalLen];
    var out: nat := 0;
    var i := 0;
    JoinNone(delim);
    while i < parts.Length
      invariant 0 <= i <= parts.Length && out <= buf.Length && fresh(buf)
      invariant buf[..out] == Join(ps[..i], delim)
    {
      JoinPrefix(ps, delim, i);
      ghost var done := Join(ps[..i], delim);
      if i > 0 && |delim| > 0 {
        out := Append(buf, out, delim, done);
        done := done + delim;
      }
      out := Append(buf, out, parts[i], done);
      i := i + 1;
    }
    assert ps[..parts.Length] == ps;
    assert buf[..out] == buf[..];
  }

  lemma JoinNone(d: Bytes)
    ensures Join([], d) == []
  {
  }

  lemma {:induction false} JoinGrows(ps: seq<Bytes>, d: Bytes, i: nat)
    requires i <= |ps|
    ensures |Join(ps[..i], d)| <= |Join(ps, d)|
    decreases |ps| - i
  {
    if i < |ps| {
      JoinGrows(ps, d, i + 1);
      assert ps[..i + 1] == ps[..i] + [ps[i]];
      JoinSnoc(ps[..i], ps[i], d);
      if i == 0 { JoinNone(d); }
    } else {
      assert ps[..i] == ps;
    }
  }

  // What one turn of pass 2 writes, and that it fits.
  lemma JoinPrefix(ps: seq<Bytes>, d: Bytes, i: nat)
    requires i < |ps|
    ensures Join(ps[..i + 1], d) == (if i == 0 then [] else Join(ps[..i], d) + d) + ps[i]
    ensures |Join(ps[..i + 1], d)| <= |Join(ps, d)|
  {
    assert ps[..i + 1] == ps[..i] + [ps[i]];
    JoinSnoc(ps[..i], ps[i], d);
    JoinGrows(ps, d, i + 1);
  }

  // ── strings_REPLACE and strings_SPLIT ──

  // size_t arithmetic wraps here.
  const WORD := 0x1_0000_0000_0000_0000

  // strstr.
  method StrStr(s: Bytes, p: nat, d: Bytes) returns (q: int)
    requires p <= |s|
    ensures q == Find(s, d, p)
  {
    hide MatchAt;
    var i := p;
    while i + |d| <= |s|
      invariant p <= i <= |s| + 1 && forall j :: p <= j < i ==> !MatchAt(s, j, d)
      decreases |s| - i
    {
      if MatchesHere(s, i, d) {
        FindUnique(s, d, p, i);
        return i;
      }
      i := i + 1;
    }
    NoLateMatch(s, d, p, i);
    q := -1;
  }

  lemma NoLateMatch(s: Bytes, d: Bytes, p: nat, i: nat)
    requires i + |d| > |s| && forall j :: p <= j < i ==> !MatchAt(s, j, d)
    ensures Find(s, d, p) == -1
  {
    FindNone(s, d, p);
  }

  // Lengths: replacing changes each cut by |b| - |a|.
  lemma ReplacedLength(s: Bytes, a: Bytes, b: Bytes)
    requires a != []
    ensures var ps := Pieces(s, a, 0);
      |Join(ps, b)| == |s| + (|ps| - 1) * (|b| - |a|)
  {
    var ps := Pieces(s, a, 0);
    var n := |ps| - 1;
    JoinPieces(s, a, 0);
    assert s[0..] == s;
    JoinLength(ps, a);
    JoinLength(ps, b);
    assert n * (|b| - |a|) == |b| * n - |a| * n;
    if |ps| == 1 { assert n * (|b| - |a|) == 0; }
  }

  // The wrapped sum is the true length whenever that fits in a word.
  lemma WrappedLength(sl: nat, count: nat, al: nat, bl: nat)
    requires 0 <= sl + count * (bl - al) < WORD
    ensures (sl + count * ((bl - al) % WORD) % WORD) % WORD == sl + count * (bl - al)
  {
    var diff := bl - al;
    var k := diff / WORD;
    var u := diff % WORD;
    assert diff == k * WORD + u;
    var x := count * u;
    var j := x / WORD;
    assert x == j * WORD + x % WORD;
    assert count * diff == (count * k) * WORD + x by {
      assert count * (k * WORD + u) == count * (k * WORD) + count * u;
      assert count * (k * WORD) == (count * k) * WORD;
    }
    var total := sl + count * diff;
    var m := count * k + j;
    assert sl + x % WORD == total - m * WORD;
    ModShift(total, m);
  }

  lemma ModShift(total: int, m: int)
    requires 0 <= total < WORD
    ensures (total - m * WORD) % WORD == total
  {
    var r, q := (total - m * WORD) % WORD, (total - m * WORD) / WORD;
    assert total - m * WORD == q * WORD + r;
    assert total - r == (q + m) * WORD;
    assert -WORD < total - r < WORD;
  }

  // Matches counted as the first pass counts them.
  method CountMatches(s: Bytes, a: Bytes) returns (count: nat)
    requires a != []
    ensures count + 1 == |Pieces(s, a, 0)|
  {
    hide MatchAt, Find;
    count := 0;
    var p := 0;
    var q := StrStr(s, p, a);
    while q != -1
      invariant 0 <= p <= |s| && q == Find(s, a, p)
      invariant count + |Pieces(s, a, p)| == |Pieces(s, a, 0)|
      decreases |s| - p
    {
      MatchText(s, q, a);
      PiecesCut(s, a, p, q);
      count := count + 1;
      p := q + |a|;
      q := StrStr(s, p, a);
    }
  }

  // REPLACE is split on the pattern, then join with the replacement; the fill pass
  // writes exactly the precomputed length.
  method Replace(s: Bytes, a: Bytes, b: Bytes) returns (buf: Bytes)
    requires a == [] || |Join(Split(s, a), b)| < WORD
    ensures buf == if a == [] then s else Join(Split(s, a), b)
  {
    if |a| == 0 { return s; }
    ReplaceIsSplitJoin(s, a, b);
    hide MatchAt, Find, Join, Pieces;
    var count := CountMatches(s, a);
    ReplacedLength(s, a, b);
    if count == 0 {
      OnePiece(s, a, b);
      return s;
    }
    WrappedLength(|s|, count, |a|, |b|);
    var newLen := (|s| + count * ((|b| - |a|) % WORD) % WORD) % WORD;
    var dst := new bv8[newLen];
    FillReplaced(s, a, b, dst);
    buf := dst[..];
  }

  lemma OnePiece(s: Bytes, a: Bytes, b: Bytes)
    requires a != [] && |Pieces(s, a, 0)| == 1
    ensures Join(Pieces(s, a, 0), b) == s
  {
    assert s[0..] == s;
  }

  method FillReplaced(s: Bytes, a: Bytes, b: Bytes, dst: array<bv8>)
    requires a != [] && dst.Length == |Join(Pieces(s, a, 0), b)|
    modifies dst
    ensures dst[..] == Join(Pieces(s, a, 0), b)
  {
    hide MatchAt, Find, Join, Pieces;
    ghost var goal := Join(Pieces(s, a, 0), b);
    var src, out: nat := 0, 0;
    var end := StrStr(s, src, a);
    while end != -1
      invariant 0 <= src <= |s| && out <= dst.Length && end == Find(s, a, src)
      invariant dst[..out] + Join(Pieces(s, a, src), b) == goal
      decreases |s| - src
    {
      MatchText(s, end, a);
      PiecesCut(s, a, src, end);
      JoinCons(s[src..end], Pieces(s, a, end + |a|), b);
      ghost var done := dst[..out];
      out := Append(dst, out, s[src..end], done);
      out := Append(dst, out, b, done + s[src..end]);
      src := end + |a|;
      end := StrStr(s, src, a);
    }
    LastPiece(s, a, b, src);
    ghost var done := dst[..out];
    out := Append(dst, out, s[src..], done);
    assert dst[..out] == dst[..];
  }

  lemma LastPiece(s: Bytes, a: Bytes, b: Bytes, src: nat)
    requires a != [] && src <= |s| && Find(s, a, src) == -1
    ensures Join(Pieces(s, a, src), b) == s[src..]
  {
  }

  // strings_SPLIT; strstr with an empty pattern never advances.
  method StringsSplit(s: Bytes, d: Bytes) returns (r: seq<Bytes>)
    requires d != []
    ensures r == Split(s, d)
  {
    hide MatchAt, Find, Pieces;
    r := [];
    var st := 0;
    var en := StrStr(s, st, d);
    while en != -1
      invariant 0 <= st <= |s| && en == Find(s, d, st)
      invariant r + Pieces(s, d, st) == Pieces(s, d, 0)
      decreases |s| - st
    {
      MatchText(s, en, d);
      PiecesCut(s, d, st, en);
      r := r + [s[st..en]];
      st := en + |d|;
      en := StrStr(s, st, d);
    }
    NoCut(s, d, st);
    r := r + [s[st..]];
    if s == [] { NoCut(s, d, 0); }
  }

  lemma NoCut(s: Bytes, d: Bytes, st: nat)
    requires d != [] && st <= |s|
    ensures Find(s, d, st) == -1 ==> Pieces(s, d, st) == [s[st..]]
    ensures s == [] ==> Find(s, d, st) == -1
  {
  }

  lemma ReplaceIsSplitJoin(s: Bytes, a: Bytes, b: Bytes)
    requires a != []
    ensures Join(Pieces(s, a, 0), b) == Join(Split(s, a), b)
  {
    if s == [] { NoCut(s, a, 0); }
  }
}
