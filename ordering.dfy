// sorted(datos, key=parse_fecha_hora, reverse=True) (excel_utils.py:181):
// the records by date and time, latest first. Python's sort is stable and
// stays stable under reverse=True, so records with the same date and time
// keep the order they came in. The sort is modelled as an insertion sort of
// records tagged with their key and input position, and proved to yield the
// one arrangement that order admits.

module Ordering {
  import opened FechaHora
  import opened Hearings

  /** A record with its sort key and its position in the input list. */
  datatype Keyed = Keyed(rec: Record, key: DateTime, pos: nat)

  /** a comes before b: a later date and time, or the same one and an
      earlier input position. */
  predicate Precedes(a: Keyed, b: Keyed) {
    Earlier(b.key, a.key) || (a.key == b.key && a.pos < b.pos)
  }

  predicate SortedDesc(s: seq<Keyed>) {
    forall p, q :: 0 <= p < q < |s| ==> Precedes(s[p], s[q])
  }

  predicate DistinctPositions(s: seq<Keyed>) {
    forall p, q :: 0 <= p < q < |s| ==> s[p].pos != s[q].pos
  }

  lemma PrecedesTotal(a: Keyed, b: Keyed, c: Keyed)
    ensures a.pos != b.pos ==> Precedes(a, b) || Precedes(b, a)
    ensures Precedes(a, b) ==> !Precedes(b, a)
    ensures Precedes(a, b) && Precedes(b, c) ==> Precedes(a, c)
  {
    EarlierIsStrictOrder(a.key, b.key, c.key);
    EarlierIsStrictOrder(b.key, a.key, c.key);
    EarlierIsStrictOrder(c.key, a.key, b.key);
  }

  function Insert(x: Keyed, s: seq<Keyed>): (r: seq<Keyed>)
    ensures |r| == |s| + 1
  {
    if s == [] then [x]
    else if Precedes(x, s[0]) then [x] + s
    else [s[0]] + Insert(x, s[1..])
  }

  function SortDesc(s: seq<Keyed>): (r: seq<Keyed>)
    ensures |r| == |s|
  {
    if s == [] then [] else Insert(s[|s| - 1], SortDesc(s[..|s| - 1]))
  }

  lemma {:induction false} InsertMultiset(x: Keyed, s: seq<Keyed>)
    ensures multiset(Insert(x, s)) == multiset(s) + multiset{x}
  {
    if s != [] && !Precedes(x, s[0]) {
      InsertMultiset(x, s[1..]);
      assert s == [s[0]] + s[1..];
    }
  }

  lemma {:induction false} InsertSorted(x: Keyed, s: seq<Keyed>)
    requires SortedDesc(s)
    requires forall i :: 0 <= i < |s| ==> s[i].pos != x.pos
    ensures SortedDesc(Insert(x, s))
  {
    if s != [] {
      if Precedes(x, s[0]) {
        forall q | 0 < q < |s| ensures Precedes(x, s[q]) {
          PrecedesTotal(x, s[0], s[q]);
        }
      } else {
        PrecedesTotal(x, s[0], s[0]);
        InsertSorted(x, s[1..]);
        var t := Insert(x, s[1..]);
        InsertMultiset(x, s[1..]);
        forall q | 0 <= q < |t| ensures Precedes(s[0], t[q]) {
          assert t[q] in multiset(s[1..]) + multiset{x};
          if t[q] != x {
            assert t[q] in s[1..];
            var j :| 0 <= j < |s[1..]| && s[1..][j] == t[q];
            assert s[1 + j] == t[q];
          }
        }
      }
    }
  }

  /** A rearrangement of s holds no position that s lacks. */
  lemma PositionsKept(t: seq<Keyed>, s: seq<Keyed>, x: Keyed)
    requires multiset(t) == multiset(s)
    requires forall j :: 0 <= j < |s| ==> s[j].pos != x.pos
    ensures forall i :: 0 <= i < |t| ==> t[i].pos != x.pos
  {
    forall i | 0 <= i < |t| ensures t[i].pos != x.pos {
      assert t[i] in multiset(s);
      var j :| 0 <= j < |s| && s[j] == t[i];
    }
  }

  /** Dropping the last record keeps the positions distinct, and none of
      the rest has the last one's position. */
  lemma DistinctInit(s: seq<Keyed>, init: seq<Keyed>, x: Keyed)
    requires |s| > 0 && DistinctPositions(s)
    requires init == s[..|s| - 1] && x == s[|s| - 1]
    ensures DistinctPositions(init)
    ensures forall j :: 0 <= j < |init| ==> init[j].pos != x.pos
  {
  }

  /** The sort yields the input rearranged, latest first, ties in input
      order. */
  lemma {:induction false} SortDescCorrect(s: seq<Keyed>)
    requires DistinctPositions(s)
    ensures SortedDesc(SortDesc(s))
    ensures multiset(SortDesc(s)) == multiset(s)
  {
    if s != [] {
      var n := |s|;
      var init, x := s[..n - 1], s[n - 1];
      DistinctInit(s, init, x);
      SortDescCorrect(init);
      var t := SortDesc(init);
      PositionsKept(t, init, x);
      InsertSorted(x, t);
      InsertMultiset(x, t);
      assert s == init + [x];
    }
  }

  /** The records tagged with their keys and positions. */
  function Tagged(recs: seq<Record>, keys: seq<DateTime>): (s: seq<Keyed>)
    requires |keys| == |recs|
    ensures |s| == |recs|
    ensures forall i :: 0 <= i < |s| ==> s[i] == Keyed(recs[i], keys[i], i)
  {
    seq(|recs|, i requires 0 <= i < |recs| => Keyed(recs[i], keys[i], i))
  }

  function Records(s: seq<Keyed>): (r: seq<Record>)
    ensures |r| == |s|
    ensures forall i :: 0 <= i < |s| ==> r[i] == s[i].rec
  {
    seq(|s|, i requires 0 <= i < |s| => s[i].rec)
  }

  /** The order sorted() puts the records in: positions[k] is the input
      position of the k-th record of the result. */
  function SortOrder(recs: seq<Record>, keys: seq<DateTime>): seq<nat>
    requires |keys| == |recs|
  {
    var s := SortDesc(Tagged(recs, keys));
    seq(|s|, k requires 0 <= k < |s| => s[k].pos)
  }

  /** sorted(datos, key=parse_fecha_hora, reverse=True), given each record's
      key. */
  function SortedByDate(recs: seq<Record>, keys: seq<DateTime>): (r: seq<Record>)
    requires |keys| == |recs|
    ensures |r| == |recs|
  {
    Records(SortDesc(Tagged(recs, keys)))
  }

  /** The sorted list is a rearrangement of the input: each input position
      appears exactly once, latest date and time first, and records with the
      same date and time in the order they came. These facts fix the
      arrangement. */
  lemma SortedByDateSpec(recs: seq<Record>, keys: seq<DateTime>)
    requires |keys| == |recs|
    ensures var out, order := SortedByDate(recs, keys), SortOrder(recs, keys);
      && |out| == |recs| && |order| == |recs|
      && (forall k :: 0 <= k < |order| ==> order[k] < |recs| && out[k] == recs[order[k]])
      && (forall i :: 0 <= i < |recs| ==> i in order)
      && (forall k, l :: 0 <= k < l < |order| ==>
            Earlier(keys[order[l]], keys[order[k]])
            || (keys[order[l]] == keys[order[k]] && order[k] < order[l]))
  {
    var t := Tagged(recs, keys);
    var s := SortDesc(t);
    SortDescCorrect(t);
    var order := SortOrder(recs, keys);
    forall k | 0 <= k < |s| ensures s[k] in t {
      assert s[k] in multiset(t);
    }
    forall i | 0 <= i < |recs| ensures i in order {
      assert t[i] in multiset(s);
      var k :| 0 <= k < |s| && s[k] == t[i];
      assert order[k] == i;
    }
  }

  /** How many records satisfy P. */
  function CountIf(P: Record -> bool, s: seq<Record>): nat {
    if s == [] then 0 else CountIf(P, s[..|s| - 1]) + (if P(s[|s| - 1]) then 1 else 0)
  }

  lemma {:induction false} CountIfCons(P: Record -> bool, x: Record, s: seq<Record>)
    ensures CountIf(P, [x] + s) == (if P(x) then 1 else 0) + CountIf(P, s)
    decreases |s|
  {
    if s != [] {
      var n := |s|;
      assert ([x] + s)[..n] == [x] + s[..n - 1];
      CountIfCons(P, x, s[..n - 1]);
    }
  }

  lemma {:induction false} CountInsert(P: Record -> bool, x: Keyed, s: seq<Keyed>)
    ensures CountIf(P, Records(Insert(x, s))) == CountIf(P, Records(s)) + (if P(x.rec) then 1 else 0)
  {
    if s == [] {
      assert Records([x])[..0] == [];
    } else if Precedes(x, s[0]) {
      assert Records([x] + s) == [x.rec] + Records(s);
      CountIfCons(P, x.rec, Records(s));
    } else {
      CountInsert(P, x, s[1..]);
      assert Records([s[0]] + Insert(x, s[1..])) == [s[0].rec] + Records(Insert(x, s[1..]));
      CountIfCons(P, s[0].rec, Records(Insert(x, s[1..])));
      assert Records(s) == [s[0].rec] + Records(s[1..]);
      CountIfCons(P, s[0].rec, Records(s[1..]));
    }
  }

  /** Sorting keeps every count of records: a count taken over the sorted
      list equals the count over the input. */
  lemma {:induction false} CountSortDesc(P: Record -> bool, s: seq<Keyed>)
    ensures CountIf(P, Records(SortDesc(s))) == CountIf(P, Records(s))
  {
    if s != [] {
      var n := |s|;
      CountSortDesc(P, s[..n - 1]);
      CountInsert(P, s[n - 1], SortDesc(s[..n - 1]));
      assert Records(s)[..n - 1] == Records(s[..n - 1]);
    }
  }

  lemma CountSortedByDate(P: Record -> bool, recs: seq<Record>, keys: seq<DateTime>)
    requires |keys| == |recs|
    ensures CountIf(P, SortedByDate(recs, keys)) == CountIf(P, recs)
  {
    CountSortDesc(P, Tagged(recs, keys));
    assert Records(Tagged(recs, keys)) == recs;
  }
}
