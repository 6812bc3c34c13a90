/** The row selection shared by both report printers: keep the languages whose
    vacancy count reaches the inclusion threshold, and order them by average
    salary from highest to lowest with Python's stable `sorted`. */
module Ranking {

  /** One report line: (language, vacancies found, vacancies processed,
      average salary). */
  datatype Row = Row(language: string, found: nat, processed: nat, average: nat)

  /** A rendered table: the header comes first, then one line per row. */
  datatype TableLine = Header | Line(row: Row)

  function Lines(rows: seq<Row>): (t: seq<TableLine>)
    ensures |t| == |rows|
    ensures forall i :: 0 <= i < |rows| ==> t[i] == Line(rows[i])
  {
    seq(|rows|, i requires 0 <= i < |rows| => Line(rows[i]))
  }

  /** The table the printers hand to the renderer. */
  function Table(rows: seq<Row>): (t: seq<TableLine>)
    ensures |t| == |rows| + 1 && t[0] == Header
    ensures forall i :: 0 <= i < |rows| ==> t[i + 1] == Line(rows[i])
  {
    [Header] + Lines(rows)
  }

  /** Appending a row appends its line. */
  lemma TableAppend(rows: seq<Row>, x: Row)
    ensures Table(rows + [x]) == Table(rows) + [Line(x)]
  {
    assert Lines(rows + [x]) == Lines(rows) + [Line(x)];
  }

  predicate SortedDesc(s: seq<Row>) {
    forall i, j :: 0 <= i < j < |s| ==> s[i].average >= s[j].average
  }

  /** The rows of `s` whose average is `a`, in their order in `s`. */
  function WithAverage(s: seq<Row>, a: nat): seq<Row> {
    if s == [] then []
    else (if s[0].average == a then [s[0]] else []) + WithAverage(s[1..], a)
  }

  /** The rows of `s` with at least `limit` vacancies found, in their order. */
  function AtLeast(s: seq<Row>, limit: int): (r: seq<Row>)
    ensures |r| <= |s|
    ensures forall i :: 0 <= i < |r| ==> r[i].found >= limit
  {
    if s == [] then []
    else (if s[0].found >= limit then [s[0]] else []) + AtLeast(s[1..], limit)
  }

  /** Places `x` in front of the first row whose average is not higher than its own. */
  function Insert(x: Row, s: seq<Row>): (r: seq<Row>)
    ensures |r| == |s| + 1
  {
    if s == [] || s[0].average <= x.average then [x] + s
    else [s[0]] + Insert(x, s[1..])
  }

  /** Python's `sorted(rows, key=lambda r: -r.average)`, which orders exactly
      like `sorted(rows, key=lambda r: r.average, reverse=True)`: a stable
      insertion sort, highest average first. */
  function SortByAverage(s: seq<Row>): (r: seq<Row>)
    ensures |r| == |s|
  {
    if s == [] then [] else Insert(s[0], SortByAverage(s[1..]))
  }

  lemma {:induction false} InsertCount(x: Row, s: seq<Row>)
    ensures multiset(Insert(x, s)) == multiset{x} + multiset(s)
  {
    if s != [] && s[0].average > x.average {
      InsertCount(x, s[1..]);
      assert s == [s[0]] + s[1..];
    }
  }

  lemma {:induction false} InsertMembers(x: Row, s: seq<Row>)
    ensures forall y :: y in Insert(x, s) ==> y == x || y in s
  {
    if s != [] && s[0].average > x.average {
      InsertMembers(x, s[1..]);
      assert Insert(x, s) == [s[0]] + Insert(x, s[1..]);
      assert forall y :: y in s[1..] ==> y in s;
    }
  }

  lemma {:induction false} InsertSorted(x: Row, s: seq<Row>)
    requires SortedDesc(s)
    ensures SortedDesc(Insert(x, s))
    ensures Insert(x, s) != [] && (Insert(x, s)[0] == x || Insert(x, s)[0] == s[0])
  {
    if s != [] && s[0].average > x.average {
      var t := s[1..];
      assert SortedDesc(t);
      InsertSorted(x, t);
      InsertMembers(x, t);
      var r := Insert(x, t);
      forall y | y in r ensures s[0].average >= y.average {
        if y != x {
          var k :| 0 <= k < |t| && t[k] == y;
          assert s[k + 1] == y;
        }
      }
      var u := [s[0]] + r;
      assert Insert(x, s) == u;
      forall i, j | 0 <= i < j < |u| ensures u[i].average >= u[j].average {
        assert u[j] == r[j - 1];
        if i == 0 {
          assert r[j - 1] in r;
        } else {
          assert u[i] == r[i - 1];
        }
      }
    }
  }

  lemma {:induction false} InsertWithAverage(x: Row, s: seq<Row>, a: nat)
    ensures WithAverage(Insert(x, s), a)
         == (if x.average == a then [x] else []) + WithAverage(s, a)
  {
    if s == [] || s[0].average <= x.average {
      assert Insert(x, s) == [x] + s;
      assert ([x] + s)[1..] == s;
    } else {
      var t := s[1..];
      var r := Insert(x, t);
      InsertWithAverage(x, t, a);
      assert Insert(x, s) == [s[0]] + r;
      assert ([s[0]] + r)[1..] == r;
      var head := if s[0].average == a then [s[0]] else [];
      assert WithAverage(s, a) == head + WithAverage(t, a);
      assert WithAverage([s[0]] + r, a) == head + WithAverage(r, a);
    }
  }

  /** The sorted rows are in descending order of average and are a
      permutation of the input. */
  lemma {:induction false} SortByAverageOrders(s: seq<Row>)
    ensures SortedDesc(SortByAverage(s))
    ensures multiset(SortByAverage(s)) == multiset(s)
  {
    if s != [] {
      SortByAverageOrders(s[1..]);
      InsertSorted(s[0], SortByAverage(s[1..]));
      InsertCount(s[0], SortByAverage(s[1..]));
      assert s == [s[0]] + s[1..];
    }
  }

  /** Stability: rows with equal averages keep their input order. */
  lemma {:induction false} SortByAverageIsStable(s: seq<Row>, a: nat)
    ensures WithAverage(SortByAverage(s), a) == WithAverage(s, a)
  {
    if s != [] {
      SortByAverageIsStable(s[1..], a);
      InsertWithAverage(s[0], SortByAverage(s[1..]), a);
    }
  }

  lemma AtLeastCons(x: Row, s: seq<Row>, limit: int)
    ensures AtLeast([x] + s, limit) == (if x.found >= limit then [x] else []) + AtLeast(s, limit)
  {
    assert ([x] + s)[1..] == s;
  }

  lemma {:induction false} AtLeastAppend(s: seq<Row>, t: seq<Row>, limit: int)
    ensures AtLeast(s + t, limit) == AtLeast(s, limit) + AtLeast(t, limit)
  {
    if s == [] {
      assert s + t == t;
    } else {
      var x, rest := s[0], s[1..];
      assert s == [x] + rest;
      assert s + t == [x] + (rest + t);
      AtLeastAppend(rest, t, limit);
      AtLeastCons(x, rest + t, limit);
      AtLeastCons(x, rest, limit);
    }
  }

  /** The threshold filter keeps exactly the rows with `found >= limit`, each
      as often as it occurs in the input. */
  lemma {:induction false} AtLeastKeeps(s: seq<Row>, limit: int, x: Row)
    ensures multiset(AtLeast(s, limit))[x] == if x.found >= limit then multiset(s)[x] else 0
    ensures x in AtLeast(s, limit) <==> x in s && x.found >= limit
  {
    if s != [] {
      AtLeastKeeps(s[1..], limit, x);
      assert s == [s[0]] + s[1..];
    }
  }

  lemma {:induction false} AtLeastBelow(s: seq<Row>, limit: int, bound: nat)
    requires forall i :: 0 <= i < |s| ==> s[i].average <= bound
    ensures forall i :: 0 <= i < |AtLeast(s, limit)| ==> AtLeast(s, limit)[i].average <= bound
  {
    if s != [] {
      AtLeastBelow(s[1..], limit, bound);
    }
  }

  lemma {:induction false} AtLeastInsert(x: Row, s: seq<Row>, limit: int)
    requires SortedDesc(s)
    ensures AtLeast(Insert(x, s), limit)
         == if x.found >= limit then Insert(x, AtLeast(s, limit)) else AtLeast(s, limit)
  {
    if s == [] {
    } else if s[0].average <= x.average {
      assert ([x] + s)[1..] == s;
      AtLeastBelow(s, limit, x.average);
    } else {
      var t := s[1..];
      assert SortedDesc(t);
      AtLeastInsert(x, t, limit);
      assert ([s[0]] + Insert(x, t))[1..] == Insert(x, t);
      var f := AtLeast(t, limit);
      var lhs := AtLeast(Insert(x, s), limit);
      assert lhs == (if s[0].found >= limit then [s[0]] else []) + AtLeast(Insert(x, t), limit);
      if s[0].found >= limit {
        assert AtLeast(s, limit) == [s[0]] + f;
        assert ([s[0]] + f)[1..] == f;
        assert lhs == [s[0]] + AtLeast(Insert(x, t), limit);
        if x.found >= limit {
          assert Insert(x, [s[0]] + f) == [s[0]] + Insert(x, f);
          assert lhs == Insert(x, AtLeast(s, limit));
        } else {
          assert lhs == AtLeast(s, limit);
        }
      } else {
        assert AtLeast(s, limit) == f;
        assert lhs == AtLeast(Insert(x, t), limit);
      }
    }
  }

  /** Filtering then sorting (as `print_salary` does) gives the same rows in
      the same order as sorting then filtering (as `print_language_statistics`
      does). */
  lemma {:induction false} FilterCommutesWithSort(s: seq<Row>, limit: int)
    ensures AtLeast(SortByAverage(s), limit) == SortByAverage(AtLeast(s, limit))
  {
    if s != [] {
      var t := s[1..];
      FilterCommutesWithSort(t, limit);
      SortByAverageOrders(t);
      AtLeastInsert(s[0], SortByAverage(t), limit);
      if s[0].found >= limit {
        var f := [s[0]] + AtLeast(t, limit);
        assert AtLeast(s, limit) == f;
        assert f[0] == s[0] && f[1..] == AtLeast(t, limit);
        assert SortByAverage(f) == Insert(s[0], SortByAverage(AtLeast(t, limit)));
        assert AtLeast(SortByAverage(s), limit) == Insert(s[0], AtLeast(SortByAverage(t), limit));
      } else {
        assert AtLeast(s, limit) == AtLeast(t, limit);
      }
    }
  }

  /** What a report shows: the rows with at least `limit` vacancies found,
      each as often as in the input, highest average first, rows with equal
      averages in their input order. */
  lemma SelectedRows(s: seq<Row>, limit: int)
    ensures SortedDesc(SortByAverage(AtLeast(s, limit)))
    ensures forall x :: multiset(SortByAverage(AtLeast(s, limit)))[x]
                     == if x.found >= limit then multiset(s)[x] else 0
    ensures forall a :: WithAverage(SortByAverage(AtLeast(s, limit)), a) == WithAverage(AtLeast(s, limit), a)
  {
    SortByAverageOrders(AtLeast(s, limit));
    forall x ensures multiset(AtLeast(s, limit))[x] == if x.found >= limit then multiset(s)[x] else 0 {
      AtLeastKeeps(s, limit, x);
    }
    forall a ensures WithAverage(SortByAverage(AtLeast(s, limit)), a) == WithAverage(AtLeast(s, limit), a) {
      SortByAverageIsStable(AtLeast(s, limit), a);
    }
  }
}
