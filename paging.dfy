/** The page-until-short loop both aggregators run, over an abstract finite
    source: the records a search would return, served in slices of 100, and
    the set of page indices whose request fails with an HTTP error. */
module Paging {

  /** The page size both aggregators request (`per_page`, `count`) and the
      length below which their loops stop. */
  const PageSize: nat := 100

  /** What a search endpoint serves for one language. */
  datatype Feed<R> = Feed(records: seq<R>, failing: set<nat>)

  /** The outcome of one page request. */
  datatype PageResult<T> = Served(items: seq<T>) | HttpError

  /** The records on page `page`: the slice starting at `page * PageSize`,
      at most `PageSize` long, empty past the end. */
  function Page<R>(records: seq<R>, page: nat): (p: seq<R>)
    ensures |p| <= PageSize
    ensures |p| == PageSize <==> (page + 1) * PageSize <= |records|
    ensures page * PageSize <= |records| ==>
      |p| == (if (page + 1) * PageSize <= |records| then PageSize else |records| - page * PageSize)
      && records[..page * PageSize] + p == records[..page * PageSize + |p|]
  {
    var lo := page * PageSize;
    if |records| <= lo then []
    else if |records| < lo + PageSize then records[lo..]
    else records[lo..lo + PageSize]
  }

  /** The request for one page. */
  function Fetch<R>(feed: Feed<R>, page: nat): (r: PageResult<R>)
    ensures r.HttpError? <==> page in feed.failing
    ensures r.Served? ==> |r.items| <= PageSize && r.items == Page(feed.records, page)
  {
    if page in feed.failing then HttpError else Served(Page(feed.records, page))
  }

  /** The index of the first page shorter than `PageSize` for `n` records. */
  function LastPage(n: nat): nat {
    n / PageSize
  }

  /** Every page before `LastPage` is full and `LastPage` itself is short (it
      is empty when `n` is a multiple of the page size). */
  lemma PageShapes<R>(records: seq<R>, page: nat)
    ensures page < LastPage(|records|) ==> |Page(records, page)| == PageSize
    ensures page == LastPage(|records|) ==> |Page(records, page)| == |records| % PageSize
    ensures page == LastPage(|records|) ==> page * PageSize <= |records|
  {}

  /** No page up to and including the last one fails, from page `from` on. */
  predicate SucceedsFrom<R>(feed: Feed<R>, from: nat) {
    forall p :: from <= p <= LastPage(|feed.records|) ==> p !in feed.failing
  }

  predicate Succeeds<R>(feed: Feed<R>) {
    SucceedsFrom(feed, 0)
  }

  /** The first failing page at or after `from`, when there is one before the last page. */
  function FirstFailureFrom<R>(feed: Feed<R>, from: nat): (p: nat)
    requires from <= LastPage(|feed.records|) && !SucceedsFrom(feed, from)
    ensures from <= p <= LastPage(|feed.records|) && p in feed.failing
    ensures forall q :: from <= q < p ==> q !in feed.failing
    decreases LastPage(|feed.records|) - from
  {
    if from in feed.failing then from else FirstFailureFrom(feed, from + 1)
  }

  function FirstFailure<R>(feed: Feed<R>): (p: nat)
    requires !Succeeds(feed)
    ensures p <= LastPage(|feed.records|) && p in feed.failing
    ensures forall q :: 0 <= q < p ==> q !in feed.failing
  {
    FirstFailureFrom(feed, 0)
  }

  /** The number of page requests the loop makes. */
  function FetchCount<R>(feed: Feed<R>): (n: nat)
    ensures n >= 1
    ensures Succeeds(feed) ==> n == |feed.records| / PageSize + 1
  {
    if Succeeds(feed) then LastPage(|feed.records|) + 1 else FirstFailure(feed) + 1
  }

  /** A failing page with no failing page before it is the first failure. */
  lemma FirstFailureUnique<R>(feed: Feed<R>, p: nat)
    requires p <= LastPage(|feed.records|) && p in feed.failing
    requires forall q :: 0 <= q < p ==> q !in feed.failing
    ensures !Succeeds(feed) && FirstFailure(feed) == p
  {}

  /** The outcome of the loop as a value: every record and the number of
      requests, or the number of requests up to the failing one. */
  datatype Run<R> = Completed(records: seq<R>, calls: nat) | Aborted(calls: nat)

  /** The `while True` loop from page `page` on, written as recursion:
      request the page, abort on an error, stop after a short page,
      otherwise go on to the next one. It is the recursive twin of both
      `BuildVacanciesList` loops, whose contracts match it from page 0. */
  function Drive<R>(feed: Feed<R>, page: nat): (r: Run<R>)
    requires page * PageSize <= |feed.records|
    ensures r.calls >= 1
    ensures r.Completed? ==> |r.records| == |feed.records| - page * PageSize
    decreases |feed.records| - page * PageSize
  {
    match Fetch(feed, page)
    case HttpError => Aborted(1)
    case Served(items) =>
      if |items| < PageSize then Completed(items, 1)
      else
        match Drive(feed, page + 1)
        case Completed(rest, calls) => Completed(items + rest, calls + 1)
        case Aborted(calls) => Aborted(calls + 1)
  }

  lemma {:induction false} DriveFrom<R>(feed: Feed<R>, page: nat)
    requires page * PageSize <= |feed.records|
    ensures page <= LastPage(|feed.records|)
    ensures Drive(feed, page)
         == if SucceedsFrom(feed, page)
            then Completed(feed.records[page * PageSize..], LastPage(|feed.records|) - page + 1)
            else Aborted(FirstFailureFrom(feed, page) - page + 1)
    decreases |feed.records| - page * PageSize
  {
    var n := |feed.records|;
    var items := Page(feed.records, page);
    if page in feed.failing {
    } else if |items| < PageSize {
      assert page == LastPage(n);
      assert feed.records[page * PageSize..] == items;
    } else {
      DriveFrom(feed, page + 1);
      var rest := feed.records[(page + 1) * PageSize..];
      assert feed.records[page * PageSize..] == items + rest;
    }
  }

  /** Closed form of the loop over `N` records: without a failing page it
      returns all `N` records after exactly `N / PageSize + 1` requests
      (an exact multiple of the page size costs one extra, empty page);
      otherwise it aborts at the first failing page. */
  lemma DriveClosedForm<R>(feed: Feed<R>)
    ensures Drive(feed, 0)
         == if Succeeds(feed) then Completed(feed.records, FetchCount(feed))
            else Aborted(FetchCount(feed))
  {
    DriveFrom(feed, 0);
    assert feed.records[0..] == feed.records;
  }

  /** 130 records on a failure-free source: two requests, all records. */
  lemma HundredThirtyRecords<R>(feed: Feed<R>)
    requires |feed.records| == 130 && feed.failing == {}
    ensures Drive(feed, 0) == Completed(feed.records, 2)
  {
    DriveClosedForm(feed);
  }

  /** 200 records on a failure-free source: three requests, the last one empty. */
  lemma TwoHundredRecords<R>(feed: Feed<R>)
    requires |feed.records| == 200 && feed.failing == {}
    ensures Drive(feed, 0) == Completed(feed.records, 3)
    ensures Page(feed.records, 2) == []
  {
    DriveClosedForm(feed);
  }
}
