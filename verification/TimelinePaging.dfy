/** Loading a range of the event log page by page, while the log grows. */
module TimelinePaging {
  import opened Prelude
  import opened Timeline
  import opened TimelineGuard

  predicate InRange(e: Envelope, since: int, until: Option<int>) {
    e.seqNo > since && (until.None? || e.seqNo <= until.value)
  }

  /** All events of a range: what the pages together should give. */
  function Select(log: seq<Envelope>, since: int, until: Option<int>): seq<Envelope> {
    if log == [] then []
    else
      var rest := Select(log[..|log| - 1], since, until);
      if InRange(log[|log| - 1], since, until) then rest + [log[|log| - 1]] else rest
  }

  /** The server's answer: the first `limit` events of the range. */
  function Page(log: seq<Envelope>, since: int, until: Option<int>, limit: nat): seq<Envelope> {
    var all := Select(log, since, until);
    if |all| <= limit then all else all[..limit]
  }

  lemma {:induction false} SelectSorted(log: seq<Envelope>, since: int, until: Option<int>)
    requires Sorted(log)
    ensures Sorted(Select(log, since, until))
    ensures forall e :: e in Select(log, since, until) <==> e in log && InRange(e, since, until)
    ensures |Select(log, since, until)| <= |log|
  {
    if log != [] {
      var front, last := log[..|log| - 1], log[|log| - 1];
      SelectSorted(front, since, until);
      var rest := Select(front, since, until);
      assert log == front + [last];
      forall i | 0 <= i < |rest| ensures rest[i].seqNo < last.seqNo {
        assert rest[i] in front;
        var k :| 0 <= k < |front| && front[k] == rest[i];
        assert log[k] == front[k];
      }
    }
  }

  ghost predicate AllUpTo(log: seq<Envelope>, cut: int) {
    forall i :: 0 <= i < |log| ==> log[i].seqNo <= cut
  }

  lemma FrontUpTo(log: seq<Envelope>)
    requires Sorted(log) && log != []
    ensures Sorted(log[..|log| - 1]) && AllUpTo(log[..|log| - 1], log[|log| - 1].seqNo - 1)
  {
  }

  lemma {:induction false} NothingAbove(log: seq<Envelope>, cut: int, until: Option<int>)
    requires AllUpTo(log, cut)
    ensures Select(log, cut, until) == []
  {
    if log != [] { NothingAbove(log[..|log| - 1], cut, until); }
  }

  lemma {:induction false} LimitBeyond(log: seq<Envelope>, since: int, cut: int, until: Option<int>)
    requires AllUpTo(log, cut) && (until.Some? ==> cut <= until.value)
    ensures Select(log, since, until) == Select(log, since, Some(cut))
  {
    if log != [] { LimitBeyond(log[..|log| - 1], since, cut, until); }
  }

  /** A shorter log has a beginning of the range. */
  lemma {:induction false} SelectGrows(log: seq<Envelope>, n: nat, since: int, until: Option<int>)
    requires n <= |log|
    ensures Select(log[..n], since, until) <= Select(log, since, until)
    decreases |log|
  {
    if n == |log| {
      assert log[..n] == log;
    } else {
      var front := log[..|log| - 1];
      assert front[..n] == log[..n];
      SelectGrows(front, n, since, until);
    }
  }

  lemma {:induction false} SelectConcat(a: seq<Envelope>, b: seq<Envelope>, since: int, until: Option<int>)
    ensures Select(a + b, since, until) == Select(a, since, until) + Select(b, since, until)
    decreases |b|
  {
    if b == [] {
      assert a + b == a;
    } else {
      assert (a + b)[..|a + b| - 1] == a + b[..|b| - 1];
      SelectConcat(a, b[..|b| - 1], since, until);
    }
  }

  /** How many events of the range are among the first `n` of the log. */
  function RangeTo(log: seq<Envelope>, since: int, until: Option<int>, n: nat): nat
    requires n <= |log|
  {
    |Select(log[..n], since, until)|
  }

  /** A beginning of the log has a beginning of the range, and a stretch of it that stretch. */
  lemma RangeOfSlice(log: seq<Envelope>, since: int, until: Option<int>, a: nat, b: nat)
    requires a <= b <= |log|
    ensures var all := Select(log, since, until); var from, to := RangeTo(log, since, until, a), RangeTo(log, since, until, b);
      from <= to <= |all| && Select(log[..b], since, until) == all[..to] && Select(log[a..b], since, until) == all[from..to]
  {
    SelectGrows(log, b, since, until);
    assert log[..b] == log[..a] + log[a..b];
    SelectConcat(log[..a], log[a..b], since, until);
  }

  /** One event more. */
  lemma RangeToNext(log: seq<Envelope>, since: int, until: Option<int>, i: nat)
    requires i < |log|
    ensures var k := RangeTo(log, since, until, i); var all := Select(log, since, until);
      if InRange(log[i], since, until) then RangeTo(log, since, until, i + 1) == k + 1 <= |all| && all[k] == log[i]
      else RangeTo(log, since, until, i + 1) == k
  {
    RangeOfSlice(log, since, until, i, i + 1);
    assert log[..i + 1][..i] == log[..i];
    var all, k := Select(log, since, until), RangeTo(log, since, until, i);
    if InRange(log[i], since, until) {
      assert Select(log[..i + 1], since, until)[k] == log[i];
      assert all[..k + 1][k] == all[k];
    }
  }

  /** Splitting a range at one of its numbers. */
  lemma {:induction false} SelectSplit(log: seq<Envelope>, since: int, cut: int, until: Option<int>)
    requires Sorted(log) && since <= cut && (until.Some? ==> cut <= until.value)
    ensures Select(log, since, until) == Select(log, since, Some(cut)) + Select(log, cut, until)
  {
    if log != [] {
      var front, last := log[..|log| - 1], log[|log| - 1];
      FrontUpTo(log);
      SelectSplit(front, since, cut, until);
      if InRange(last, since, Some(cut)) {
        NothingAbove(front, cut, until);
        assert Select(log, cut, until) == [];
      }
    }
  }

  /** A beginning of a range is the range up to its last number. */
  lemma {:induction false} SelectPrefix(log: seq<Envelope>, since: int, until: Option<int>, k: nat)
    requires Sorted(log) && 0 < k <= |Select(log, since, until)|
    ensures var all := Select(log, since, until);
      all[..k] == Select(log, since, Some(all[k - 1].seqNo)) && InRange(all[k - 1], since, until)
  {
    var front, last := log[..|log| - 1], log[|log| - 1];
    var rest := Select(front, since, until);
    var all := Select(log, since, until);
    FrontUpTo(log);
    SelectSorted(front, since, until);
    if k <= |rest| {
      SelectPrefix(front, since, until, k);
      assert all[..k] == rest[..k];
      assert rest[k - 1] in front;
    } else {
      LimitBeyond(front, since, last.seqNo, until);
      assert all[..k] == all;
    }
  }

  /** Events that come later do not change a range that was complete. */
  lemma {:induction false} SelectStable(log: seq<Envelope>, v: nat, w: nat, since: int, cut: int)
    requires Sorted(log) && v <= w <= |log| && 0 < v && cut <= log[v - 1].seqNo
    ensures Select(log[..w], since, Some(cut)) == Select(log[..v], since, Some(cut))
    decreases w
  {
    if v < w {
      SelectStable(log, v, w - 1, since, cut);
      assert log[..w][..w - 1] == log[..w - 1];
      assert log[v - 1].seqNo < log[w - 1].seqNo;
    }
  }

  lemma SortedPrefix(log: seq<Envelope>, v: nat)
    requires Sorted(log) && v <= |log|
    ensures Sorted(log[..v])
  {
  }

  /** The events known so far are the range up to the cursor, also in a longer log. */
  ghost predicate Known(log: seq<Envelope>, v: nat, since: int, cursor: int, until: Option<int>, events: seq<Envelope>)
    requires v <= |log|
  {
    && since <= cursor && (cursor > since ==> (until.Some? ==> cursor <= until.value))
    && (if cursor == since then events == [] else
          0 < v && cursor <= log[v - 1].seqNo && events == Select(log[..v], since, Some(cursor)))
  }

  lemma KnownLater(log: seq<Envelope>, v: nat, w: nat, since: int, cursor: int, until: Option<int>, events: seq<Envelope>)
    requires Sorted(log) && v <= w <= |log| && Known(log, v, since, cursor, until, events)
    ensures Known(log, w, since, cursor, until, events)
    ensures events + Select(log[..w], cursor, until) == Select(log[..w], since, until)
  {
    SortedPrefix(log, w);
    if cursor == since {
      assert [] + Select(log[..w], since, until) == Select(log[..w], since, until);
    } else {
      SelectStable(log, v, w, since, cursor);
      SelectSplit(log[..w], since, cursor, until);
      if v < w { assert log[v - 1].seqNo < log[w - 1].seqNo; }
    }
  }

  /** How many events of the whole log the cursor has not passed. */
  function Remaining(log: seq<Envelope>, cursor: int): nat {
    |Select(log, cursor, None)|
  }

  lemma FewerLeft(log: seq<Envelope>, cursor: int, next: int, k: nat)
    requires Sorted(log) && cursor < next && k < |log| && log[k].seqNo == next
    ensures Remaining(log, next) < Remaining(log, cursor)
  {
    SelectSplit(log, cursor, next, None);
    SelectSorted(log, cursor, Some(next));
    assert log[k] in Select(log, cursor, Some(next));
  }

  /** A full page, seen on its own. */
  lemma PageIsRange(log: seq<Envelope>, cursor: int, until: Option<int>, limit: nat)
    requires Sorted(log) && limit > 0 && |Page(log, cursor, until, limit)| == limit
    ensures var page := Page(log, cursor, until, limit); var last := page[limit - 1];
      && page == Select(log, cursor, Some(last.seqNo)) && InRange(last, cursor, until) && last in log && Sorted(page)
  {
    var all := Select(log, cursor, until);
    assert Page(log, cursor, until, limit) == all[..limit];
    SelectPrefix(log, cursor, until, limit);
    SelectSorted(log, cursor, until);
    assert all[limit - 1] in all;
  }

  /** A full page moves the cursor to its last number. */
  lemma FullPage(log: seq<Envelope>, w: nat, since: int, cursor: int, until: Option<int>, events: seq<Envelope>, limit: nat)
    requires Sorted(log) && w <= |log| && Known(log, w, since, cursor, until, events)
    requires limit > 0 && |Page(log[..w], cursor, until, limit)| == limit
    ensures var page := Page(log[..w], cursor, until, limit); var next := page[limit - 1].seqNo;
      && Sorted(page) && next > cursor && Known(log, w, since, next, until, events + page)
      && Remaining(log, next) < Remaining(log, cursor)
  {
    SortedPrefix(log, w);
    PageIsRange(log[..w], cursor, until, limit);
    var page := Page(log[..w], cursor, until, limit);
    var next := page[limit - 1].seqNo;
    var k :| 0 <= k < w && log[..w][k] == page[limit - 1];
    FewerLeft(log, cursor, next, k);
    assert next <= log[w - 1].seqNo by {
      if k < w - 1 { assert log[k].seqNo < log[w - 1].seqNo; }
    }
    if cursor == since {
      assert events + page == page;
    } else {
      SelectSplit(log[..w], since, cursor, Some(next));
    }
  }

  /** `page.reduce((latest, event) => Math.max(latest, event.seq), cursor)`. */
  function Latest(page: seq<Envelope>, cursor: int): (m: int)
    ensures m >= cursor && forall e :: e in page ==> e.seqNo <= m
  {
    if page == [] then cursor else Max(Latest(page[..|page| - 1], cursor), page[|page| - 1].seqNo)
  }

  lemma {:induction false} LatestIs(page: seq<Envelope>, cursor: int)
    requires Sorted(page)
    ensures page == [] ==> Latest(page, cursor) == cursor
    ensures page != [] ==> Latest(page, cursor) == Max(cursor, page[|page| - 1].seqNo)
  {
    if page != [] {
      LatestIs(page[..|page| - 1], cursor);
    }
  }

  /** The log only grows, up to its final length. */
  ghost predicate Growing(visible: nat -> nat, length: nat) {
    forall i: nat, j: nat :: i <= j ==> visible(i) <= visible(j) <= length
  }

  /**
   The loop that fetches the pages. `visible(i)` is how many events the log has
   when request `i` is answered, and `last` the number of the last request. For
   any page size it ends, and it returns exactly the range of the log as of the
   last answer.
   */
  method FetchTurnEvents(
    log: seq<Envelope>, visible: nat -> nat, since: int, until: Option<int>, pageSize: nat)
    returns (events: seq<Envelope>, last: nat)
    requires Sorted(log) && pageSize > 0 && Growing(visible, |log|)
    ensures visible(last) <= |log| && events == Select(log[..visible(last)], since, until)
  {
    events := [];
    var cursor := since;
    last := 0;
    ghost var v := 0;
    while true
      invariant v <= visible(last) <= |log|
      invariant Known(log, v, since, cursor, until, events)
      decreases Remaining(log, cursor)
    {
      var now := visible(last);
      var page := Page(log[..now], cursor, until, pageSize);
      SortedPrefix(log, now);
      SelectSorted(log[..now], cursor, until);
      KnownLater(log, v, now, since, cursor, until, events);
      ghost var before := events;
      events := events + page;
      var nextCursor := Latest(page, cursor);
      if |page| < pageSize || nextCursor <= cursor {
        if |page| == pageSize {
          FullPage(log, now, since, cursor, until, before, pageSize);
          LatestIs(page, cursor);
        }
        return;
      }
      FullPage(log, now, since, cursor, until, before, pageSize);
      LatestIs(page, cursor);
      v := now;
      cursor := nextCursor;
      last := last + 1;
    }
  }
}
