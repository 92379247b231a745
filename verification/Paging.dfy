/** Keyset paging of the message list: following the cursor from the first page reads the whole list. */
module Paging {
  import opened Prelude
  import opened Messages

  const PAGE_SIZE := 50

  /** An absent filter matches every row. */
  datatype Filter = Filter(queue: Option<Queue>, status: Option<Status>)

  predicate Matches(r: Row, f: Filter)
  {
    && (f.queue.Some? ==> r.queue == f.queue.value)
    && (f.status.Some? ==> r.status == f.status.value)
  }

  predicate IsListed(rows: map<int, Row>, f: Filter, bound: int, id: int)
  {
    id in rows && id < bound && Matches(rows[id], f)
  }

  /** The matching rows with an id below `bound`, ORDER BY id DESC. */
  function ListBelow(rows: map<int, Row>, f: Filter, bound: int): seq<Message>
    decreases bound
  {
    if bound <= 1 then []
    else
      var rest := ListBelow(rows, f, bound - 1);
      if IsListed(rows, f, bound, bound - 1) then [Message(bound - 1, rows[bound - 1])] + rest else rest
  }

  /** Where a page starts: below the cursor, or at the end of the identity sequence. */
  function Bound(db: Db, beforeId: Option<int>): int
  {
    if beforeId.Some? then Min(beforeId.value, db.nextId) else db.nextId
  }

  function Take<T>(s: seq<T>, limit: nat): seq<T> { if |s| <= limit then s else s[..limit] }

  function ListMessages(db: Db, f: Filter, beforeId: Option<int>, limit: nat): seq<Message>
  {
    Take(ListBelow(db.rows, f, Bound(db, beforeId)), limit)
  }

  /** A full page may have a successor; a short one is the last. */
  function NextBeforeId(page: seq<Message>, pageSize: nat): Option<int>
    requires 0 < pageSize
  {
    if |page| == pageSize then Some(page[|page| - 1].id) else None
  }

  /** messages.STATUSES */
  function StatusName(status: Status): string
  {
    match status
    case Pending => "pending"
    case Processing => "processing"
    case Done => "done"
    case Dead => "dead"
  }

  /** The filter `_messages` builds from its query parameters: an empty queue and an unknown status filter
    nothing. */
  function RequestFilter(queue: string, status: string): Filter
  {
    Filter(if queue == "" then None else Some(queue),
           if status == "pending" then Some(Status.Pending)
           else if status == "processing" then Some(Processing)
           else if status == "done" then Some(Done)
           else if status == "dead" then Some(Dead)
           else None)
  }

  /** `_messages`: a page, and the cursor of the next one. */
  function MessagesPage(db: Db, queue: string, status: string, beforeId: Option<int>): (seq<Message>, Option<int>)
  {
    var page := ListMessages(db, RequestFilter(queue, status), beforeId, PAGE_SIZE);
    (page, NextBeforeId(page, PAGE_SIZE))
  }

  // ----- one page ----------------------------------------------------------------------------------

  /** Matching rows below `bound`, in strictly descending id order. */
  ghost predicate IsDescending(l: seq<Message>, rows: map<int, Row>, f: Filter, bound: int)
  {
    && (forall i :: 0 <= i < |l| ==> IsListed(rows, f, bound, l[i].id) && l[i].row == rows[l[i].id])
    && (forall i, j :: 0 <= i < j < |l| ==> l[j].id < l[i].id)
  }

  lemma {:induction false} ListBelowIsOrdered(rows: map<int, Row>, f: Filter, bound: int)
    ensures IsDescending(ListBelow(rows, f, bound), rows, f, bound)
    decreases bound
  {
    if bound > 1 {
      var rest := ListBelow(rows, f, bound - 1);
      ListBelowIsOrdered(rows, f, bound - 1);
      forall i | 0 <= i < |rest| ensures IsListed(rows, f, bound, rest[i].id) && rest[i].id < bound - 1 {
        assert IsListed(rows, f, bound - 1, rest[i].id);
      }
    }
  }

  lemma {:induction false} ListBelowIsComplete(rows: map<int, Row>, f: Filter, bound: int, id: int) returns (i: nat)
    requires 1 <= id && IsListed(rows, f, bound, id)
    ensures i < |ListBelow(rows, f, bound)| && ListBelow(rows, f, bound)[i] == Message(id, rows[id])
    decreases bound
  {
    if id == bound - 1 {
      i := 0;
    } else {
      i := ListBelowIsComplete(rows, f, bound - 1, id);
      if IsListed(rows, f, bound, bound - 1) {
        i := i + 1;
      }
    }
  }

  /** A page holds at most `limit` matching rows below the cursor, in strictly descending id order, and
    leaves none out: a matching row that is not on it has a smaller id than all that are, and the page is
    full. */
  lemma PageIsExact(db: Db, f: Filter, beforeId: Option<int>, limit: nat)
    requires ValidIds(db)
    ensures var page := ListMessages(db, f, beforeId, limit);
      && |page| <= limit
      && IsDescending(page, db.rows, f, Bound(db, beforeId))
      && (forall id :: IsListed(db.rows, f, Bound(db, beforeId), id) && Message(id, db.rows[id]) !in page ==>
            |page| == limit && forall i :: 0 <= i < |page| ==> id < page[i].id)
  {
    var bound := Bound(db, beforeId);
    var page := ListMessages(db, f, beforeId, limit);
    ListBelowIsOrdered(db.rows, f, bound);
    assert forall i :: 0 <= i < |page| ==> page[i] in page;
    forall id | IsListed(db.rows, f, bound, id) && Message(id, db.rows[id]) !in page
      ensures |page| == limit && forall i :: 0 <= i < |page| ==> id < page[i].id
    {
      var at := ListBelowIsComplete(db.rows, f, bound, id);
    }
  }

  // ----- following the cursor ----------------------------------------------------------------------

  /** One request per table: the pages read, and the cursor left if the requests ran out. */
  function FollowCursor(dbs: seq<Db>, f: Filter, beforeId: Option<int>, pageSize: nat): (seq<Message>, Option<int>)
    requires 0 < pageSize
    decreases |dbs|
  {
    if dbs == [] then ([], beforeId)
    else
      var page := ListMessages(dbs[0], f, beforeId, pageSize);
      var next := NextBeforeId(page, pageSize);
      if next.None? then (page, None)
      else
        var (rest, cursor) := FollowCursor(dbs[1..], f, next, pageSize);
        (page + rest, cursor)
  }

  /** `b` is `a` after some publishes. */
  ghost predicate IsExtended(a: Db, b: Db)
  {
    && a.nextId <= b.nextId
    && (forall id :: id in a.rows ==> id in b.rows && b.rows[id] == a.rows[id])
    && (forall id :: id in b.rows && id !in a.rows ==> a.nextId <= id)
  }

  lemma PublishExtends(db: Db, op: Op)
    requires ValidIds(db) && op.Publish?
    ensures IsExtended(db, Apply(db, op))
  {
  }

  /** So does any run of publishes with time passing in between. */
  lemma {:induction false} PublishesExtend(db: Db, ops: seq<Op>)
    requires ValidIds(db) && forall i :: 0 <= i < |ops| ==> ops[i].Publish? || ops[i].Elapse?
    ensures ValidIds(Run(db, ops)) && IsExtended(db, Run(db, ops))
    decreases |ops|
  {
    if ops != [] {
      assert ops[0].Publish? || ops[0].Elapse?;
      PublishesExtend(Apply(db, ops[0]), ops[1..]);
    }
  }

  lemma {:induction false} PublishAddsNothingBelow(a: Db, b: Db, f: Filter, bound: int)
    requires IsExtended(a, b) && bound <= a.nextId
    ensures ListBelow(b.rows, f, bound) == ListBelow(a.rows, f, bound)
    decreases bound
  {
    if bound > 1 {
      PublishAddsNothingBelow(a, b, f, bound - 1);
    }
  }

  lemma {:induction false} RestOfList(rows: map<int, Row>, f: Filter, bound: int, i: nat)
    requires i < |ListBelow(rows, f, bound)|
    ensures ListBelow(rows, f, ListBelow(rows, f, bound)[i].id) == ListBelow(rows, f, bound)[i + 1..]
    decreases bound
  {
    if IsListed(rows, f, bound, bound - 1) {
      if i > 0 {
        RestOfList(rows, f, bound - 1, i - 1);
      }
    } else {
      RestOfList(rows, f, bound - 1, i);
    }
  }

  /** Following the cursor reads exactly the list as it was at the first request, in descending id order
    and each row once, and ends within one request more than the list has full pages. Publishes between
    the requests neither add a row to later pages nor take one away. */
  lemma {:induction false} PagesAreTheList(dbs: seq<Db>, f: Filter, beforeId: Option<int>, pageSize: nat)
    requires 0 < pageSize && dbs != []
    requires forall i :: 0 <= i < |dbs| - 1 ==> IsExtended(dbs[i], dbs[i + 1])
    requires |ListBelow(dbs[0].rows, f, Bound(dbs[0], beforeId))| < |dbs| * pageSize
    ensures FollowCursor(dbs, f, beforeId, pageSize) == (ListBelow(dbs[0].rows, f, Bound(dbs[0], beforeId)), None)
    decreases |dbs|
  {
    var list := ListBelow(dbs[0].rows, f, Bound(dbs[0], beforeId));
    var page := ListMessages(dbs[0], f, beforeId, pageSize);
    if |page| == pageSize {
      var last := page[pageSize - 1].id;
      ListBelowIsOrdered(dbs[0].rows, f, Bound(dbs[0], beforeId));
      RestOfList(dbs[0].rows, f, Bound(dbs[0], beforeId), pageSize - 1);
      assert list == page + list[pageSize..];
      FewerPagesLeft(|list|, |dbs|, pageSize);
      assert IsExtended(dbs[0], dbs[1]);
      PublishAddsNothingBelow(dbs[0], dbs[1], f, last);
      forall i | 0 <= i < |dbs[1..]| - 1 ensures IsExtended(dbs[1..][i], dbs[1..][i + 1]) {
        assert IsExtended(dbs[i + 1], dbs[i + 1 + 1]);
      }
      PagesAreTheList(dbs[1..], f, Some(last), pageSize);
    }
  }

  lemma FewerPagesLeft(length: nat, requests: nat, pageSize: nat)
    requires pageSize <= length < requests * pageSize
    ensures 2 <= requests && length - pageSize < (requests - 1) * pageSize
  {
    assert (requests - 1) * pageSize == requests * pageSize - pageSize;
  }

  /** The pages a browser sees that starts at the first page and follows next_before_id to the end. */
  function Browse(dbs: seq<Db>, queue: string, status: string, beforeId: Option<int>): (seq<Message>, Option<int>)
    decreases |dbs|
  {
    if dbs == [] then ([], beforeId)
    else
      var (page, next) := MessagesPage(dbs[0], queue, status, beforeId);
      if next.None? then (page, None)
      else
        var (rest, cursor) := Browse(dbs[1..], queue, status, next);
        (page + rest, cursor)
  }

  lemma {:induction false} BrowsingFollowsCursor(dbs: seq<Db>, queue: string, status: string, beforeId: Option<int>)
    ensures Browse(dbs, queue, status, beforeId) == FollowCursor(dbs, RequestFilter(queue, status), beforeId, PAGE_SIZE)
    decreases |dbs|
  {
    if dbs != [] {
      var (page, next) := MessagesPage(dbs[0], queue, status, beforeId);
      BrowsingFollowsCursor(dbs[1..], queue, status, next);
    }
  }

  /** Whether a row is one the request asked for. */
  predicate IsWanted(r: Row, queue: string, status: string)
  {
    && (queue != "" ==> r.queue == queue)
    && (status in ["pending", "processing", "done", "dead"] ==> StatusName(r.status) == status)
  }

  /** Enough requests made, whatever is published in between, the pages of the message list are together
    exactly the rows of the first request's table that the request asked for, each once, newest first. */
  lemma BrowsingReadsEverything(dbs: seq<Db>, queue: string, status: string)
    requires dbs != [] && ValidIds(dbs[0])
    requires forall i :: 0 <= i < |dbs| - 1 ==> IsExtended(dbs[i], dbs[i + 1])
    requires dbs[0].nextId <= |dbs| * PAGE_SIZE
    ensures var (read, cursor) := Browse(dbs, queue, status, None);
      && cursor == None
      && (forall i, j :: 0 <= i < j < |read| ==> read[j].id < read[i].id)
      && (forall m: Message :: m in read <==>
            m.id in dbs[0].rows && m.row == dbs[0].rows[m.id] && IsWanted(m.row, queue, status))
  {
    var f, db := RequestFilter(queue, status), dbs[0];
    var list := ListBelow(db.rows, f, db.nextId);
    BrowsingFollowsCursor(dbs, queue, status, None);
    ListBelowIsShort(db.rows, f, db.nextId);
    PagesAreTheList(dbs, f, None, PAGE_SIZE);
    forall m: Message
      ensures m in list <==> m.id in db.rows && m.row == db.rows[m.id] && IsWanted(m.row, queue, status)
    {
      ListedIffWanted(db, queue, status, m);
    }
    ListBelowIsOrdered(db.rows, f, db.nextId);
  }

  lemma ListedIffWanted(db: Db, queue: string, status: string, m: Message)
    requires ValidIds(db)
    ensures m in ListBelow(db.rows, RequestFilter(queue, status), db.nextId) <==>
      m.id in db.rows && m.row == db.rows[m.id] && IsWanted(m.row, queue, status)
  {
    var f := RequestFilter(queue, status);
    ListBelowIsOrdered(db.rows, f, db.nextId);
    if m.id in db.rows && m.row == db.rows[m.id] && IsWanted(m.row, queue, status) {
      var i := ListBelowIsComplete(db.rows, f, db.nextId, m.id);
    }
  }

  lemma {:induction false} ListBelowIsShort(rows: map<int, Row>, f: Filter, bound: int)
    requires 1 <= bound
    ensures |ListBelow(rows, f, bound)| < bound
    decreases bound
  {
    if bound > 1 {
      ListBelowIsShort(rows, f, bound - 1);
    }
  }

  // ----- whatever runs between the requests ----------------------------------------------------------

  /** What was read is in strictly descending id order, below the cursor, and each row as some request's table
    had it. */
  ghost predicate IsReading(dbs: seq<Db>, f: Filter, beforeId: Option<int>, read: seq<Message>)
  {
    && (forall i, j :: 0 <= i < j < |read| ==> read[j].id < read[i].id)
    && (forall i :: 0 <= i < |read| ==> IsBelow(read[i].id, beforeId) && WasListed(dbs, f, read[i]))
  }

  predicate IsBelow(id: int, beforeId: Option<int>) { beforeId.Some? ==> id < beforeId.value }

  predicate WasListed(dbs: seq<Db>, f: Filter, m: Message)
  {
    exists k :: 0 <= k < |dbs| && m.id in dbs[k].rows && m.row == dbs[k].rows[m.id] && Matches(m.row, f)
  }

  /** Row `id` is there and matches at every request. */
  predicate IsThereThroughout(dbs: seq<Db>, f: Filter, id: int)
  {
    forall k :: 0 <= k < |dbs| ==> id in dbs[k].rows && Matches(dbs[k].rows[id], f)
  }

  predicate WasRead(read: seq<Message>, id: int) { exists i :: 0 <= i < |read| && read[i].id == id }

  lemma FirstPageIsReading(dbs: seq<Db>, f: Filter, beforeId: Option<int>, pageSize: nat)
    requires dbs != [] && ValidIds(dbs[0])
    ensures IsReading(dbs, f, beforeId, ListMessages(dbs[0], f, beforeId, pageSize))
  {
    PageIsExact(dbs[0], f, beforeId, pageSize);
    var page := ListMessages(dbs[0], f, beforeId, pageSize);
    forall i | 0 <= i < |page| ensures WasListed(dbs, f, page[i]) && IsBelow(page[i].id, beforeId) {
      assert IsListed(dbs[0].rows, f, Bound(dbs[0], beforeId), page[i].id);
    }
  }

  lemma ReadingGoesOn(dbs: seq<Db>, f: Filter, beforeId: Option<int>, page: seq<Message>, rest: seq<Message>)
    requires dbs != [] && page != [] && IsReading(dbs, f, beforeId, page)
    requires IsReading(dbs[1..], f, Some(page[|page| - 1].id), rest)
    ensures IsReading(dbs, f, beforeId, page + rest)
  {
    var read := page + rest;
    forall i | |page| <= i < |read| ensures WasListed(dbs, f, read[i]) && read[i].id < page[|page| - 1].id {
      var m := rest[i - |page|];
      assert IsBelow(m.id, Some(page[|page| - 1].id)) && WasListed(dbs[1..], f, m);
      var k :| 0 <= k < |dbs[1..]| && m.id in dbs[1..][k].rows && m.row == dbs[1..][k].rows[m.id];
      assert dbs[k + 1] == dbs[1..][k];
    }
  }

  /** Whatever statements run between the requests, following the cursor reads in strictly descending id order,
    so no row twice, and only rows that matched when they were read. */
  lemma {:induction false} FollowingNeverRepeats(dbs: seq<Db>, f: Filter, beforeId: Option<int>, pageSize: nat)
    requires 0 < pageSize && forall k :: 0 <= k < |dbs| ==> ValidIds(dbs[k])
    ensures IsReading(dbs, f, beforeId, FollowCursor(dbs, f, beforeId, pageSize).0)
    decreases |dbs|
  {
    if dbs != [] {
      var page := ListMessages(dbs[0], f, beforeId, pageSize);
      FirstPageIsReading(dbs, f, beforeId, pageSize);
      if |page| == pageSize {
        var next := NextBeforeId(page, pageSize);
        FollowingNeverRepeats(dbs[1..], f, next, pageSize);
        ReadingGoesOn(dbs, f, beforeId, page, FollowCursor(dbs[1..], f, next, pageSize).0);
      }
    }
  }

  /** And once the cursor has come to its end, every row that was there and matched throughout has been read. */
  lemma {:induction false} FollowingMissesNothing(
    dbs: seq<Db>, f: Filter, beforeId: Option<int>, pageSize: nat, id: int)
    requires 0 < pageSize && dbs != [] && forall k :: 0 <= k < |dbs| ==> ValidIds(dbs[k])
    requires IsBelow(id, beforeId) && IsThereThroughout(dbs, f, id)
    requires FollowCursor(dbs, f, beforeId, pageSize).1.None?
    ensures WasRead(FollowCursor(dbs, f, beforeId, pageSize).0, id)
    decreases |dbs|
  {
    var page := ListMessages(dbs[0], f, beforeId, pageSize);
    var read := FollowCursor(dbs, f, beforeId, pageSize).0;
    PageIsExact(dbs[0], f, beforeId, pageSize);
    assert IsListed(dbs[0].rows, f, Bound(dbs[0], beforeId), id);
    if m :| m in page && m.id == id {
      var i :| 0 <= i < |page| && page[i] == m;
      assert read[i].id == id;
    } else {
      var next := NextBeforeId(page, pageSize);
      FollowingMissesNothing(dbs[1..], f, next, pageSize, id);
      var rest := FollowCursor(dbs[1..], f, next, pageSize).0;
      var i :| 0 <= i < |rest| && rest[i].id == id;
      assert read[|page| + i].id == id;
    }
  }

  /** And the cursor does come to its end: each full page takes it down by a page's worth of ids. */
  lemma {:induction false} FollowingEnds(dbs: seq<Db>, f: Filter, beforeId: Option<int>, pageSize: nat)
    requires 0 < pageSize && dbs != [] && forall k :: 0 <= k < |dbs| ==> ValidIds(dbs[k])
    requires Bound(dbs[0], beforeId) <= |dbs| * pageSize
    ensures FollowCursor(dbs, f, beforeId, pageSize).1.None?
    decreases |dbs|
  {
    var page := ListMessages(dbs[0], f, beforeId, pageSize);
    PageIsExact(dbs[0], f, beforeId, pageSize);
    if |page| == pageSize {
      var last := page[pageSize - 1].id;
      DescendingIdsSpread(page, pageSize - 1);
      assert IsListed(dbs[0].rows, f, Bound(dbs[0], beforeId), last);
      assert page[0].id < Bound(dbs[0], beforeId);
      FewerIdsLeft(Bound(dbs[0], beforeId), last, |dbs|, pageSize);
      FollowingEnds(dbs[1..], f, Some(last), pageSize);
    }
  }

  lemma FewerIdsLeft(bound: int, last: int, requests: nat, pageSize: nat)
    requires 1 <= last <= bound - pageSize && bound <= requests * pageSize
    ensures 2 <= requests && last <= (requests - 1) * pageSize
  {
    assert (requests - 1) * pageSize == requests * pageSize - pageSize;
  }

  lemma {:induction false} DescendingIdsSpread(page: seq<Message>, i: nat)
    requires i < |page| && forall i, j :: 0 <= i < j < |page| ==> page[j].id < page[i].id
    ensures page[i].id <= page[0].id - i
  {
    if i > 0 {
      DescendingIdsSpread(page, i - 1);
    }
  }
}
