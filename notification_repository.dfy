/** The notification table of each tenant's database and the repository's
    operations on it: lookup by id, a user's page of notifications newest
    first, insertion, update, deletion, marking as read and the two counts. */
module NotificationRepository {
  import opened Wrappers
  import opened Json
  import opened NotificationDto

  /** Opening a connection to a tenant whose database does not exist fails. */
  const NoDatabase := StorageException("tenant database does not exist")

  /** PostgreSQL rejects a negative `OFFSET`. */
  const NegativeOffset := StorageException("OFFSET must not be negative")

  /** PostgreSQL rejects a negative `LIMIT`. */
  const NegativeLimit := StorageException("LIMIT must not be negative")

  const Int32Min: int := -0x8000_0000
  const Int32Max: int := 0x7fff_ffff

  predicate IsInt32(x: int)
  {
    Int32Min <= x <= Int32Max
  }

  /** Unchecked C# `int` arithmetic: the result is reduced modulo 2^32 into
      the signed range. */
  function WrapInt32(x: int): (r: int)
    ensures IsInt32(r)
    ensures (x - r) % 0x1_0000_0000 == 0
    ensures IsInt32(x) ==> r == x
  {
    (x - Int32Min) % 0x1_0000_0000 + Int32Min
  }

  /** The offset as the repository computes it, `(page - 1) * pageSize` in
      32-bit arithmetic. */
  function OffsetAsWritten(page: int, pageSize: int): int
    requires IsInt32(page) && IsInt32(pageSize)
  {
    WrapInt32(WrapInt32(page - 1) * pageSize)
  }

  /** The offset the query is meant to skip: the rows of all earlier pages. */
  function Offset(page: int, pageSize: int): (r: int)
    ensures page >= 1 && pageSize >= 0 ==> r >= 0
    ensures page < 1 && pageSize > 0 ==> r < 0
  {
    (page - 1) * pageSize
  }

  /** Page 65537 of 65536 rows each wraps to offset 0: it repeats the first
      page instead of lying past the end of any table below 2^32 rows. */
  lemma OffsetWrapsToFirstPage()
    ensures OffsetAsWritten(65537, 65536) == 0
    ensures Offset(65537, 65536) == 0x1_0000_0000
  {
  }

  /** Within 32 bits, the written offset is the intended one. */
  lemma OffsetAgreesWithoutOverflow(page: int, pageSize: int)
    requires IsInt32(page) && IsInt32(pageSize) && IsInt32(page - 1) && IsInt32((page - 1) * pageSize)
    ensures OffsetAsWritten(page, pageSize) == Offset(page, pageSize)
  {
  }

  /** `Math.Ceiling((double)totalItems / pageSize)` as integer division. */
  function TotalPages(totalItems: nat, pageSize: int): (r: nat)
    requires pageSize > 0
  {
    (totalItems + pageSize - 1) / pageSize
  }

  /** The page count is the least number of pages that hold every item. */
  lemma TotalPagesIsCeiling(totalItems: nat, pageSize: int)
    requires pageSize > 0
    ensures TotalPages(totalItems, pageSize) * pageSize >= totalItems
    ensures TotalPages(totalItems, pageSize) > 0 ==> (TotalPages(totalItems, pageSize) - 1) * pageSize < totalItems
  {
    var r := TotalPages(totalItems, pageSize);
    var q := totalItems + pageSize - 1;
    assert q == r * pageSize + q % pageSize;
    assert q % pageSize < pageSize;
  }

  /** The rows a predicate keeps, in table order. */
  function Where(table: seq<Notification>, keep: Notification -> bool): (r: seq<Notification>)
    ensures |r| <= |table|
    ensures forall n :: n in r <==> n in table && keep(n)
  {
    if table == [] then []
    else (if keep(table[0]) then [table[0]] else []) + Where(table[1..], keep)
  }

  /** A weaker predicate keeps at least as many rows. */
  lemma {:induction false} WhereMonotone(table: seq<Notification>, keep: Notification -> bool, wider: Notification -> bool)
    requires forall n :: keep(n) ==> wider(n)
    ensures |Where(table, keep)| <= |Where(table, wider)|
  {
    if table != [] {
      WhereMonotone(table[1..], keep, wider);
    }
  }

  /** A predicate every row satisfies keeps the table as it is. */
  lemma {:induction false} WhereAll(table: seq<Notification>, keep: Notification -> bool)
    requires forall n :: n in table ==> keep(n)
    ensures Where(table, keep) == table
  {
    if table != [] {
      assert forall n :: n in table[1..] ==> n in table;
      WhereAll(table[1..], keep);
    }
  }

  function UserRows(table: seq<Notification>, user: string): seq<Notification>
  {
    Where(table, (n: Notification) => n.feedUserId == user)
  }

  function UnreadRows(table: seq<Notification>, user: string): seq<Notification>
  {
    Where(table, (n: Notification) => n.feedUserId == user && !n.isRead)
  }

  /** A user never has more unread notifications than notifications. */
  lemma UnreadAtMostTotal(table: seq<Notification>, user: string)
    ensures |UnreadRows(table, user)| <= |UserRows(table, user)|
  {
    WhereMonotone(table, (n: Notification) => n.feedUserId == user && !n.isRead, (n: Notification) => n.feedUserId == user);
  }

  /** `GetByIdAsync`: the first row with the id, or null. */
  function FindById(table: seq<Notification>, id: Guid): (r: Option<Notification>)
    ensures r.None? <==> forall n :: n in table ==> n.id != id
    ensures r.Some? ==> r.value in table && r.value.id == id
  {
    if table == [] then None
    else if table[0].id == id then Some(table[0])
    else FindById(table[1..], id)
  }

  /** The table after `CreateAsync`: the row is appended, with a fresh id
      when its id is empty. */
  function Inserted(table: seq<Notification>, n: Notification, freshId: Guid): (r: seq<Notification>)
  {
    table + [n.(id := if n.id == EmptyGuid then freshId else n.id)]
  }

  /** A created row is found by the id it was stored under, provided no
      earlier row has that id. */
  lemma {:induction false} CreatedIsFound(table: seq<Notification>, n: Notification, freshId: Guid)
    requires var id := if n.id == EmptyGuid then freshId else n.id;
             forall m :: m in table ==> m.id != id
    ensures var row := n.(id := if n.id == EmptyGuid then freshId else n.id);
            FindById(Inserted(table, n, freshId), row.id) == Some(row)
  {
    if table != [] {
      assert Inserted(table, n, freshId)[1..] == Inserted(table[1..], n, freshId);
      CreatedIsFound(table[1..], n, freshId);
    }
  }

  /** The table after `UpdateAsync`: every row with the notification's id
      takes all its other columns. */
  function Updated(table: seq<Notification>, n: Notification): (r: seq<Notification>)
    ensures |r| == |table|
    ensures forall i :: 0 <= i < |table| ==> r[i] == if table[i].id == n.id then n else table[i]
  {
    seq(|table|, i requires 0 <= i < |table| => if table[i].id == n.id then n else table[i])
  }

  /** After an update the notification is what its id finds, provided a
      row had that id. */
  lemma {:induction false} UpdatedIsFound(table: seq<Notification>, n: Notification)
    requires FindById(table, n.id).Some?
    ensures FindById(Updated(table, n), n.id) == Some(n)
  {
    if table[0].id != n.id {
      assert Updated(table, n)[1..] == Updated(table[1..], n);
      UpdatedIsFound(table[1..], n);
    }
  }

  /** Updating an id no row has changes nothing. */
  lemma UpdateAbsentUnchanged(table: seq<Notification>, n: Notification)
    requires FindById(table, n.id).None?
    ensures Updated(table, n) == table
  {
    forall i | 0 <= i < |table|
      ensures Updated(table, n)[i] == table[i]
    {
      assert table[i] in table;
    }
  }

  /** A user who neither owned the updated rows nor owns the notification
      keeps the same rows, and so the same total and unread counts. */
  lemma {:induction false} UpdatedKeepsOtherUsers(table: seq<Notification>, n: Notification, user: string)
    requires n.feedUserId != user
    requires forall m :: m in table && m.id == n.id ==> m.feedUserId != user
    ensures UserRows(Updated(table, n), user) == UserRows(table, user)
    ensures UnreadRows(Updated(table, n), user) == UnreadRows(table, user)
  {
    if table != [] {
      assert Updated(table, n)[1..] == Updated(table[1..], n);
      assert forall m :: m in table[1..] ==> m in table;
      UpdatedKeepsOtherUsers(table[1..], n, user);
    }
  }

  /** The table after `DeleteAsync`: the rows with the id are removed. */
  function Deleted(table: seq<Notification>, id: Guid): (r: seq<Notification>)
  {
    Where(table, (n: Notification) => n.id != id)
  }

  /** Deleting removes exactly the rows with the id; an absent id changes
      nothing. */
  lemma DeleteRemovesExactly(table: seq<Notification>, id: Guid)
    ensures forall n :: n in Deleted(table, id) <==> n in table && n.id != id
    ensures (forall n :: n in table ==> n.id != id) ==> Deleted(table, id) == table
  {
    if forall n :: n in table ==> n.id != id {
      WhereAll(table, (n: Notification) => n.id != id);
    }
  }

  /** The table after `MarkAsReadAsync`: the rows with the id are read. */
  function MarkedRead(table: seq<Notification>, id: Guid): (r: seq<Notification>)
    ensures |r| == |table|
    ensures forall i :: 0 <= i < |table| ==> r[i] == if table[i].id == id then table[i].(isRead := true) else table[i]
  {
    seq(|table|, i requires 0 <= i < |table| => if table[i].id == id then table[i].(isRead := true) else table[i])
  }

  /** Marking as read is idempotent, keeps every user's total and never
      raises an unread count. */
  lemma MarkAsReadCounts(table: seq<Notification>, id: Guid, user: string)
    ensures MarkedRead(MarkedRead(table, id), id) == MarkedRead(table, id)
    ensures |UserRows(MarkedRead(table, id), user)| == |UserRows(table, user)|
    ensures |UnreadRows(MarkedRead(table, id), user)| <= |UnreadRows(table, user)|
  {
    MarkedReadCounts(table, id, user);
  }

  lemma {:induction false} MarkedReadCounts(table: seq<Notification>, id: Guid, user: string)
    ensures |UserRows(MarkedRead(table, id), user)| == |UserRows(table, user)|
    ensures |UnreadRows(MarkedRead(table, id), user)| <= |UnreadRows(table, user)|
  {
    if table != [] {
      var m := MarkedRead(table, id);
      assert m[1..] == MarkedRead(table[1..], id);
      MarkedReadCounts(table[1..], id, user);
    }
  }

  /** Newest first: `ORDER BY post_date DESC`. */
  predicate NewestFirst(rows: seq<Notification>)
  {
    forall i, j :: 0 <= i < j < |rows| ==> rows[i].postDate >= rows[j].postDate
  }

  /** Inserts a row before the first row that is not newer. */
  function InsertByDate(n: Notification, rows: seq<Notification>): (r: seq<Notification>)
    ensures multiset(r) == multiset(rows) + multiset{n}
    ensures |r| == |rows| + 1
  {
    if rows == [] || n.postDate >= rows[0].postDate then [n] + rows
    else
      assert rows == [rows[0]] + rows[1..];
      [rows[0]] + InsertByDate(n, rows[1..])
  }

  lemma {:induction false} InsertByDateKeepsOrder(n: Notification, rows: seq<Notification>)
    requires NewestFirst(rows)
    ensures NewestFirst(InsertByDate(n, rows))
  {
    if rows != [] && n.postDate < rows[0].postDate {
      InsertByDateKeepsOrder(n, rows[1..]);
      var tail := InsertByDate(n, rows[1..]);
      forall x | x in tail
        ensures rows[0].postDate >= x.postDate
      {
        assert x in multiset(tail);
        if x != n {
          assert x in multiset(rows[1..]);
          var m :| 0 <= m < |rows[1..]| && rows[1..][m] == x;
          assert rows[m + 1] == x;
        }
      }
      ConsKeepsOrder(rows[0], tail);
    }
  }

  /** A row no older than any of an ordered sequence may go in front. */
  lemma ConsKeepsOrder(h: Notification, tail: seq<Notification>)
    requires NewestFirst(tail)
    requires forall x :: x in tail ==> h.postDate >= x.postDate
    ensures NewestFirst([h] + tail)
  {
    var r := [h] + tail;
    forall i, j | 0 <= i < j < |r|
      ensures r[i].postDate >= r[j].postDate
    {
      assert r[j] == tail[j - 1];
      if i > 0 {
        assert r[i] == tail[i - 1];
      } else {
        assert tail[j - 1] in tail;
      }
    }
  }

  /** The rows sorted newest first; rows of equal date keep table order. */
  function SortByDate(rows: seq<Notification>): (r: seq<Notification>)
    ensures multiset(r) == multiset(rows)
    ensures |r| == |rows|
  {
    if rows == [] then []
    else
      assert rows == [rows[0]] + rows[1..];
      InsertByDate(rows[0], SortByDate(rows[1..]))
  }

  /** Sorting orders the rows newest first. */
  lemma {:induction false} SortByDateOrders(rows: seq<Notification>)
    ensures NewestFirst(SortByDate(rows))
  {
    if rows != [] {
      SortByDateOrders(rows[1..]);
      InsertByDateKeepsOrder(rows[0], SortByDate(rows[1..]));
    }
  }

  /** `LIMIT pageSize OFFSET offset` on the ordered rows. */
  function PageOf(rows: seq<Notification>, offset: nat, pageSize: nat): (r: seq<Notification>)
    ensures |r| <= pageSize
  {
    var from := if offset <= |rows| then offset else |rows|;
    var to := if offset + pageSize <= |rows| then offset + pageSize else |rows|;
    rows[from..to]
  }

  /** Pages 1 to `n`, one after another. */
  function Pages(rows: seq<Notification>, pageSize: nat, n: nat): seq<Notification>
  {
    if n == 0 then [] else Pages(rows, pageSize, n - 1) + PageOf(rows, Offset(n, pageSize), pageSize)
  }

  /** The first `n` pages are the first `n * pageSize` rows. */
  lemma {:induction false} PagesArePrefix(rows: seq<Notification>, pageSize: nat, n: nat)
    ensures var end := if n * pageSize <= |rows| then n * pageSize else |rows|;
            Pages(rows, pageSize, n) == rows[..end]
  {
    if n > 0 {
      PagesArePrefix(rows, pageSize, n - 1);
      assert Offset(n, pageSize) == (n - 1) * pageSize == n * pageSize - pageSize;
    }
  }

  /** The pages up to the page count hold every row exactly once, in order. */
  lemma PagesCoverRows(rows: seq<Notification>, pageSize: int)
    requires pageSize > 0
    ensures Pages(rows, pageSize, TotalPages(|rows|, pageSize)) == rows
  {
    var total := TotalPages(|rows|, pageSize);
    TotalPagesIsCeiling(|rows|, pageSize);
    PagesArePrefix(rows, pageSize, total);
    assert rows[..|rows|] == rows;
  }

  /** No two different rows share a post date. */
  predicate DatesIdentifyRows(rows: seq<Notification>)
  {
    forall m, n :: m in rows && n in rows && m.postDate == n.postDate ==> m == n
  }

  /** Two newest-first orderings of the same rows are the same sequence when
      no two different rows share a post date. */
  lemma {:induction false} SameNewestFirstOrder(a: seq<Notification>, b: seq<Notification>)
    requires multiset(a) == multiset(b)
    requires NewestFirst(a) && NewestFirst(b)
    requires DatesIdentifyRows(a)
    ensures a == b
  {
    assert |b| == |multiset(b)| == |multiset(a)| == |a|;
    if a != [] {
      NewestFirstHeadsAgree(a, b);
      TailsSameRows(a, b);
      assert forall x :: x in a[1..] ==> x in a;
      SameNewestFirstOrder(a[1..], b[1..]);
    }
  }

  /** Two newest-first orderings of the same rows start with the same row
      when no two different rows share a post date. */
  lemma NewestFirstHeadsAgree(a: seq<Notification>, b: seq<Notification>)
    requires a != [] && |b| == |a|
    requires multiset(a) == multiset(b)
    requires NewestFirst(a) && NewestFirst(b)
    requires DatesIdentifyRows(a)
    ensures a[0] == b[0]
  {
    assert a[0] in multiset(b) && b[0] in multiset(a);
    var k :| 0 <= k < |b| && b[k] == a[0];
    var m :| 0 <= m < |a| && a[m] == b[0];
    assert a[0].postDate >= a[m].postDate;
    assert b[0].postDate >= b[k].postDate;
  }

  /** Removing the same first row from two arrangements of the same rows
      leaves arrangements of the same rows. */
  lemma TailsSameRows(a: seq<Notification>, b: seq<Notification>)
    requires a != [] && b != [] && a[0] == b[0]
    requires multiset(a) == multiset(b)
    ensures multiset(a[1..]) == multiset(b[1..])
  {
    assert a == [a[0]] + a[1..] && b == [b[0]] + b[1..];
    assert multiset(a) == multiset{a[0]} + multiset(a[1..]);
    assert multiset(b) == multiset{b[0]} + multiset(b[1..]);
    assert multiset(a[1..]) == multiset(a) - multiset{a[0]};
    assert multiset(b[1..]) == multiset(b) - multiset{b[0]};
  }

  /** When the user's rows have distinct post dates, `ORDER BY post_date
      DESC` admits one order only: every query, whatever its `LIMIT` and
      `OFFSET`, sees the rows in the order `SortByDate` gives, so the pages
      of separate queries cover the rows as `PagesCoverRows` states. */
  lemma DateOrderUnique(rows: seq<Notification>, ordered: seq<Notification>)
    requires DatesIdentifyRows(rows)
    requires multiset(ordered) == multiset(rows) && NewestFirst(ordered)
    ensures ordered == SortByDate(rows)
  {
    SortByDateOrders(rows);
    forall x | x in ordered
      ensures x in rows
    {
      assert x in multiset(rows);
    }
    SameNewestFirstOrder(ordered, SortByDate(rows));
  }

  /** With two rows of equal post date, both orders satisfy `ORDER BY
      post_date DESC`; if the query for page 1 uses one and the query for
      page 2 the other, one row is shown twice and the other never. */
  lemma TiedDatesPagesMayRepeat(a: Notification, b: Notification)
    requires a != b && a.postDate == b.postDate
    ensures NewestFirst([a, b]) && NewestFirst([b, a]) && multiset([a, b]) == multiset([b, a])
    ensures PageOf([a, b], Offset(1, 1), 1) + PageOf([b, a], Offset(2, 1), 1) == [a, a]
  {
    assert PageOf([a, b], 0, 1) == [a];
    assert PageOf([b, a], 1, 1) == [a];
  }

  /** Every page after the page count is empty. */
  lemma PagesBeyondEmpty(rows: seq<Notification>, pageSize: int, page: int)
    requires pageSize > 0 && page > TotalPages(|rows|, pageSize)
    ensures PageOf(rows, Offset(page, pageSize), pageSize) == []
  {
    var total := TotalPages(|rows|, pageSize);
    TotalPagesIsCeiling(|rows|, pageSize);
    MultiplyMonotone(page - 1, total, pageSize);
    assert Offset(page, pageSize) >= |rows|;
  }

  lemma MultiplyMonotone(a: int, b: int, c: int)
    requires a >= b && c >= 0
    ensures a * c >= b * c
  {
    assert a * c - b * c == (a - b) * c;
  }

  datatype MyNotificationsResponse = MyNotificationsResponse(totalItems: nat, activities: seq<Notification>, totalPages: nat)

  /** `GetForUserAsync` on one table, as written: the offset is computed in
      32-bit arithmetic, and PostgreSQL checks the offset before the limit.
      A zero page size is excluded: the page count then divides by zero. */
  function ForUser(table: seq<Notification>, user: string, page: int, pageSize: int): (r: Result<MyNotificationsResponse>)
    requires IsInt32(page) && IsInt32(pageSize) && pageSize != 0
  {
    var rows := UserRows(table, user);
    var offset := OffsetAsWritten(page, pageSize);
    if offset < 0 then Err(NegativeOffset)
    else if pageSize < 0 then Err(NegativeLimit)
    else Ok(MyNotificationsResponse(|rows|, PageOf(SortByDate(rows), offset, pageSize), TotalPages(|rows|, pageSize)))
  }

  /** `GetForUserAsync` as evidently intended: the offset is the number of
      rows on all earlier pages, without wrap-around. */
  function ForUserIntended(table: seq<Notification>, user: string, page: int, pageSize: int): (r: Result<MyNotificationsResponse>)
    requires pageSize != 0
  {
    var rows := UserRows(table, user);
    var offset := Offset(page, pageSize);
    if offset < 0 then Err(NegativeOffset)
    else if pageSize < 0 then Err(NegativeLimit)
    else Ok(MyNotificationsResponse(|rows|, PageOf(SortByDate(rows), offset, pageSize), TotalPages(|rows|, pageSize)))
  }

  /** A request succeeds exactly when the page size is positive and the
      written offset is not negative. A page then holds only the user's
      notifications, newest first, at most `pageSize` of them; the total
      counts all of the user's rows whatever the page, and the page count is
      its ceiling. */
  lemma ForUserPage(table: seq<Notification>, user: string, page: int, pageSize: int)
    requires IsInt32(page) && IsInt32(pageSize) && pageSize != 0
    ensures ForUser(table, user, page, pageSize).Ok? <==> pageSize > 0 && OffsetAsWritten(page, pageSize) >= 0
    ensures ForUser(table, user, page, pageSize).Ok? ==>
            var r := ForUser(table, user, page, pageSize).value;
            && r.totalItems == |UserRows(table, user)|
            && r.totalPages == TotalPages(|UserRows(table, user)|, pageSize)
            && |r.activities| <= pageSize
            && NewestFirst(r.activities)
            && forall n :: n in r.activities ==> n in table && n.feedUserId == user
  {
    var offset := OffsetAsWritten(page, pageSize);
    if pageSize > 0 && offset >= 0 {
      var rows := SortByDate(UserRows(table, user));
      SortByDateOrders(UserRows(table, user));
      var p := PageOf(rows, offset, pageSize);
      PageOfKeepsOrder(rows, offset, pageSize);
      forall n | n in p
        ensures n in table && n.feedUserId == user
      {
        assert n in multiset(rows);
        assert n in UserRows(table, user);
      }
    }
  }

  /** Without overflow the request as written is the intended one. */
  lemma ForUserAgreesWithoutOverflow(table: seq<Notification>, user: string, page: int, pageSize: int)
    requires IsInt32(page) && IsInt32(pageSize) && pageSize != 0
    requires IsInt32(page - 1) && IsInt32((page - 1) * pageSize)
    ensures ForUser(table, user, page, pageSize) == ForUserIntended(table, user, page, pageSize)
  {
    OffsetAgreesWithoutOverflow(page, pageSize);
  }

  /** Page 65537 of size 65536 is read as the first page again, where the
      intended request lies past the end of any user's rows below 2^32. */
  lemma ForUserWrapsToFirstPage(table: seq<Notification>, user: string)
    requires |UserRows(table, user)| <= 0x1_0000_0000
    ensures ForUser(table, user, 65537, 65536) == ForUser(table, user, 1, 65536)
    ensures ForUserIntended(table, user, 65537, 65536).Ok?
    ensures ForUserIntended(table, user, 65537, 65536).value.activities == []
  {
    OffsetWrapsToFirstPage();
    assert OffsetAsWritten(1, 65536) == 0;
    IntendedPagesBeyondEmpty(table, user, 65537, 65536);
  }

  /** Page 40000 of size 60000 wraps to a negative offset, so the query as
      written fails where the intended one succeeds. */
  lemma ForUserWrapsNegative(table: seq<Notification>, user: string)
    ensures ForUser(table, user, 40000, 60000) == Err(NegativeOffset)
    ensures ForUserIntended(table, user, 40000, 60000).Ok?
  {
    assert WrapInt32(39999 * 60000) == 39999 * 60000 - 0x1_0000_0000;
  }

  /** With the intended offset, every page after the page count is empty. */
  lemma IntendedPagesBeyondEmpty(table: seq<Notification>, user: string, page: int, pageSize: int)
    requires pageSize > 0 && page > TotalPages(|UserRows(table, user)|, pageSize)
    ensures ForUserIntended(table, user, page, pageSize).Ok?
    ensures ForUserIntended(table, user, page, pageSize).value.activities == []
  {
    PagesBeyondEmpty(SortByDate(UserRows(table, user)), pageSize, page);
  }

  /** A page of rows ordered newest first is itself ordered newest first and
      holds only those rows. */
  lemma PageOfKeepsOrder(rows: seq<Notification>, offset: nat, pageSize: nat)
    requires NewestFirst(rows)
    ensures NewestFirst(PageOf(rows, offset, pageSize))
    ensures forall n :: n in PageOf(rows, offset, pageSize) ==> n in rows
  {
    var p := PageOf(rows, offset, pageSize);
    var from := if offset <= |rows| then offset else |rows|;
    forall i, j | 0 <= i < j < |p|
      ensures p[i].postDate >= p[j].postDate
    {
      assert p[i] == rows[from + i] && p[j] == rows[from + j];
    }
    forall n | n in p
      ensures n in rows
    {
      var k :| 0 <= k < |p| && p[k] == n;
      assert n == rows[from + k];
    }
  }

  /** The notification tables of all tenants; a tenant whose database does
      not exist has no entry. */
  class NotificationRepository {
    var tables: map<string, seq<Notification>>

    constructor(tables: map<string, seq<Notification>>)
      ensures this.tables == tables
    {
      this.tables := tables;
    }

    /** `GetByIdAsync`. */
    method GetByIdAsync(id: Guid, tenantIdentifier: string) returns (r: Result<Option<Notification>>)
      ensures tenantIdentifier !in tables ==> r == Err(NoDatabase)
      ensures tenantIdentifier in tables ==> r == Ok(FindById(tables[tenantIdentifier], id))
    {
      if tenantIdentifier !in tables {
        return Err(NoDatabase);
      }
      return Ok(FindById(tables[tenantIdentifier], id));
    }

    /** `GetForUserAsync`: count the user's rows, compute the page count and
        the offset, then read the page row by row. */
    method GetForUserAsync(userName: string, page: int, pageSize: int, tenantIdentifier: string)
      returns (r: Result<MyNotificationsResponse>)
      requires IsInt32(page) && IsInt32(pageSize) && pageSize != 0
      ensures tenantIdentifier !in tables ==> r == Err(NoDatabase)
      ensures tenantIdentifier in tables ==> r == ForUser(tables[tenantIdentifier], userName, page, pageSize)
    {
      if tenantIdentifier !in tables {
        return Err(NoDatabase);
      }
      var table := tables[tenantIdentifier];
      var totalItems := |UserRows(table, userName)|;
      var offset := OffsetAsWritten(page, pageSize);
      if offset < 0 {
        return Err(NegativeOffset);
      }
      if pageSize < 0 {
        return Err(NegativeLimit);
      }
      var totalPages := TotalPages(totalItems, pageSize);
      var notifications := ReadPage(SortByDate(UserRows(table, userName)), offset, pageSize);
      return Ok(MyNotificationsResponse(totalItems, notifications, totalPages));
    }

    /** The reader loop of `GetForUserAsync`: the rows of the ordered result
        from `offset` on, one at a time, at most `pageSize` of them. */
    method ReadPage(rows: seq<Notification>, offset: nat, pageSize: nat) returns (notifications: seq<Notification>)
      ensures notifications == PageOf(rows, offset, pageSize)
    {
      notifications := [];
      var i := offset;
      while i < |rows| && i < offset + pageSize
        invariant offset <= i <= offset + pageSize
        invariant offset <= |rows| ==> i <= |rows| && notifications == rows[offset..i]
        invariant offset > |rows| ==> i == offset && notifications == []
        decreases |rows| - i
      {
        notifications := notifications + [rows[i]];
        i := i + 1;
      }
    }

    /** `CreateAsync`: a row without a summary cannot be serialized; any
        other row is appended, given a fresh id when its id is empty. */
    method CreateAsync(notification: Notification, tenantIdentifier: string, freshId: Guid) returns (r: Result<()>)
      modifies this
      ensures tenantIdentifier !in old(tables) ==> r == Err(NoDatabase) && tables == old(tables)
      ensures tenantIdentifier in old(tables) && notification.activitySummary.None? ==>
                r == Err(NullReferenceException) && tables == old(tables)
      ensures tenantIdentifier in old(tables) && notification.activitySummary.Some? ==>
                r == Ok(()) && tables == old(tables)[tenantIdentifier := Inserted(old(tables)[tenantIdentifier], notification, freshId)]
    {
      if tenantIdentifier !in tables {
        return Err(NoDatabase);
      }
      var row := notification;
      if row.id == EmptyGuid {
        row := row.(id := freshId);
      }
      if row.activitySummary.None? {
        return Err(NullReferenceException);
      }
      tables := tables[tenantIdentifier := tables[tenantIdentifier] + [row]];
      return Ok(());
    }

    /** `UpdateAsync`: returns the notification it was given. */
    method UpdateAsync(notification: Notification, tenantIdentifier: string) returns (r: Result<Notification>)
      modifies this
      ensures tenantIdentifier !in old(tables) ==> r == Err(NoDatabase) && tables == old(tables)
      ensures tenantIdentifier in old(tables) && notification.activitySummary.None? ==>
                r == Err(NullReferenceException) && tables == old(tables)
      ensures tenantIdentifier in old(tables) && notification.activitySummary.Some? ==>
                r == Ok(notification) && tables == old(tables)[tenantIdentifier := Updated(old(tables)[tenantIdentifier], notification)]
    {
      if tenantIdentifier !in tables {
        return Err(NoDatabase);
      }
      if notification.activitySummary.None? {
        return Err(NullReferenceException);
      }
      tables := tables[tenantIdentifier := Updated(tables[tenantIdentifier], notification)];
      return Ok(notification);
    }

    /** `DeleteAsync`. */
    method DeleteAsync(id: Guid, tenantIdentifier: string) returns (r: Result<()>)
      modifies this
      ensures tenantIdentifier !in old(tables) ==> r == Err(NoDatabase) && tables == old(tables)
      ensures tenantIdentifier in old(tables) ==>
                r == Ok(()) && tables == old(tables)[tenantIdentifier := Deleted(old(tables)[tenantIdentifier], id)]
    {
      if tenantIdentifier !in tables {
        return Err(NoDatabase);
      }
      tables := tables[tenantIdentifier := Deleted(tables[tenantIdentifier], id)];
      return Ok(());
    }

    /** `MarkAsReadAsync`. */
    method MarkAsReadAsync(id: Guid, tenantIdentifier: string) returns (r: Result<()>)
      modifies this
      ensures tenantIdentifier !in old(tables) ==> r == Err(NoDatabase) && tables == old(tables)
      ensures tenantIdentifier in old(tables) ==>
                r == Ok(()) && tables == old(tables)[tenantIdentifier := MarkedRead(old(tables)[tenantIdentifier], id)]
    {
      if tenantIdentifier !in tables {
        return Err(NoDatabase);
      }
      tables := tables[tenantIdentifier := MarkedRead(tables[tenantIdentifier], id)];
      return Ok(());
    }

    /** `GetUnreadCountForUserAsync`. */
    method GetUnreadCountForUserAsync(userId: string, tenantIdentifier: string) returns (r: Result<nat>)
      ensures tenantIdentifier !in tables ==> r == Err(NoDatabase)
      ensures tenantIdentifier in tables ==> r == Ok(|UnreadRows(tables[tenantIdentifier], userId)|)
    {
      if tenantIdentifier !in tables {
        return Err(NoDatabase);
      }
      return Ok(|UnreadRows(tables[tenantIdentifier], userId)|);
    }

    /** `GetTotalCountForUserAsync`. */
    method GetTotalCountForUserAsync(userId: string, tenantIdentifier: string) returns (r: Result<nat>)
      ensures tenantIdentifier !in tables ==> r == Err(NoDatabase)
      ensures tenantIdentifier in tables ==> r == Ok(|UserRows(tables[tenantIdentifier], userId)|)
    {
      if tenantIdentifier !in tables {
        return Err(NoDatabase);
      }
      return Ok(|UserRows(tables[tenantIdentifier], userId)|);
    }
  }
}
