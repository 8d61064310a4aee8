/** The audit trail, read a page at a time behind a cursor while it goes on being written. */
module AuditTrail {
  import opened Text

  /** Times are in microseconds, as the column keeps them; an id is a uuid read as a number. */
  datatype Row = Row(
    id: nat,
    createdAt: int,
    eventType: string,
    actor: Option<string>,
    initiatorKind: string,
    targetType: string,
    targetId: Option<string>)

  datatype Cursor = Cursor(createdAt: int, id: nat)

  datatype Query = Query(
    cursor: Option<Cursor>,
    limit: nat,
    eventType: Option<string>,
    actor: Option<string>,
    initiatorKind: Option<string>,
    targetType: Option<string>,
    targetId: Option<string>,
    after: Option<int>,
    before: Option<int>)

  datatype Page = Page(rows: seq<Row>, next: Option<Cursor>)

  // ----- filters -----

  function Kept(parts: seq<string>): seq<string> {
    if parts == [] then []
    else (if Trim(parts[0]) == "" then [] else [Trim(parts[0])]) + Kept(parts[1..])
  }

  /** `requestedValues`: absent or blank is not asking; anything else asks for the values it names. */
  function RequestedValues(raw: Option<string>): Option<seq<string>> {
    if raw.None? || Trim(raw.value) == "" then None else Some(Kept(Split(raw.value, ',')))
  }

  datatype Column = EventType | Actor | InitiatorKind | TargetType | TargetId

  function ValueOf(row: Row, column: Column): Option<string> {
    match column
    case EventType => Some(row.eventType)
    case Actor => row.actor
    case InitiatorKind => Some(row.initiatorKind)
    case TargetType => Some(row.targetType)
    case TargetId => row.targetId
  }

  datatype Condition =
    | Nothing
    | Equals(column: Column, value: string)
    | OneOf(column: Column, values: seq<string>)
    | CreatedAfter(time: int)
    | CreatedBefore(time: int)
    | OlderThan(cursor: Cursor)

  /** Whether a row comes after the cursor's row, newest first. */
  predicate Older(row: Row, cursor: Cursor) {
    row.createdAt < cursor.createdAt || (row.createdAt == cursor.createdAt && row.id < cursor.id)
  }

  predicate Meets(row: Row, condition: Condition) {
    match condition
    case Nothing => false
    case Equals(column, value) => ValueOf(row, column) == Some(value)
    case OneOf(column, values) => ValueOf(row, column).Some? && ValueOf(row, column).value in values
    case CreatedAfter(time) => row.createdAt > time
    case CreatedBefore(time) => row.createdAt < time
    case OlderThan(cursor) => Older(row, cursor)
  }

  /** `matchesRequested`: a set that was asked for and came out empty is met by no row. */
  function MatchesRequested(column: Column, values: Option<seq<string>>): Option<Condition> {
    match values
    case None => None
    case Some(named) =>
      if named == [] then Some(Nothing)
      else if |named| == 1 then Some(Equals(column, named[0]))
      else Some(OneOf(column, named))
  }

  function IfAsked(column: Column, value: Option<string>): Option<Condition> {
    if value.Some? && value.value != "" then Some(Equals(column, value.value)) else None
  }

  function After(time: Option<int>): Option<Condition> {
    if time.Some? then Some(CreatedAfter(time.value)) else None
  }

  function Before(time: Option<int>): Option<Condition> {
    if time.Some? then Some(CreatedBefore(time.value)) else None
  }

  function Below(cursor: Option<Cursor>): seq<Option<Condition>> {
    if cursor.Some? then [Some(OlderThan(cursor.value))] else []
  }

  function Conditions(q: Query): seq<Option<Condition>> {
    [MatchesRequested(EventType, RequestedValues(q.eventType)),
     IfAsked(Actor, q.actor),
     MatchesRequested(InitiatorKind, RequestedValues(q.initiatorKind)),
     IfAsked(TargetType, q.targetType),
     IfAsked(TargetId, q.targetId),
     After(q.after),
     Before(q.before)] + Below(q.cursor)
  }

  /** An optional condition that is left out is met by every row. */
  predicate MeetsOne(row: Row, condition: Option<Condition>) {
    condition.Some? ==> Meets(row, condition.value)
  }

  /** `and(...)`, which drops what is undefined. */
  predicate MeetsAll(row: Row, conditions: seq<Option<Condition>>) {
    forall i | 0 <= i < |conditions| :: MeetsOne(row, conditions[i])
  }

  /** Whether some part, but for the spaces around it, is the value; a blank part is none. */
  ghost predicate NamedBy(parts: seq<string>, value: string) {
    value != "" && exists part | part in parts :: Trim(part) == value
  }

  /** What a comma-separated filter means for a value: it is named, or nothing was asked. */
  ghost predicate Names(raw: Option<string>, value: string) {
    raw.None? || Trim(raw.value) == "" || NamedBy(Split(raw.value, ','), value)
  }

  predicate Asked(raw: Option<string>, value: Option<string>) {
    raw.None? || raw.value == "" || value == raw
  }

  predicate MatchesPlain(row: Row, q: Query) {
    && Asked(q.actor, row.actor) && Asked(q.targetType, Some(row.targetType)) && Asked(q.targetId, row.targetId)
    && (q.after.Some? ==> row.createdAt > q.after.value) && (q.before.Some? ==> row.createdAt < q.before.value)
  }

  /** What a query asks of a row, apart from the page. */
  ghost predicate Matches(row: Row, q: Query) {
    Names(q.eventType, row.eventType) && Names(q.initiatorKind, row.initiatorKind) && MatchesPlain(row, q)
  }

  /** A row a query has still to show. */
  ghost predicate Sought(row: Row, q: Query) {
    Matches(row, q) && (q.cursor.Some? ==> Older(row, q.cursor.value))
  }

  lemma {:induction false} KeptNames(parts: seq<string>, value: string)
    ensures value in Kept(parts) <==> NamedBy(parts, value)
  {
    if parts != [] {
      KeptNames(parts[1..], value);
      assert parts == [parts[0]] + parts[1..];
    }
  }

  lemma RequestedMeans(column: Column, named: seq<string>, row: Row)
    requires ValueOf(row, column).Some?
    ensures MeetsOne(row, MatchesRequested(column, Some(named))) <==> ValueOf(row, column).value in named
  {
  }

  lemma RequestedNames(column: Column, raw: Option<string>, row: Row)
    requires ValueOf(row, column).Some?
    ensures MeetsOne(row, MatchesRequested(column, RequestedValues(raw))) <==> Names(raw, ValueOf(row, column).value)
  {
    if raw.Some? && Trim(raw.value) != "" {
      var named := Kept(Split(raw.value, ','));
      assert RequestedValues(raw) == Some(named);
      RequestedMeans(column, named, row);
      KeptNames(Split(raw.value, ','), ValueOf(row, column).value);
    }
  }

  lemma MeetsBoth(row: Row, some: seq<Option<Condition>>, rest: seq<Option<Condition>>)
    ensures MeetsAll(row, some + rest) <==> MeetsAll(row, some) && MeetsAll(row, rest)
  {
    var all := some + rest;
    if MeetsAll(row, all) {
      forall i | 0 <= i < |some| ensures MeetsOne(row, some[i]) {
        assert all[i] == some[i];
      }
      forall i | 0 <= i < |rest| ensures MeetsOne(row, rest[i]) {
        assert all[|some| + i] == rest[i];
      }
    }
  }

  /** The conditions the reader builds hold of exactly the rows the query means, below its cursor. */
  lemma ConditionsMean(row: Row, q: Query)
    ensures MeetsAll(row, Conditions(q)) <==> Sought(row, q)
  {
    Unrolled(row, MatchesRequested(EventType, RequestedValues(q.eventType)), IfAsked(Actor, q.actor),
             MatchesRequested(InitiatorKind, RequestedValues(q.initiatorKind)), IfAsked(TargetType, q.targetType),
             IfAsked(TargetId, q.targetId), After(q.after), Before(q.before), Below(q.cursor));
    BelowMeans(row, q.cursor);
    NamedFiltersMean(row, q);
    PlainFiltersMean(row, q);
  }

  /** The two filters that take several values. */
  lemma NamedFiltersMean(row: Row, q: Query)
    ensures Names(q.eventType, row.eventType) && Names(q.initiatorKind, row.initiatorKind) <==>
      && MeetsOne(row, MatchesRequested(EventType, RequestedValues(q.eventType)))
      && MeetsOne(row, MatchesRequested(InitiatorKind, RequestedValues(q.initiatorKind)))
  {
    RequestedNames(EventType, q.eventType, row);
    RequestedNames(InitiatorKind, q.initiatorKind, row);
  }

  /** The filters that take one. */
  lemma PlainFiltersMean(row: Row, q: Query)
    ensures MatchesPlain(row, q) <==>
      && MeetsOne(row, IfAsked(Actor, q.actor)) && MeetsOne(row, IfAsked(TargetType, q.targetType))
      && MeetsOne(row, IfAsked(TargetId, q.targetId)) && MeetsOne(row, After(q.after)) && MeetsOne(row, Before(q.before))
  {
    AskedMeans(row, Actor, q.actor);
    AskedMeans(row, TargetType, q.targetType);
    AskedMeans(row, TargetId, q.targetId);
  }

  lemma BelowMeans(row: Row, cursor: Option<Cursor>)
    ensures MeetsAll(row, Below(cursor)) <==> (cursor.Some? ==> Older(row, cursor.value))
  {
    if cursor.Some? { assert Below(cursor)[0] == Some(OlderThan(cursor.value)); }
  }

  lemma AskedMeans(row: Row, column: Column, value: Option<string>)
    ensures MeetsOne(row, IfAsked(column, value)) <==> Asked(value, ValueOf(row, column))
  {
  }

  lemma Unrolled(row: Row, a: Option<Condition>, b: Option<Condition>, c: Option<Condition>, d: Option<Condition>,
                 e: Option<Condition>, f: Option<Condition>, g: Option<Condition>, rest: seq<Option<Condition>>)
    ensures MeetsAll(row, [a, b, c, d, e, f, g] + rest) <==>
      && MeetsOne(row, a) && MeetsOne(row, b) && MeetsOne(row, c) && MeetsOne(row, d)
      && MeetsOne(row, e) && MeetsOne(row, f) && MeetsOne(row, g) && MeetsAll(row, rest)
  {
    var seven := [a, b, c, d, e, f, g];
    MeetsBoth(row, seven, rest);
    assert seven[0] == a && seven[1] == b && seven[2] == c && seven[3] == d && seven[4] == e && seven[5] == f && seven[6] == g;
  }

  // ----- one page -----

  function CursorOf(row: Row): Cursor {
    Cursor(row.createdAt, row.id)
  }

  predicate OneId(table: set<Row>) {
    forall r, s | r in table && s in table && r.id == s.id :: r == s
  }

  predicate Descending(rows: seq<Row>) {
    forall i, j | 0 <= i < j < |rows| :: Older(rows[j], CursorOf(rows[i]))
  }

  /** `where`: the rows that meet the conditions. */
  function Meeting(table: set<Row>, q: Query): set<Row> {
    set r | r in table && MeetsAll(r, Conditions(q))
  }

  /** `order by created_at desc, id desc limit n` over some rows. */
  ghost predicate Newest(rows: seq<Row>, all: set<Row>, n: nat) {
    && Descending(rows) && |rows| <= n
    && (forall r | r in rows :: r in all)
    && (forall r | r in all && r !in rows :: |rows| == n && forall s | s in rows :: Older(r, CursorOf(s)))
  }

  /** What `list` makes of the rows it selected: one more than the page, to know whether there is a next. */
  function PageOf(rows: seq<Row>, limit: nat): Page {
    var page := if |rows| > limit then rows[..limit] else rows;
    Page(page, if |rows| > limit && page != [] then Some(CursorOf(page[|page| - 1])) else None)
  }

  ghost predicate PagedFrom(rows: seq<Row>, page: Page, all: set<Row>, limit: nat) {
    Newest(rows, all, limit + 1) && page == PageOf(rows, limit)
  }

  ghost predicate Pages(page: Page, all: set<Row>, limit: nat) {
    exists rows :: PagedFrom(rows, page, all, limit)
  }

  ghost predicate Lists(page: Page, table: set<Row>, q: Query) {
    Pages(page, Meeting(table, q), q.limit)
  }

  method OrderAndLimit(all: set<Row>, n: nat) returns (rows: seq<Row>)
    requires OneId(all)
    ensures Newest(rows, all, n)
  {
    var left := all;
    rows := [];
    while left != {} && |rows| < n
      invariant |rows| <= n && Descending(rows) && left <= all
      invariant forall r | r in left :: r !in rows
      invariant forall r | r in rows :: r in all
      invariant forall r | r in all :: r in left || r in rows
      invariant forall r, s | r in left && s in rows :: Older(r, CursorOf(s))
      decreases left
    {
      NewestExists(left);
      var newest :| newest in left && forall r | r in left && r != newest :: Older(r, CursorOf(newest));
      rows, left := rows + [newest], left - {newest};
    }
  }

  class Trail {
    var table: set<Row>

    constructor ()
      ensures table == {}
    {
      table := {};
    }

    /** The trail is append-only; the database draws an id no row has. */
    method Insert(row: Row)
      requires OneId(table) && forall r | r in table :: r.id != row.id
      modifies this
      ensures table == old(table) + {row} && OneId(table)
    {
      table := table + {row};
    }

    /** Selects, newest first, up to `n` rows that meet every condition. */
    method Select(q: Query, n: nat) returns (rows: seq<Row>)
      requires OneId(table)
      ensures Newest(rows, Meeting(table, q), n)
    {
      rows := OrderAndLimit(Meeting(table, q), n);
    }

    method List(q: Query) returns (page: Page)
      requires OneId(table)
      ensures Lists(page, table, q)
    {
      var rows := Select(q, q.limit + 1);
      page := PageOf(rows, q.limit);
      assert PagedFrom(rows, page, Meeting(table, q), q.limit);
    }
  }

  lemma NewestExists(rows: set<Row>)
    requires OneId(rows) && rows != {}
    ensures exists newest :: newest in rows && forall r | r in rows && r != newest :: Older(r, CursorOf(newest))
  {
    var r :| r in rows;
    var rest := rows - {r};
    if rest == {} {
      assert rows == {r};
    } else {
      NewestExists(rest);
      var m :| m in rest && forall s | s in rest && s != m :: Older(s, CursorOf(m));
      var newest := if Older(r, CursorOf(m)) then m else r;
      forall s | s in rows && s != newest ensures Older(s, CursorOf(newest)) {
        assert m.id != r.id && (s == r || s in rest);
      }
    }
  }

  // ----- a walk over the pages -----

  /** One read of the walk: the trail as it was then, and the page it gave. */
  datatype Read = Read(table: set<Row>, page: Page)

  /** The walk of somebody following `next` from the query's cursor on, whatever is written in between. */
  ghost predicate IsWalk(walk: seq<Read>, q: Query)
    decreases |walk|
  {
    walk != [] ==>
      && Lists(walk[0].page, walk[0].table, q)
      && (|walk| > 1 ==> walk[0].page.next.Some?)
      && IsWalk(walk[1..], q.(cursor := walk[0].page.next))
  }

  function Shown(walk: seq<Read>): seq<Row> {
    if walk == [] then [] else walk[0].page.rows + Shown(walk[1..])
  }

  /** Nothing more to follow. */
  predicate Ended(walk: seq<Read>) {
    walk != [] && walk[|walk| - 1].page.next.None?
  }

  /** Rows a walk from a query has still to show. */
  ghost function Remaining(table: set<Row>, q: Query): set<Row> {
    set r | r in table && Sought(r, q)
  }

  lemma MeetingRemains(table: set<Row>, q: Query)
    ensures Meeting(table, q) == Remaining(table, q)
  {
    forall r ensures r in Meeting(table, q) <==> r in Remaining(table, q) {
      ConditionsMean(r, q);
    }
  }

  /** A row no page shows: it came after the page in what was selected, or after all of that. */
  lemma LeftOut(rows: seq<Row>, limit: nat, r: Row)
    requires Descending(rows) && |rows| <= limit + 1 && r !in PageOf(rows, limit).rows
    requires r in rows || (|rows| == limit + 1 && forall s | s in rows :: Older(r, CursorOf(s)))
    ensures var next := PageOf(rows, limit).next; if next.Some? then Older(r, next.value) else limit == 0
  {
    var page := PageOf(rows, limit).rows;
    if r in rows {
      var k :| 0 <= k < |rows| && rows[k] == r;
      assert forall j | 0 <= j < |page| :: page[j] == rows[j] && page[j] in page;
    }
    if limit > 0 { assert page[|page| - 1] == rows[|page| - 1]; }
  }

  lemma PageShape(rows: seq<Row>, limit: nat)
    requires Descending(rows)
    ensures var page := PageOf(rows, limit);
      && Descending(page.rows) && |page.rows| <= limit && (forall r | r in page.rows :: r in rows)
      && (page.next.Some? ==>
            page.rows != [] && page.next == Some(CursorOf(page.rows[|page.rows| - 1])) && |page.rows| == limit)
  {
  }

  lemma PagesShow(page: Page, all: set<Row>, limit: nat)
    requires Pages(page, all, limit)
    ensures Descending(page.rows) && |page.rows| <= limit
    ensures forall r | r in page.rows :: r in all
    ensures page.next.Some? ==>
      page.rows != [] && page.next == Some(CursorOf(page.rows[|page.rows| - 1])) && |page.rows| == limit
    ensures forall r | r in all && r !in page.rows :: if page.next.Some? then Older(r, page.next.value) else limit == 0
  {
    var rows :| PagedFrom(rows, page, all, limit);
    PageShape(rows, limit);
    forall r | r in all && r !in page.rows ensures if page.next.Some? then Older(r, page.next.value) else limit == 0 {
      LeftOut(rows, limit, r);
    }
  }

  /** A page shows the newest rows sought; what it leaves is older than where its `next` points. */
  lemma PageFacts(page: Page, table: set<Row>, q: Query)
    requires Lists(page, table, q)
    ensures Descending(page.rows) && |page.rows| <= q.limit
    ensures forall r | r in page.rows :: r in table && Sought(r, q)
    ensures page.next.Some? ==>
      page.rows != [] && page.next == Some(CursorOf(page.rows[|page.rows| - 1])) && |page.rows| == q.limit
    ensures forall r | r in table && Sought(r, q) && r !in page.rows ::
      if page.next.Some? then Older(r, page.next.value) else q.limit == 0
  {
    MeetingRemains(table, q);
    PagesShow(page, Remaining(table, q), q.limit);
  }

  /** Whatever is written or removed between its pages, a walk shows rows newest first and none twice. */
  lemma {:induction false} WalkDescends(walk: seq<Read>, q: Query)
    requires IsWalk(walk, q)
    ensures Descending(Shown(walk))
    ensures q.cursor.Some? ==> forall r | r in Shown(walk) :: Older(r, q.cursor.value)
    ensures forall r | r in Shown(walk) :: Matches(r, q) && exists k :: 0 <= k < |walk| && r in walk[k].table
    decreases |walk|
  {
    if walk != [] {
      var page, rest := walk[0].page, Shown(walk[1..]);
      var onward := q.(cursor := page.next);
      PageFacts(page, walk[0].table, q);
      WalkDescends(walk[1..], onward);
      assert Shown(walk) == page.rows + rest;
      forall r | r in rest ensures Older(r, page.next.value) && Matches(r, q) && exists k :: 0 <= k < |walk| && r in walk[k].table {
        assert Matches(r, onward) && |walk| > 1;
        var k :| 0 <= k < |walk[1..]| && r in walk[1..][k].table;
        assert r in walk[k + 1].table;
      }
      if rest != [] { PageThenRest(page, rest, q); }
      forall r | r in page.rows ensures r in walk[0].table {
      }
    }
  }

  /** What follows a page is older than its last row, which is its cursor, and so than all of it. */
  lemma PageThenRest(page: Page, rest: seq<Row>, q: Query)
    requires Descending(page.rows) && Descending(rest) && page.rows != []
    requires page.next == Some(CursorOf(page.rows[|page.rows| - 1]))
    requires forall r | r in rest :: Older(r, page.next.value)
    requires q.cursor.Some? ==> forall r | r in page.rows :: Older(r, q.cursor.value)
    ensures Descending(page.rows + rest)
    ensures q.cursor.Some? ==> forall r | r in page.rows + rest :: Older(r, q.cursor.value)
  {
    forall j | 0 <= j < |rest| ensures Older(rest[j], page.next.value) {
      assert rest[j] in rest;
    }
    assert page.rows[|page.rows| - 1] in page.rows;
  }

  /** A matching row that is there at every read of a walk to the end is on one of its pages. */
  lemma {:induction false} WalkMissesNothing(walk: seq<Read>, q: Query, row: Row)
    requires IsWalk(walk, q) && Ended(walk) && q.limit >= 1
    requires Sought(row, q)
    requires forall k | 0 <= k < |walk| :: row in walk[k].table
    ensures row in Shown(walk)
    decreases |walk|
  {
    var page := walk[0].page;
    PageFacts(page, walk[0].table, q);
    assert row in walk[0].table;
    if row !in page.rows {
      assert |walk| > 1;
      assert forall k | 0 <= k < |walk[1..]| :: walk[1..][k] == walk[k + 1];
      WalkMissesNothing(walk[1..], q.(cursor := page.next), row);
    }
  }

  lemma {:induction false} AsManyAsRows(rows: seq<Row>)
    requires Descending(rows)
    ensures |set r | r in rows| == |rows|
    decreases |rows|
  {
    if rows != [] {
      var front, last := rows[..|rows| - 1], rows[|rows| - 1];
      AsManyAsRows(front);
      assert (set r | r in rows) == (set r | r in front) + {last};
    }
  }

  /** A page has a next exactly when there was more to show than it holds. */
  lemma NextWhenMore(page: Page, all: set<Row>, limit: nat)
    requires Pages(page, all, limit) && limit >= 1
    ensures page.next.Some? <==> |all| > limit
  {
    var rows :| PagedFrom(rows, page, all, limit);
    var taken := set r | r in rows;
    AsManyAsRows(rows);
    if |rows| == limit + 1 {
      SmallerSet(taken, all);
    } else {
      SmallerSet(all, taken);
    }
  }

  /** A page with a next leaves all but its own rows to show. */
  lemma PageIsTaken(page: Page, all: set<Row>, limit: nat)
    requires Pages(page, all, limit) && page.next.Some?
    ensures |set r | r in all && Older(r, page.next.value)| == |all| - limit
  {
    PagesShow(page, all, limit);
    RowsAreTaken(page.rows, all);
  }

  lemma RowsAreTaken(rows: seq<Row>, all: set<Row>)
    requires Descending(rows) && rows != [] && forall r | r in rows :: r in all
    requires forall r | r in all && r !in rows :: Older(r, CursorOf(rows[|rows| - 1]))
    ensures |set r | r in all && Older(r, CursorOf(rows[|rows| - 1]))| == |all| - |rows|
  {
    var shown := set r | r in rows;
    var left := set r | r in all && Older(r, CursorOf(rows[|rows| - 1]));
    AsManyAsRows(rows);
    assert forall i | 0 <= i < |rows| :: !Older(rows[i], CursorOf(rows[|rows| - 1]));
    assert left == all - shown && shown <= all;
  }

  /** Past a row sought, what remains is what is older than it. */
  lemma OnwardRemains(table: set<Row>, q: Query, last: Row)
    requires Sought(last, q)
    ensures Remaining(table, q.(cursor := Some(CursorOf(last)))) == set r | r in Remaining(table, q) && Older(r, CursorOf(last))
  {
  }

  /** The pages so many rows fill, and one when there are none. */
  function PagesFor(rows: nat, limit: nat): nat
    requires limit >= 1
    decreases rows
  {
    if rows <= limit then 1 else 1 + PagesFor(rows - limit, limit)
  }

  /** It is the count of rows by pages, rounded up. */
  lemma {:induction false} PagesForRoundsUp(rows: nat, limit: nat)
    requires limit >= 1
    ensures rows <= PagesFor(rows, limit) * limit
    ensures rows > 0 ==> (PagesFor(rows, limit) - 1) * limit < rows
    decreases rows
  {
    if rows > limit {
      PagesForRoundsUp(rows - limit, limit);
      var pages := PagesFor(rows - limit, limit);
      assert (pages + 1) * limit == pages * limit + limit && pages * limit == (pages - 1) * limit + limit;
    }
  }

  /** A page is taken off the rows left, which are more than it. */
  predicate TakesAPage(counts: seq<nat>, k: nat, limit: nat)
    requires k + 1 < |counts|
  {
    counts[k] > limit && counts[k + 1] == counts[k] - limit
  }

  /** Rows left at each page: one is taken off each time. */
  predicate FullPages(counts: seq<nat>, limit: nat) {
    forall k: nat | k + 1 < |counts| :: TakesAPage(counts, k, limit)
  }

  lemma {:induction false} CountsFillPages(counts: seq<nat>, limit: nat)
    requires counts != [] && limit >= 1 && FullPages(counts, limit)
    ensures |counts| <= PagesFor(counts[0], limit)
    ensures counts[|counts| - 1] <= limit <==> |counts| == PagesFor(counts[0], limit)
    decreases |counts|
  {
    if |counts| > 1 {
      assert TakesAPage(counts, 0, limit);
      forall k: nat | k + 1 < |counts[1..]| ensures TakesAPage(counts[1..], k, limit) {
        assert TakesAPage(counts, k + 1, limit);
      }
      CountsFillPages(counts[1..], limit);
    }
  }

  /** What a read of the walk asks for: the query, from where the page before it pointed. */
  ghost function QueryAt(walk: seq<Read>, q: Query, k: nat): Query
    requires k < |walk|
  {
    if k == 0 then q else q.(cursor := walk[k - 1].page.next)
  }

  lemma {:induction false} ReadAt(walk: seq<Read>, q: Query, k: nat)
    requires IsWalk(walk, q) && k < |walk|
    ensures Lists(walk[k].page, walk[k].table, QueryAt(walk, q, k))
    ensures k + 1 < |walk| ==> walk[k].page.next.Some?
    decreases k
  {
    if k > 0 {
      var onward := q.(cursor := walk[0].page.next);
      ReadAt(walk[1..], onward, k - 1);
      assert QueryAt(walk[1..], onward, k - 1) == QueryAt(walk, q, k);
    }
  }

  /** A page takes as many rows off what remains as it holds when it is full; it is the last if that is all. */
  lemma PageCounts(page: Page, table: set<Row>, q: Query)
    requires Lists(page, table, q) && q.limit >= 1
    ensures page.next.Some? <==> |Remaining(table, q)| > q.limit
    ensures page.next.Some? ==> |Remaining(table, q.(cursor := page.next))| == |Remaining(table, q)| - q.limit
  {
    var all := Remaining(table, q);
    MeetingRemains(table, q);
    NextWhenMore(page, all, q.limit);
    if page.next.Some? {
      PageIsTaken(page, all, q.limit);
      PagesShow(page, all, q.limit);
      assert page.rows[|page.rows| - 1] in page.rows;
      OnwardRemains(table, q, page.rows[|page.rows| - 1]);
    }
  }

  lemma CountAt(walk: seq<Read>, q: Query, table: set<Row>, k: nat)
    requires IsWalk(walk, q) && k < |walk| && walk[k].table == table && q.limit >= 1
    ensures walk[k].page.next.Some? <==> |Remaining(table, QueryAt(walk, q, k))| > q.limit
    ensures k + 1 < |walk| ==>
      && walk[k].page.next.Some?
      && |Remaining(table, QueryAt(walk, q, k + 1))| == |Remaining(table, QueryAt(walk, q, k))| - q.limit
  {
    ReadAt(walk, q, k);
    PageCounts(walk[k].page, table, QueryAt(walk, q, k));
    if k + 1 < |walk| {
      assert QueryAt(walk, q, k).(cursor := walk[k].page.next) == QueryAt(walk, q, k + 1);
    }
  }

  /** The rows each read of a walk has still to show. */
  ghost function Counts(walk: seq<Read>, q: Query, table: set<Row>): seq<nat> {
    seq(|walk|, k requires 0 <= k < |walk| => |Remaining(table, QueryAt(walk, q, k))|)
  }

  /** On a trail that does not change, a walk ends with just as many pages as its rows fill, and not before. */
  lemma WalkIsShort(walk: seq<Read>, q: Query, table: set<Row>)
    requires IsWalk(walk, q) && walk != [] && q.limit >= 1
    requires forall k | 0 <= k < |walk| :: walk[k].table == table
    ensures |walk| <= PagesFor(|Remaining(table, q)|, q.limit)
    ensures Ended(walk) <==> |walk| == PagesFor(|Remaining(table, q)|, q.limit)
  {
    var counts := Counts(walk, q, table);
    forall k: nat | k + 1 < |counts| ensures TakesAPage(counts, k, q.limit) {
      CountAt(walk, q, table, k);
    }
    CountAt(walk, q, table, |walk| - 1);
    CountsFillPages(counts, q.limit);
  }

  lemma SmallerSet<T>(a: set<T>, b: set<T>)
    requires a <= b
    ensures |a| <= |b|
  {
    assert b == a + (b - a);
  }

  /** On a trail that does not change, a walk to the end shows exactly the filtered rows, each once. */
  lemma WalkIsExact(walk: seq<Read>, q: Query, table: set<Row>)
    requires IsWalk(walk, q) && Ended(walk) && q.limit >= 1 && q.cursor.None?
    requires forall k | 0 <= k < |walk| :: walk[k].table == table
    ensures forall row :: row in Shown(walk) <==> row in table && Matches(row, q)
    ensures forall i, j | 0 <= i < j < |Shown(walk)| :: Shown(walk)[i] != Shown(walk)[j]
  {
    WalkDescends(walk, q);
    forall row ensures row in Shown(walk) <==> row in table && Matches(row, q) {
      if row in table && Matches(row, q) { WalkMissesNothing(walk, q, row); }
    }
    forall i, j | 0 <= i < j < |Shown(walk)| ensures Shown(walk)[i] != Shown(walk)[j] {
      assert Older(Shown(walk)[j], CursorOf(Shown(walk)[i]));
    }
  }

  /** A filter that was asked for and has only blank parts, such as a lone comma. */
  predicate NamesNothing(raw: Option<string>) {
    raw.Some? && Trim(raw.value) != "" && Kept(Split(raw.value, ',')) == []
  }

  /** A filter that was asked for and names nothing shows nothing, rather than everything. */
  lemma EmptyFilterShowsNothing(q: Query, row: Row)
    requires NamesNothing(q.eventType) || NamesNothing(q.initiatorKind)
    ensures !Matches(row, q)
  {
    if NamesNothing(q.eventType) {
      KeptNames(Split(q.eventType.value, ','), row.eventType);
    } else {
      KeptNames(Split(q.initiatorKind.value, ','), row.initiatorKind);
    }
  }
}
