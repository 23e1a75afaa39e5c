/** ListJobs of cmd/api/server.go: filters, LIMIT and OFFSET, and page tokens. */
module Pagination {
  import opened Types
  import opened Watch

  const TWO63: int := 0x8000_0000_0000_0000

  // ---------------------------------------------------------------- decimal tokens

  predicate IsDigit(c: char) {
    '0' <= c <= '9'
  }

  function DigitOf(n: nat): char
    requires n < 10
  {
    "0123456789"[n]
  }

  function ValueOf(c: char): (n: nat)
    requires IsDigit(c)
    ensures n < 10
  {
    c as int - '0' as int
  }

  /** strconv.Itoa for the offsets the server produces. */
  function Itoa(n: nat): (s: string)
    ensures s != ""
    decreases n
  {
    if n < 10 then [DigitOf(n)] else Itoa(n / 10) + [DigitOf(n % 10)]
  }

  /** The value of a digit string, None if it is empty or holds another character. */
  function ParseDigits(s: string): Option<nat>
    decreases |s|
  {
    if s == "" || !IsDigit(s[|s| - 1]) then None
    else if |s| == 1 then Some(ValueOf(s[0]))
    else
      match ParseDigits(s[..|s| - 1])
      case None => None
      case Some(n) => Some(10 * n + ValueOf(s[|s| - 1]))
  }

  /** strconv.Atoi: an optional sign, digits, and the range of a 64-bit int. */
  function Atoi(s: string): Option<int> {
    if s == "" then None
    else
      var negative := s[0] == '-';
      match ParseDigits(if s[0] == '-' || s[0] == '+' then s[1..] else s)
      case None => None
      case Some(n) =>
        var value: int := if negative then 0 - n else n;
        if -TWO63 <= value < TWO63 then Some(value) else None
  }

  lemma {:induction false} ParsesBack(n: nat)
    ensures ParseDigits(Itoa(n)) == Some(n) && IsDigit(Itoa(n)[0])
  {
    if n >= 10 {
      ParsesBack(n / 10);
      assert Itoa(n)[..|Itoa(n)| - 1] == Itoa(n / 10);
    }
  }

  /** A token the server hands out is read back as the offset it stands for. */
  lemma TokenRoundTrip(n: nat)
    requires n < TWO63
    ensures Atoi(Itoa(n)) == Some(n)
  {
    ParsesBack(n);
  }

  // ---------------------------------------------------------------- one page

  /** A row of table tasks with its key. */
  datatype TaskRow = TaskRow(id: JobId, columns: Row)

  /** A job as the API shows it. */
  datatype JobStatus = JobStatus(id: JobId, state: JobState, attempts: int, createdAt: int, updatedAt: int)

  function Shown(row: TaskRow): JobStatus {
    JobStatus(row.id, StateOf(row.columns.status), row.columns.attempts, row.columns.createdAt, row.columns.updatedAt)
  }

  function ShownAll(rows: seq<TaskRow>): (jobs: seq<JobStatus>)
    ensures |jobs| == |rows| && forall i :: 0 <= i < |rows| ==> jobs[i] == Shown(rows[i])
  {
    seq(|rows|, i requires 0 <= i < |rows| => Shown(rows[i]))
  }

  /** Filters at their zero values do not restrict. */
  datatype ListRequest = ListRequest(stateFilter: JobState, priorityFilter: Option<Priority>, typeFilter: string,
                                     pageSize: int, pageToken: string)

  /** jobStateToString, None for the empty string. */
  function StatusNamed(s: JobState): Option<Status> {
    match s
    case QUEUED => Some(Queued)
    case RUNNING => Some(Running)
    case SUCCEEDED => Some(Succeeded)
    case FAILED => Some(Failed)
    case DEADLETTER => Some(DeadLetter)
    case UNSPECIFIED => None
    case UNKNOWN(_) => None
  }

  predicate WantsState(req: ListRequest, row: TaskRow) {
    req.stateFilter != UNSPECIFIED && !req.stateFilter.UNKNOWN? ==> StateOf(row.columns.status) == req.stateFilter
  }

  predicate WantsPriority(req: ListRequest, row: TaskRow) {
    req.priorityFilter.Some? && !req.priorityFilter.value.Other? ==> row.columns.priority == req.priorityFilter.value
  }

  predicate WantsType(req: ListRequest, row: TaskRow) {
    req.typeFilter != "" ==> row.columns.typ == req.typeFilter
  }

  /** What a caller asks for. An enum value without a name does not restrict. */
  predicate Wanted(req: ListRequest, row: TaskRow) {
    WantsState(req, row) && WantsPriority(req, row) && WantsType(req, row)
  }

  /** The law of the filters: a set state, a set priority and a set type each must agree. */
  lemma FilterLaw(req: ListRequest, row: TaskRow)
    ensures Wanted(req, row) <==>
      && (req.typeFilter == "" || row.columns.typ == req.typeFilter)
      && (req.priorityFilter == Some(Critical) ==> row.columns.priority == Critical)
      && (req.priorityFilter == Some(High) ==> row.columns.priority == High)
      && (req.priorityFilter == Some(Default) ==> row.columns.priority == Default)
      && (req.priorityFilter == Some(Low) ==> row.columns.priority == Low)
      && (req.stateFilter == QUEUED ==> row.columns.status == Queued)
      && (req.stateFilter == RUNNING ==> row.columns.status == Running)
      && (req.stateFilter == SUCCEEDED ==> row.columns.status == Succeeded)
      && (req.stateFilter == FAILED ==> row.columns.status == Failed)
      && (req.stateFilter == DEADLETTER ==> row.columns.status == DeadLetter)
  {
  }

  function Matching(req: ListRequest, table: seq<TaskRow>): seq<TaskRow> {
    if table == [] then []
    else (if Wanted(req, table[0]) then [table[0]] else []) + Matching(req, table[1..])
  }

  function TimeOf(row: TaskRow): int {
    row.columns.createdAt
  }

  /** Behind every row that is not older. */
  function Insert(rows: seq<TaskRow>, row: TaskRow): seq<TaskRow> {
    if rows == [] || TimeOf(rows[0]) < TimeOf(row) then [row] + rows
    else [rows[0]] + Insert(rows[1..], row)
  }

  /** ORDER BY created_at DESC; rows of the same time in the order of the table. */
  function NewestFirst(rows: seq<TaskRow>): seq<TaskRow> {
    if rows == [] then [] else Insert(NewestFirst(rows[..|rows| - 1]), rows[|rows| - 1])
  }

  /** The rows that a request is about, in the order of its answers. */
  function Listed(req: ListRequest, table: seq<TaskRow>): seq<TaskRow> {
    NewestFirst(Matching(req, table))
  }

  predicate Ordered(rows: seq<TaskRow>) {
    forall i, j :: 0 <= i < j < |rows| ==> TimeOf(rows[i]) >= TimeOf(rows[j])
  }

  lemma {:induction false} InsertHolds(rows: seq<TaskRow>, row: TaskRow)
    ensures multiset(Insert(rows, row)) == multiset(rows) + multiset{row}
    ensures forall k :: 0 <= k < |Insert(rows, row)| ==> Insert(rows, row)[k] == row || Insert(rows, row)[k] in rows
  {
    if rows != [] && TimeOf(rows[0]) >= TimeOf(row) {
      InsertHolds(rows[1..], row);
      assert rows == [rows[0]] + rows[1..];
    }
  }

  lemma {:induction false} InsertOrders(rows: seq<TaskRow>, row: TaskRow)
    requires Ordered(rows)
    ensures Ordered(Insert(rows, row))
  {
    if rows != [] && TimeOf(rows[0]) >= TimeOf(row) {
      InsertOrders(rows[1..], row);
      InsertHolds(rows[1..], row);
    }
  }

  /** A listing holds exactly the matching rows, newest first. */
  lemma {:induction false} NewestFirstOrders(rows: seq<TaskRow>)
    ensures Ordered(NewestFirst(rows)) && multiset(NewestFirst(rows)) == multiset(rows)
    ensures |NewestFirst(rows)| == |rows|
    decreases |rows|
  {
    if rows != [] {
      var n := |rows| - 1;
      NewestFirstOrders(rows[..n]);
      InsertOrders(NewestFirst(rows[..n]), rows[n]);
      InsertHolds(NewestFirst(rows[..n]), rows[n]);
      assert rows == rows[..n] + [rows[n]];
    }
    assert |multiset(NewestFirst(rows))| == |multiset(rows)|;
  }

  predicate AtDifferentTimes(rows: seq<TaskRow>) {
    forall i, j :: 0 <= i < j < |rows| ==> TimeOf(rows[i]) != TimeOf(rows[j])
  }

  lemma {:induction false} InsertApart(rows: seq<TaskRow>, row: TaskRow)
    requires AtDifferentTimes(rows) && forall k :: 0 <= k < |rows| ==> TimeOf(rows[k]) != TimeOf(row)
    ensures AtDifferentTimes(Insert(rows, row))
  {
    if rows != [] && TimeOf(rows[0]) >= TimeOf(row) {
      InsertApart(rows[1..], row);
      InsertHolds(rows[1..], row);
    }
  }

  lemma {:induction false} NewestFirstApart(rows: seq<TaskRow>)
    requires AtDifferentTimes(rows)
    ensures AtDifferentTimes(NewestFirst(rows))
    decreases |rows|
  {
    if rows != [] {
      var n := |rows| - 1;
      NewestFirstApart(rows[..n]);
      NewestFirstOrders(rows[..n]);
      forall k | 0 <= k < n ensures TimeOf(NewestFirst(rows[..n])[k]) != TimeOf(rows[n]) {
        assert NewestFirst(rows[..n])[k] in multiset(rows[..n]);
      }
      InsertApart(NewestFirst(rows[..n]), rows[n]);
    }
  }

  lemma TailsKeep(rows: seq<TaskRow>)
    requires rows != []
    ensures Ordered(rows) ==> Ordered(rows[1..])
    ensures AtDifferentTimes(rows) ==> AtDifferentTimes(rows[1..])
  {
  }

  lemma SameHead(rows: seq<TaskRow>, other: seq<TaskRow>)
    requires Ordered(rows) && AtDifferentTimes(rows) && Ordered(other) && multiset(other) == multiset(rows)
    requires rows != [] && other != []
    ensures other[0] == rows[0]
  {
    assert other[0] in multiset(rows) && rows[0] in multiset(other);
    var k :| 0 <= k < |rows| && rows[k] == other[0];
    var m :| 0 <= m < |other| && other[m] == rows[0];
    assert TimeOf(other[0]) >= TimeOf(other[m]) && TimeOf(rows[0]) >= TimeOf(rows[k]);
  }

  /** If no two rows are of the same time, there is only one such order. */
  lemma {:induction false} OneOrder(rows: seq<TaskRow>, other: seq<TaskRow>)
    requires Ordered(rows) && AtDifferentTimes(rows) && Ordered(other) && multiset(other) == multiset(rows)
    ensures other == rows
    decreases |rows|
  {
    hide Ordered, AtDifferentTimes;
    assert |multiset(other)| == |multiset(rows)|;
    if rows != [] {
      SameHead(rows, other);
      TailsKeep(rows);
      TailsKeep(other);
      assert rows == [rows[0]] + rows[1..] && other == [other[0]] + other[1..];
      assert multiset(other[1..]) == multiset(other) - multiset{rows[0]} == multiset(rows[1..]);
      OneOrder(rows[1..], other[1..]);
    }
  }

  function PageSize(req: ListRequest): int {
    if req.pageSize == 0 then 50 else if req.pageSize > 1000 then 1000 else req.pageSize
  }

  function OffsetOf(token: string): int {
    if token == "" then 0
    else match Atoi(token) case Some(n) => n case None => 0
  }

  function Min(a: int, b: int): int {
    if a <= b then a else b
  }

  function Slice(rows: seq<TaskRow>, offset: nat, limit: nat): seq<TaskRow> {
    rows[Min(offset, |rows|)..Min(offset + limit, |rows|)]
  }

  datatype Page = Page(jobs: seq<JobStatus>, next: string)

  /** A page as the caller sees it: a slice of the listing, and a token if it is full.
      SQL refuses a negative LIMIT or OFFSET. */
  function PageAt(req: ListRequest, table: seq<TaskRow>): Result<Page> {
    var size, offset := PageSize(req), OffsetOf(req.pageToken);
    if size < 0 || offset < 0 then Failure(Internal)
    else
      var jobs := ShownAll(Slice(Listed(req, table), offset, size));
      Success(Page(jobs, if |jobs| == size then Itoa(offset + size) else ""))
  }

  lemma {:induction false} MatchingSplits(req: ListRequest, a: seq<TaskRow>, b: seq<TaskRow>)
    ensures Matching(req, a + b) == Matching(req, a) + Matching(req, b)
  {
    if a == [] {
      assert a + b == b;
    } else {
      assert (a + b)[1..] == a[1..] + b;
      MatchingSplits(req, a[1..], b);
    }
  }

  // ---------------------------------------------------------------- the query

  datatype Column = StatusColumn | PriorityColumn | TypeColumn

  datatype Value = StatusText(status: Status) | PriorityText(priority: Priority) | Text(s: string) | Number(n: int)

  /** AND column = $pos. */
  datatype Clause = Clause(column: Column, pos: nat)

  /** The text of the query: its clauses, LIMIT $limitPos and OFFSET $offsetPos. */
  datatype Query = Query(clauses: seq<Clause>, limitPos: nat, offsetPos: nat)

  function ValueIn(column: Column, row: TaskRow): Value {
    match column
    case StatusColumn => StatusText(row.columns.status)
    case PriorityColumn => PriorityText(row.columns.priority)
    case TypeColumn => Text(row.columns.typ)
  }

  predicate Meets(clause: Clause, args: seq<Value>, row: TaskRow) {
    1 <= clause.pos <= |args| && args[clause.pos - 1] == ValueIn(clause.column, row)
  }

  ghost predicate AllMeet(clauses: seq<Clause>, args: seq<Value>, row: TaskRow) {
    forall i :: 0 <= i < |clauses| ==> Meets(clauses[i], args, row)
  }

  /** Each placeholder so far has its own argument, in order. */
  predicate Numbered(clauses: seq<Clause>, args: seq<Value>) {
    |args| == |clauses| && forall i :: 0 <= i < |clauses| ==> clauses[i].pos == i + 1
  }

  /** The query and its arguments say what was asked for. */
  ghost predicate Expresses(query: Query, args: seq<Value>, req: ListRequest, limit: int, offset: int) {
    && |args| == |query.clauses| + 2
    && Numbered(query.clauses, args[..|query.clauses|])
    && query.limitPos == |args| - 1 && args[|args| - 2] == Number(limit)
    && query.offsetPos == |args| && args[|args| - 1] == Number(offset)
    && forall row :: AllMeet(query.clauses, args, row) <==> Wanted(req, row)
  }

  /** One more clause, with the next free placeholder, asks for that value, too. */
  lemma ClauseAdds(clauses: seq<Clause>, args: seq<Value>, column: Column, value: Value)
    requires Numbered(clauses, args)
    ensures var clauses', args' := clauses + [Clause(column, |args| + 1)], args + [value];
      && Numbered(clauses', args')
      && forall row :: AllMeet(clauses', args', row) <==> AllMeet(clauses, args, row) && ValueIn(column, row) == value
  {
    var clauses', args' := clauses + [Clause(column, |args| + 1)], args + [value];
    forall row
      ensures AllMeet(clauses', args', row) <==> AllMeet(clauses, args, row) && ValueIn(column, row) == value
    {
      forall i | 0 <= i < |clauses| ensures Meets(clauses'[i], args', row) <==> Meets(clauses[i], args, row) {
        assert args'[i] == args[i];
      }
      assert Meets(clauses'[|clauses|], args', row) <==> ValueIn(column, row) == value;
      if AllMeet(clauses', args', row) {
        assert forall i :: 0 <= i < |clauses| ==> Meets(clauses'[i], args', row);
      }
    }
  }

  /** LIMIT and OFFSET take the last two arguments. */
  lemma LimitAdds(clauses: seq<Clause>, args: seq<Value>, req: ListRequest, limit: int, offset: int)
    requires Numbered(clauses, args) && forall row :: AllMeet(clauses, args, row) <==> Wanted(req, row)
    ensures Expresses(Query(clauses, |args| + 1, |args| + 2), args + [Number(limit)] + [Number(offset)],
                      req, limit, offset)
  {
    var args' := args + [Number(limit)] + [Number(offset)];
    assert args'[..|clauses|] == args;
    forall row ensures AllMeet(clauses, args', row) <==> Wanted(req, row) {
      forall i | 0 <= i < |clauses| ensures Meets(clauses[i], args', row) <==> Meets(clauses[i], args, row) {
      }
      assert AllMeet(clauses, args, row) <==> Wanted(req, row);
    }
  }

  /** The query that ListJobs builds up, filter by filter, with its arguments. */
  method BuildQuery(req: ListRequest, limit: int, offset: int) returns (query: Query, args: seq<Value>)
    ensures Expresses(query, args, req, limit, offset)
  {
    hide Expresses, Numbered, AllMeet;
    var clauses: seq<Clause>, argPos := [], 1;
    args := [];
    assert Numbered(clauses, args) && forall row :: AllMeet(clauses, args, row) by { NoClauses(); }
    if req.stateFilter != UNSPECIFIED {
      var status := StatusNamed(req.stateFilter);
      if status.Some? {
        ClauseAdds(clauses, args, StatusColumn, StatusText(status.value));
        clauses, args := clauses + [Clause(StatusColumn, argPos)], args + [StatusText(status.value)];
        argPos := argPos + 1;
      }
    }
    assert forall row :: AllMeet(clauses, args, row) <==> WantsState(req, row);
    if req.priorityFilter.Some? && !req.priorityFilter.value.Other? {
      ClauseAdds(clauses, args, PriorityColumn, PriorityText(req.priorityFilter.value));
      clauses, args := clauses + [Clause(PriorityColumn, argPos)], args + [PriorityText(req.priorityFilter.value)];
      argPos := argPos + 1;
    }
    assert forall row :: AllMeet(clauses, args, row) <==> WantsState(req, row) && WantsPriority(req, row);
    if req.typeFilter != "" {
      ClauseAdds(clauses, args, TypeColumn, Text(req.typeFilter));
      clauses, args := clauses + [Clause(TypeColumn, argPos)], args + [Text(req.typeFilter)];
      argPos := argPos + 1;
    }
    LimitAdds(clauses, args, req, limit, offset);
    query := Query(clauses, argPos, argPos + 1);
    args := args + [Number(limit)] + [Number(offset)];
  }

  lemma NoClauses()
    ensures Numbered([], []) && forall row :: AllMeet([], [], row)
  {
  }

  lemma EmptyListing(req: ListRequest)
    ensures Listed(req, []) == []
  {
  }

  lemma ListingGrows(req: ListRequest, table: seq<TaskRow>, row: TaskRow)
    ensures Listed(req, table + [row]) ==
      if Wanted(req, row) then Insert(Listed(req, table), row) else Listed(req, table)
  {
    var matching := Matching(req, table);
    MatchingSplits(req, table, [row]);
    assert [row][1..] == [] && matching + [] == matching && (matching + [row])[..|matching|] == matching;
  }

  method MeetsAll(clauses: seq<Clause>, args: seq<Value>, row: TaskRow) returns (all: bool)
    ensures all <==> AllMeet(clauses, args, row)
  {
    all := true;
    var k := 0;
    while k < |clauses|
      invariant 0 <= k <= |clauses|
      invariant all <==> forall j :: 0 <= j < k ==> Meets(clauses[j], args, row)
    {
      all := all && Meets(clauses[k], args, row);
      k := k + 1;
    }
  }

  /** SELECT ... WHERE the clauses hold ORDER BY created_at DESC LIMIT ... OFFSET .... */
  method RunQuery(table: seq<TaskRow>, query: Query, args: seq<Value>,
                  ghost req: ListRequest, ghost limit: int, ghost offset: int) returns (r: Result<seq<TaskRow>>)
    requires Expresses(query, args, req, limit, offset)
    ensures if limit < 0 || offset < 0 then r == Failure(Internal)
            else r == Success(Slice(Listed(req, table), offset, limit))
  {
    hide Listed, Insert, AllMeet, Wanted;
    EmptyListing(req);
    var count, skipped := args[query.limitPos - 1].n, args[query.offsetPos - 1].n;
    if count < 0 || skipped < 0 {
      return Failure(Internal);
    }
    var found, i := [], 0;
    while i < |table|
      invariant 0 <= i <= |table|
      invariant found == Listed(req, table[..i])
    {
      assert table[..i + 1] == table[..i] + [table[i]];
      ListingGrows(req, table[..i], table[i]);
      var all := MeetsAll(query.clauses, args, table[i]);
      if all {
        found := Insert(found, table[i]);
      }
      i := i + 1;
    }
    assert table[..i] == table;
    r := Success(found[Min(skipped, |found|)..Min(skipped + count, |found|)]);
  }

  /** The law of a first page: fifty jobs by default, as many as asked for up to a thousand, fewer
      only if no more match, and a token exactly if the page is full. */
  lemma FirstPageLaw(req: ListRequest, table: seq<TaskRow>)
    requires req.pageToken == "" && req.pageSize >= 0
    ensures PageAt(req, table).Success?
    ensures var page, n := PageAt(req, table).value, |Matching(req, table)|;
      && (req.pageSize == 0 ==>
           |page.jobs| == (if n < 50 then n else 50) && page.next == (if n < 50 then "" else "50"))
      && (1 <= req.pageSize <= 1000 ==>
           |page.jobs| == (if n < req.pageSize then n else req.pageSize)
           && (page.next != "" <==> n >= req.pageSize))
      && (req.pageSize > 1000 ==>
           |page.jobs| == (if n < 1000 then n else 1000) && page.next == (if n < 1000 then "" else "1000"))
  {
    hide Listed, Itoa, Matching;
    ListingIsShorter(req, table);
    RoundTokens();
  }

  lemma RoundTokens()
    ensures Itoa(50) == "50" && Itoa(1000) == "1000"
  {
    assert Itoa(5) == "5" && Itoa(1) == "1";
    assert Itoa(10) == "10";
    assert Itoa(100) == "100";
  }

  /** A token that is no number counts as none, and one below zero is refused. */
  lemma OddTokenLaw(req: ListRequest, table: seq<TaskRow>)
    ensures Atoi(req.pageToken) == None ==> PageAt(req, table) == PageAt(req.(pageToken := ""), table)
    ensures Atoi(req.pageToken).Some? && Atoi(req.pageToken).value < 0 ==> PageAt(req, table) == Failure(Internal)
  {
    SameMatches(req, "", table);
  }

  /** The law of the jobs on a page: each is a task of the table, shown as it is, of the type, the
      priority and the state asked for. */
  lemma PageLaw(req: ListRequest, table: seq<TaskRow>, job: JobStatus)
    requires PageAt(req, table).Success? && job in PageAt(req, table).value.jobs
    ensures exists row ::
      && row in table && row.id == job.id
      && job.attempts == row.columns.attempts
      && job.state == (match row.columns.status
                       case Queued => QUEUED
                       case Running => RUNNING
                       case Succeeded => SUCCEEDED
                       case Failed => FAILED
                       case DeadLetter => DEADLETTER
                       case Retry => UNSPECIFIED
                       case Cancelled => UNSPECIFIED)
      && job.createdAt == row.columns.createdAt && job.updatedAt == row.columns.updatedAt
      && (req.typeFilter == "" || row.columns.typ == req.typeFilter)
      && (req.priorityFilter.Some? && !req.priorityFilter.value.Other? ==>
           row.columns.priority == req.priorityFilter.value)
      && (req.stateFilter == QUEUED ==> row.columns.status == Queued)
      && (req.stateFilter == RUNNING ==> row.columns.status == Running)
      && (req.stateFilter == SUCCEEDED ==> row.columns.status == Succeeded)
      && (req.stateFilter == FAILED ==> row.columns.status == Failed)
      && (req.stateFilter == DEADLETTER ==> row.columns.status == DeadLetter)
  {
    hide Listed;
    var listed := Listed(req, table);
    var size, offset := PageSize(req), OffsetOf(req.pageToken);
    var slice := Slice(listed, offset, size);
    var k :| 0 <= k < |slice| && ShownAll(slice)[k] == job;
    assert slice[k] in listed;
    ListedHolds(req, table, slice[k]);
    FilterLaw(req, slice[k]);
  }

  /** ListJobs over the rows of the table. */
  method ListJobs(req: ListRequest, table: seq<TaskRow>) returns (r: Result<Page>)
    ensures r == PageAt(req, table)
    ensures req.pageSize < 0 ==> r == Failure(Internal)
    ensures req.pageToken == "" && req.pageSize >= 0 ==>
      r.Success?
      && var page, n := r.value, |Matching(req, table)|;
         && (req.pageSize == 0 ==>
              |page.jobs| == (if n < 50 then n else 50) && page.next == (if n < 50 then "" else "50"))
         && (1 <= req.pageSize <= 1000 ==>
              |page.jobs| == (if n < req.pageSize then n else req.pageSize)
              && (page.next != "" <==> n >= req.pageSize))
         && (req.pageSize > 1000 ==>
              |page.jobs| == (if n < 1000 then n else 1000) && page.next == (if n < 1000 then "" else "1000"))
    ensures r.Success? && req.typeFilter != "" ==>
      forall job :: job in r.value.jobs ==>
        exists row :: row in table && row.id == job.id && row.columns.typ == req.typeFilter
  {
    hide Itoa, Atoi, Listed, Expresses, Matching;
    if req.pageToken == "" && req.pageSize >= 0 {
      FirstPageLaw(req, table);
    }
    if PageAt(req, table).Success? {
      forall job | job in PageAt(req, table).value.jobs
        ensures exists row ::
          && row in table && row.id == job.id
          && (req.typeFilter == "" || row.columns.typ == req.typeFilter)
      {
        PageLaw(req, table, job);
      }
    }
    var pageSize := req.pageSize;
    if pageSize == 0 {
      pageSize := 50;
    }
    if pageSize > 1000 {
      pageSize := 1000;
    }
    var offset := 0;
    if req.pageToken != "" {
      var parsed := Atoi(req.pageToken);
      if parsed.Some? {
        offset := parsed.value;
      }
    }
    var query, args := BuildQuery(req, pageSize, offset);
    var rows := RunQuery(table, query, args, req, pageSize, offset);
    if rows.Failure? {
      return Failure(Internal);
    }
    var jobs := [];
    for i := 0 to |rows.value|
      invariant |jobs| == i && forall k :: 0 <= k < i ==> jobs[k] == Shown(rows.value[k])
    {
      var row := rows.value[i];
      jobs := jobs + [JobStatus(row.id, StateOf(row.columns.status), row.columns.attempts,
                                row.columns.createdAt, row.columns.updatedAt)];
    }
    assert jobs == ShownAll(rows.value);
    var next := "";
    if |jobs| == pageSize {
      next := Itoa(offset + pageSize);
    }
    r := Success(Page(jobs, next));
  }

  // ---------------------------------------------------------------- all pages

  function Flatten(pages: seq<seq<JobStatus>>): seq<JobStatus> {
    if pages == [] then [] else pages[0] + Flatten(pages[1..])
  }

  /** pages are what a caller gets who follows the tokens from req until there is none. */
  predicate Follows(req: ListRequest, table: seq<TaskRow>, pages: seq<seq<JobStatus>>)
    decreases |pages|
  {
    pages != []
    && match PageAt(req, table)
       case Failure(_) => false
       case Success(page) =>
         page.jobs == pages[0]
         && if page.next == "" then |pages| == 1
            else Follows(req.(pageToken := page.next), table, pages[1..])
  }

  /** The listing does not depend on the token. */
  lemma {:induction false} SameMatches(req: ListRequest, token: string, table: seq<TaskRow>)
    ensures Matching(req.(pageToken := token), table) == Matching(req, table)
  {
    if table != [] {
      SameMatches(req, token, table[1..]);
    }
  }

  lemma QuotientIs(n: int, d: int, q: int, r: int)
    requires d > 0 && 0 <= r < d && n == q * d + r
    ensures n / d == q
  {
    var k := n / d - q;
    assert n == (n / d) * d + n % d;
    assert k * d == r - n % d;
    assert k >= 1 ==> k * d >= d;
    assert k <= -1 ==> k * d <= -d;
  }

  /** Pages for n rows: the whole ones, and a last one that is not full. */
  function PageCount(n: nat, size: nat): nat
    requires size > 0
  {
    if n < size then 1 else 1 + PageCount(n - size, size)
  }

  lemma {:induction false} PageCountIs(n: nat, size: nat)
    requires size > 0
    ensures PageCount(n, size) == n / size + 1
  {
    if n < size {
      QuotientIs(n, size, 0, n);
    } else {
      PageCountIs(n - size, size);
      var q, r := (n - size) / size, (n - size) % size;
      assert (q + 1) * size == q * size + size;
      QuotientIs(n, size, q + 1, r);
    }
  }

  /** A full page is followed by one that starts where it ends. */
  lemma FullPage(req: ListRequest, table: seq<TaskRow>, offset: nat, page: Page)
    requires req.pageSize >= 0 && |table| < TWO63
    requires OffsetOf(req.pageToken) == offset && PageAt(req, table) == Success(page)
    requires offset <= |Listed(req, table)| && |page.jobs| == PageSize(req)
    ensures offset + PageSize(req) <= |Listed(req, table)|
    ensures page.next != "" && OffsetOf(page.next) == offset + PageSize(req)
    ensures ShownAll(Listed(req, table)[offset..]) == page.jobs + ShownAll(Listed(req, table)[offset + PageSize(req)..])
  {
    hide Listed, Itoa, Atoi;
    ListingIsShorter(req, table);
    TokenRoundTrip(offset + PageSize(req));
  }

  /** From the row at offset on: the pages still to come, one more than the whole ones. */
  lemma {:induction false} FollowFrom(req: ListRequest, table: seq<TaskRow>, offset: nat)
    returns (pages: seq<seq<JobStatus>>)
    requires req.pageSize >= 0 && |table| < TWO63
    requires offset <= |Listed(req, table)| && OffsetOf(req.pageToken) == offset
    ensures Follows(req, table, pages)
    ensures Flatten(pages) == ShownAll(Listed(req, table)[offset..])
    ensures |pages| == PageCount(|Listed(req, table)| - offset, PageSize(req))
    decreases |Listed(req, table)| - offset
  {
    hide Listed, Itoa, Atoi;
    var rows, size := Listed(req, table), PageSize(req);
    var page := PageAt(req, table).value;
    if |page.jobs| < size {
      pages := [page.jobs];
      assert page.jobs == ShownAll(rows[offset..]);
      assert pages[1..] == [];
    } else {
      FullPage(req, table, offset, page);
      SameListing(req, page.next, table);
      var rest := FollowFrom(req.(pageToken := page.next), table, offset + size);
      pages := [page.jobs] + rest;
      assert pages[1..] == rest;
    }
  }

  lemma SameListing(req: ListRequest, token: string, table: seq<TaskRow>)
    ensures Listed(req.(pageToken := token), table) == Listed(req, table)
  {
    SameMatches(req, token, table);
  }

  lemma {:induction false} MatchingIsShorter(req: ListRequest, table: seq<TaskRow>)
    ensures |Matching(req, table)| <= |table|
  {
    if table != [] {
      MatchingIsShorter(req, table[1..]);
    }
  }

  lemma ListingIsShorter(req: ListRequest, table: seq<TaskRow>)
    ensures |Listed(req, table)| == |Matching(req, table)| <= |table|
  {
    MatchingIsShorter(req, table);
    NewestFirstOrders(Matching(req, table));
  }

  /** Following the tokens from the empty one gives the jobs of the listing, in order and each
      exactly once, over n / p + 1 pages, and any caller who follows them gets just these pages. */
  lemma AllPages(req: ListRequest, table: seq<TaskRow>) returns (pages: seq<seq<JobStatus>>)
    requires req.pageSize >= 0 && req.pageToken == "" && |table| < TWO63
    ensures Follows(req, table, pages)
    ensures Flatten(pages) == ShownAll(Listed(req, table))
    ensures |pages| == |Matching(req, table)| / PageSize(req) + 1
    ensures forall other :: Follows(req, table, other) ==> other == pages
  {
    pages := FollowFrom(req, table, 0);
    assert Listed(req, table)[0..] == Listed(req, table);
    ListingIsShorter(req, table);
    PageCountIs(|Listed(req, table)|, PageSize(req));
    forall other | Follows(req, table, other) ensures other == pages {
      FollowedOnce(req, table, pages, other);
    }
  }

  predicate DistinctIds(table: seq<TaskRow>) {
    forall i, j :: 0 <= i < j < |table| ==> table[i].id != table[j].id
  }

  /** What is on the pages are the jobs asked for: each task that matches is there once, with its
      id, nothing else is, and they come newest first. */
  lemma PagesHoldEachJobOnce(req: ListRequest, table: seq<TaskRow>, pages: seq<seq<JobStatus>>)
    requires Follows(req, table, pages) && DistinctIds(table)
    requires req.pageSize >= 0 && req.pageToken == "" && |table| < TWO63
    ensures var jobs := Flatten(pages);
      && (forall i, j :: 0 <= i < j < |jobs| ==> jobs[i].id != jobs[j].id && jobs[i].createdAt >= jobs[j].createdAt)
      && (forall job :: job in jobs <==> exists row :: row in table && Wanted(req, row) && job == Shown(row))
  {
    var all := AllPages(req, table);
    assert all == pages;
    var listed := Listed(req, table);
    NewestFirstOrders(Matching(req, table));
    MatchingDistinct(req, table);
    NewestFirstDistinct(Matching(req, table));
    forall job
      ensures job in ShownAll(listed) <==> exists row :: row in table && Wanted(req, row) && job == Shown(row)
    {
      ShownIsListed(req, table, job);
    }
  }

  lemma ListedHolds(req: ListRequest, table: seq<TaskRow>, row: TaskRow)
    ensures row in Listed(req, table) <==> row in table && Wanted(req, row)
  {
    NewestFirstOrders(Matching(req, table));
    MatchingCounts(req, table, row);
    assert row in Listed(req, table) <==> multiset(Listed(req, table))[row] > 0;
    assert row in table <==> multiset(table)[row] > 0;
  }

  lemma ShownIsListed(req: ListRequest, table: seq<TaskRow>, job: JobStatus)
    ensures job in ShownAll(Listed(req, table))
      <==> exists row :: row in table && Wanted(req, row) && job == Shown(row)
  {
    var listed := Listed(req, table);
    if job in ShownAll(listed) {
      var k :| 0 <= k < |listed| && ShownAll(listed)[k] == job;
      ListedHolds(req, table, listed[k]);
    }
    if row :| row in table && Wanted(req, row) && job == Shown(row) {
      ListedHolds(req, table, row);
      var k :| 0 <= k < |listed| && listed[k] == row;
      assert ShownAll(listed)[k] == job;
    }
  }

  lemma {:induction false} MatchingDistinct(req: ListRequest, table: seq<TaskRow>)
    requires DistinctIds(table)
    ensures DistinctIds(Matching(req, table))
    ensures forall k :: 0 <= k < |Matching(req, table)| ==> Matching(req, table)[k] in table
  {
    if table != [] {
      MatchingDistinct(req, table[1..]);
      assert table == [table[0]] + table[1..];
    }
  }

  lemma {:induction false} InsertDistinct(rows: seq<TaskRow>, row: TaskRow)
    requires DistinctIds(rows) && forall k :: 0 <= k < |rows| ==> rows[k].id != row.id
    ensures DistinctIds(Insert(rows, row))
  {
    if rows != [] && TimeOf(rows[0]) >= TimeOf(row) {
      InsertDistinct(rows[1..], row);
      InsertHolds(rows[1..], row);
    }
  }

  lemma {:induction false} NewestFirstDistinct(rows: seq<TaskRow>)
    requires DistinctIds(rows)
    ensures DistinctIds(NewestFirst(rows))
    decreases |rows|
  {
    if rows != [] {
      var n := |rows| - 1;
      NewestFirstDistinct(rows[..n]);
      NewestFirstOrders(rows[..n]);
      forall k | 0 <= k < n ensures NewestFirst(rows[..n])[k].id != rows[n].id {
        assert NewestFirst(rows[..n])[k] in multiset(rows[..n]);
      }
      InsertDistinct(NewestFirst(rows[..n]), rows[n]);
    }
  }

  lemma {:induction false} MatchingCounts(req: ListRequest, table: seq<TaskRow>, row: TaskRow)
    ensures multiset(Matching(req, table))[row] == if Wanted(req, row) then multiset(table)[row] else 0
  {
    if table != [] {
      assert table == [table[0]] + table[1..];
      MatchingCounts(req, table[1..], row);
    }
  }

  /** If no two matching rows are of the same time, the order in which the table holds its rows
      makes no difference to what the caller gets. */
  lemma PagesIgnoreTableOrder(req: ListRequest, table: seq<TaskRow>, other: seq<TaskRow>)
    requires multiset(other) == multiset(table) && AtDifferentTimes(Matching(req, table))
    ensures PageAt(req, other) == PageAt(req, table)
  {
    forall row ensures multiset(Matching(req, other))[row] == multiset(Matching(req, table))[row] {
      MatchingCounts(req, table, row);
      MatchingCounts(req, other, row);
    }
    NewestFirstOrders(Matching(req, table));
    NewestFirstOrders(Matching(req, other));
    NewestFirstApart(Matching(req, table));
    OneOrder(Listed(req, table), Listed(req, other));
  }

  lemma {:induction false} FollowedOnce(req: ListRequest, table: seq<TaskRow>, pages: seq<seq<JobStatus>>,
                                        other: seq<seq<JobStatus>>)
    requires Follows(req, table, pages) && Follows(req, table, other)
    ensures pages == other
    decreases |pages|
  {
    var page := PageAt(req, table).value;
    if page.next != "" {
      FollowedOnce(req.(pageToken := page.next), table, pages[1..], other[1..]);
      assert pages == [pages[0]] + pages[1..] && other == [other[0]] + other[1..];
    }
  }
}
