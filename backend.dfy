/** The MySQL specifics of the backend toql drives (src/backend.rs): running statements,
    paging with `SQL_CALC_FOUND_ROWS` / `FOUND_ROWS()`, and rebuilding the keys a
    multi-row insert generated from `ROW_COUNT()` and `LAST_INSERT_ID()`. */
module Backend {
  import opened Wrappers
  import opened Errors
  import opened ToqlTypes
  import opened Driver
  import opened Decimal
  import RowDecoder

  /** The statement modifier that makes MySQL remember the unlimited row count. */
  const CalcFoundRows: string := "SQL_CALC_FOUND_ROWS"
  /** The follow-up reads, all without arguments. */
  const FoundRowsQuery: string := "SELECT FOUND_ROWS()"
  const RowCountQuery: string := "SELECT ROW_COUNT()"
  const LastInsertIdQuery: string := "SELECT LAST_INSERT_ID()"

  /** toql's mapper cache, shared by reference; the registry behind its lock is not modelled. */
  class Cache {
    constructor ()
    {
    }
  }

  /** toql's `BuildResult`, reduced to the two parts the backend sets. */
  class BuildResult {
    var modifier: string
    var extra: string

    constructor ()
      ensures modifier == "" && extra == ""
    {
      modifier, extra := "", "";
    }
  }

  /** Wrapping each driver row in the crate's `Row` newtype keeps the rows and their order. */
  function WrapRows(rows: seq<DriverRow>): (r: seq<RowDecoder.Row>)
    ensures |r| == |rows|
    ensures forall k :: 0 <= k < |rows| ==> r[k].columns == rows[k]
  {
    if rows == [] then [] else [RowDecoder.Row(rows[0])] + WrapRows(rows[1..])
  }

  /** The paging fragment `LIMIT<start>,<records>`, exactly as formatted: no spaces anywhere. */
  function LimitClause(start: U64, records: U64): (s: string)
    ensures |s| > 5 && s[..5] == "LIMIT"
    ensures forall k :: 0 <= k < |s| ==> s[k] != ' '
  {
    "LIMIT" + Dec(start) + "," + Dec(records)
  }

  /** The first position of `c` in `s`, if any. */
  function IndexOf(s: string, c: char): (r: Option<nat>)
    ensures r.Some? ==> r.value < |s| && s[r.value] == c && forall k :: 0 <= k < r.value ==> s[k] != c
    ensures r.None? ==> forall k :: 0 <= k < |s| ==> s[k] != c
  {
    if s == [] then None
    else if s[0] == c then Some(0)
    else match IndexOf(s[1..], c)
      case None => None
      case Some(k) => Some(k + 1)
  }

  /** How a reader of the fragment recovers the two numbers: the keyword, a numeral,
      a comma, a numeral. */
  function ParseLimit(s: string): Option<(nat, nat)> {
    if |s| < 5 || s[..5] != "LIMIT" then None
    else
      var rest := s[5..];
      match IndexOf(rest, ',')
      case None => None
      case Some(c) =>
        if IsNumeral(rest[..c]) && IsNumeral(rest[c + 1..])
        then Some((ValueOf(rest[..c]), ValueOf(rest[c + 1..])))
        else None
  }

  /** The fragment carries the page's start and size unambiguously. */
  lemma LimitClauseRoundTrip(start: U64, records: U64)
    ensures ParseLimit(LimitClause(start, records)) == Some((start, records))
  {
    var a, b := Dec(start), Dec(records);
    var s := LimitClause(start, records);
    var rest := s[5..];
    assert rest == a + "," + b;
    var c := IndexOf(rest, ',');
    assert rest[|a|] == ',';
    assert forall k :: 0 <= k < |a| ==> rest[k] == a[k] && IsDigit(a[k]);
    assert c == Some(|a|);
    assert rest[..|a|] == a;
    assert rest[|a| + 1..] == b;
    ValueOfDec(start);
    ValueOfDec(records);
  }

  /** The scalar follow-up reads of an insert would not push `id` past `u64::MAX`:
      the loop's final `id += 1` needs `LAST_INSERT_ID() + ROW_COUNT()` to fit. */
  predicate KeyRangeFits(replies: seq<Reply>) {
    var count := FirstU64(ReplyAt(replies, 1));
    var last := FirstU64(ReplyAt(replies, 2));
    (count.Ok? && count.value.Some? && last.Ok? && last.value.Some?) ==>
      last.value.value + count.value.value <= U64_MAX
  }

  /** The statements `insert_sql` issues, in order: the insert, then `ROW_COUNT()`, then
      `LAST_INSERT_ID()`, nothing between them, stopping after the first the driver fails. */
  function InsertStatements(sql: Sql, replies: seq<Reply>): seq<Sql> {
    if DropResult(ReplyAt(replies, 0)).Err? then [sql]
    else if FirstU64(ReplyAt(replies, 1)).Err? then [sql, Sql(RowCountQuery, [])]
    else [sql, Sql(RowCountQuery, []), Sql(LastInsertIdQuery, [])]
  }

  /** The keys of a multi-row insert: `affectedRows` consecutive ids from `startId` upward,
      as MySQL hands out auto-increment values to the rows of one insert. */
  method GeneratedKeys(affectedRows: U64, startId: U64) returns (ids: seq<SqlArg>)
    requires startId + affectedRows <= U64_MAX
    ensures |ids| == affectedRows
    ensures forall k :: 0 <= k < |ids| ==> ids[k] == U64(startId + k)
    ensures forall j, k :: 0 <= j < k < |ids| ==> ids[j].n < ids[k].n
  {
    ids := [];
    var id: U64 := startId;
    for i := 0 to affectedRows
      invariant |ids| == i && id == startId + i
      invariant forall k :: 0 <= k < i ==> ids[k] == U64(startId + k)
    {
      ids := ids + [U64(id)];
      id := id + 1;
    }
  }

  /** The state toql's generic code drives: a connection, the caller's context and the cache. */
  class MySqlAsyncBackend {
    const conn: Conn
    const cache: Cache
    var context: Context

    constructor (conn: Conn, cache: Cache, context: Context)
      ensures this.conn == conn && this.cache == cache && this.context == context
    {
      this.conn := conn;
      this.cache := cache;
      this.context := context;
    }

    function Roles(): (r: set<string>)
      reads this
      ensures r == context.roles
    {
      context.roles
    }

    function AliasFormat(): (r: ToqlTypes.AliasFormat)
      reads this
      ensures r == context.aliasFormat
    {
      context.aliasFormat
    }

    function AuxParams(): (r: map<string, SqlArg>)
      reads this
      ensures r == context.auxParams
    {
      context.auxParams
    }

    /** Runs a query and returns one `Row` per driver row, count and order kept. */
    method SelectSql(sql: Sql) returns (r: Result<seq<RowDecoder.Row>, ToqlMySqlAsyncError>)
      modifies conn
      ensures conn.log == old(conn.log) + [sql] && conn.replies == Rest(old(conn.replies))
      ensures var rows := AllRows(Head(old(conn.replies)));
              (rows.Err? ==> r == Err(FromDriver(rows.error)))
              && (rows.Ok? ==>
                    r.Ok? && |r.value| == |rows.value|
                    && forall k :: 0 <= k < |rows.value| ==> r.value[k].columns == rows.value[k])
    {
      var rows := conn.Exec(sql);
      match rows
      case Err(e) =>
        r := Err(FromDriver(e));
      case Ok(rs) =>
        r := Ok(WrapRows(rs));
    }

    /** Adds `SQL_CALC_FOUND_ROWS` and the `LIMIT` fragment; counted and uncounted pages are
        treated alike, and nothing else changes. */
    method PreparePage(result: BuildResult, page: Page)
      modifies result`modifier, result`extra
      ensures result.modifier == CalcFoundRows
      ensures result.extra == LimitClause(page.start, page.records)
    {
      var (start, numberOfRecords) := match page
        case Uncounted(start, records) => (start, records)
        case Counted(start, records) => (start, records);
      result.modifier := CalcFoundRows;
      result.extra := LimitClause(start, numberOfRecords);
    }

    /** Reads one count: the value of the first row, or 0 when no row comes back. */
    method SelectCountSql(sql: Sql) returns (r: Result<U64, ToqlMySqlAsyncError>)
      modifies conn
      ensures conn.log == old(conn.log) + [sql] && conn.replies == Rest(old(conn.replies))
      ensures var read := FirstU64(Head(old(conn.replies)));
              (read.Err? ==> r == Err(FromDriver(read.error)))
              && (read == Ok(None) ==> r == Ok(0))
              && (read.Ok? && read.value.Some? ==> r == Ok(read.value.value))
    {
      var row := conn.ExecFirst(sql);
      match row
      case Err(e) =>
        r := Err(FromDriver(e));
      case Ok(v) =>
        r := Ok(v.UnwrapOr(0));
    }

    /** The unlimited row count of the previous paged query: whatever statement is passed,
        only `SELECT FOUND_ROWS()` is issued. */
    method SelectMaxPageSizeSql(sql: Sql) returns (r: Result<U64, ToqlMySqlAsyncError>)
      modifies conn
      ensures conn.log == old(conn.log) + [Sql(FoundRowsQuery, [])] && conn.replies == Rest(old(conn.replies))
      ensures var read := FirstU64(Head(old(conn.replies)));
              (read.Err? ==> r == Err(FromDriver(read.error)))
              && (read == Ok(None) ==> r == Ok(0))
              && (read.Ok? && read.value.Some? ==> r == Ok(read.value.value))
    {
      r := SelectCountSql(Sql(FoundRowsQuery, []));
    }

    /** Runs a statement and discards what it returns. */
    method ExecuteSql(sql: Sql) returns (r: Result<(), ToqlMySqlAsyncError>)
      modifies conn
      ensures conn.log == old(conn.log) + [sql] && conn.replies == Rest(old(conn.replies))
      ensures var done := DropResult(Head(old(conn.replies)));
              (done.Err? ==> r == Err(FromDriver(done.error))) && (done.Ok? ==> r == Ok(()))
    {
      var done := conn.ExecDrop(sql);
      match done
      case Err(e) =>
        r := Err(FromDriver(e));
      case Ok(_) =>
        r := Ok(());
    }

    /** Runs an insert and rebuilds the keys it generated: `ROW_COUNT()` of them, ascending and
        contiguous from `LAST_INSERT_ID()`. */
    method InsertSql(sql: Sql) returns (r: Result<seq<SqlArg>, ToqlMySqlAsyncError>)
      requires KeyRangeFits(conn.replies)
      modifies conn
      ensures conn.log == old(conn.log) + InsertStatements(sql, old(conn.replies))
      ensures conn.replies == Skip(old(conn.replies), |InsertStatements(sql, old(conn.replies))|)
      ensures var exec := DropResult(ReplyAt(old(conn.replies), 0));
              var count := FirstU64(ReplyAt(old(conn.replies), 1));
              var last := FirstU64(ReplyAt(old(conn.replies), 2));
              if exec.Err? then r == Err(FromDriver(exec.error))
              else if count.Err? then r == Err(FromDriver(count.error))
              else if last.Err? then r == Err(FromDriver(last.error))
              else if count.value.None? then r == Err(FromToql(Unmodelled("val!(affected_rows)")))
              else if last.value.None? then r == Err(FromToql(Unmodelled("val!(last_insert_id)")))
              else r.Ok? && |r.value| == count.value.value
                   && forall k :: 0 <= k < |r.value| ==> r.value[k].U64? && r.value[k].n == last.value.value + k
    {
      ghost var replies := conn.replies;
      var done := conn.ExecDrop(sql);
      if done.Err? {
        r := Err(FromDriver(done.error));
        return;
      }
      assert Head(conn.replies) == ReplyAt(replies, 1);
      var affectedRows := conn.QueryFirst(RowCountQuery);
      if affectedRows.Err? {
        r := Err(FromDriver(affectedRows.error));
        return;
      }
      assert Head(conn.replies) == ReplyAt(replies, 2);
      var lastInsertId := conn.QueryFirst(LastInsertIdQuery);
      if lastInsertId.Err? {
        r := Err(FromDriver(lastInsertId.error));
        return;
      }
      if affectedRows.value.None? {
        r := Err(FromToql(Unmodelled("val!(affected_rows)")));
        return;
      }
      if lastInsertId.value.None? {
        r := Err(FromToql(Unmodelled("val!(last_insert_id)")));
        return;
      }
      var ids := GeneratedKeys(affectedRows.value.value, lastInsertId.value.value);
      r := Ok(ids);
    }
  }
}
