/** A stand-in for the `mysql_async` connection the crate drives: every statement issued is
    appended to a log, and the server's answers come from a script, one reply per statement,
    so that the order of statements can be stated. */
module Driver {
  import opened Wrappers
  import opened Errors
  import opened ToqlTypes

  /** A non-NULL column value as the driver hands it over. */
  datatype Value = UInt(n: nat) | Int(i: int) | Text(s: string)

  /** One result row, column by column; SQL NULL is `None`. */
  type DriverRow = seq<Option<Value>>

  /** What the server answers to one statement. */
  datatype Reply = Failed(err: DriverError) | Answer(rows: seq<DriverRow>)

  /** The answer to any statement once the script has run out. */
  const Closed: Reply := Failed(DriverError("connection closed"))

  function Head(replies: seq<Reply>): Reply {
    if replies == [] then Closed else replies[0]
  }

  function Rest(replies: seq<Reply>): seq<Reply> {
    if replies == [] then [] else replies[1..]
  }

  /** The replies still to come after `n` more statements. */
  function Skip(replies: seq<Reply>, n: nat): seq<Reply> {
    if n >= |replies| then [] else replies[n..]
  }

  /** The reply to the k-th statement issued from now on. */
  function ReplyAt(replies: seq<Reply>, k: nat): Reply {
    if k < |replies| then replies[k] else Closed
  }

  /** `exec_drop` / `query_drop`: the rows are discarded. */
  function DropResult(reply: Reply): Result<(), DriverError> {
    match reply
    case Failed(e) => Err(e)
    case Answer(_) => Ok(())
  }

  /** `query_first::<u64>` / `exec_first::<u64>`: the first column of the first row, if any row came back. */
  function FirstU64(reply: Reply): Result<Option<U64>, DriverError> {
    match reply
    case Failed(e) => Err(e)
    case Answer(rows) =>
      if rows == [] then Ok(None)
      else if |rows[0]| > 0 && rows[0][0].Some? && rows[0][0].value.UInt? && rows[0][0].value.n <= U64_MAX
      then Ok(Some(rows[0][0].value.n))
      else Err(DriverError("FromRowError"))
  }

  /** `exec`: every row, in the order the server sent them. */
  function AllRows(reply: Reply): Result<seq<DriverRow>, DriverError> {
    match reply
    case Failed(e) => Err(e)
    case Answer(rows) => Ok(rows)
  }

  class Conn {
    /** Every statement issued on this connection, oldest first. */
    var log: seq<Sql>
    /** The server's replies to the statements still to come, in order. */
    var replies: seq<Reply>

    constructor (script: seq<Reply>)
      ensures log == [] && replies == script
    {
      log := [];
      replies := script;
    }

    method ExecDrop(sql: Sql) returns (r: Result<(), DriverError>)
      modifies this
      ensures log == old(log) + [sql] && replies == Rest(old(replies))
      ensures r == DropResult(Head(old(replies)))
    {
      r := DropResult(Head(replies));
      log, replies := log + [sql], Rest(replies);
    }

    /** A text-protocol statement without arguments. */
    method QueryFirst(stmt: string) returns (r: Result<Option<U64>, DriverError>)
      modifies this
      ensures log == old(log) + [Sql(stmt, [])] && replies == Rest(old(replies))
      ensures r == FirstU64(Head(old(replies)))
    {
      r := FirstU64(Head(replies));
      log, replies := log + [Sql(stmt, [])], Rest(replies);
    }

    method ExecFirst(sql: Sql) returns (r: Result<Option<U64>, DriverError>)
      modifies this
      ensures log == old(log) + [sql] && replies == Rest(old(replies))
      ensures r == FirstU64(Head(old(replies)))
    {
      r := FirstU64(Head(replies));
      log, replies := log + [sql], Rest(replies);
    }

    method Exec(sql: Sql) returns (r: Result<seq<DriverRow>, DriverError>)
      modifies this
      ensures log == old(log) + [sql] && replies == Rest(old(replies))
      ensures r == AllRows(Head(old(replies)))
    {
      r := AllRows(Head(replies));
      log, replies := log + [sql], Rest(replies);
    }
  }
}
