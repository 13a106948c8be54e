/** The crate's error type and the conversions into it (src/error.rs). */
module Errors {

  /** Errors raised by the MySQL driver; their inner structure is the driver's business. */
  datatype DriverError = DriverError(detail: string)

  /** A failed conversion of one column value into a Rust value. */
  datatype FromValueError = CannotConvert(detail: string)

  /** An error of toql's SQL builder. */
  datatype SqlBuilderError = SqlBuilderError(detail: string)

  /** toql's deserialisation errors; only the end-of-stream case is raised by this crate. */
  datatype DeserializeError = StreamEnd

  /** The toql errors this crate raises or passes on.
      `Unmodelled` stands for an error produced by toql code that is not part of this model
      (its `val!` macro, its `load`, `insert`, `update`, `delete` and `count` functions);
      `origin` names the call that raised it. */
  datatype ToqlError =
    | NotFound
    | NotUnique
    | Deserialize(cause: DeserializeError)
    | SqlBuilder(builder: SqlBuilderError)
    | Unmodelled(origin: string)

  /** The crate's own error type: exactly three variants. */
  datatype ToqlMySqlAsyncError =
    | ToqlError(toql: ToqlError)
    | MySqlError(driver: DriverError)
    | FromValueError(conversion: FromValueError)

  /** `From<Error>`: a driver error keeps its identity inside `MySqlError`. */
  function FromDriver(err: DriverError): (r: ToqlMySqlAsyncError)
    ensures r.MySqlError? && r.driver == err
  {
    MySqlError(err)
  }

  /** `From<FromValueError>`. */
  function FromConversion(err: FromValueError): (r: ToqlMySqlAsyncError)
    ensures r.FromValueError? && r.conversion == err
  {
    FromValueError(err)
  }

  /** `From<ToqlError>`. */
  function FromToql(err: ToqlError): (r: ToqlMySqlAsyncError)
    ensures r.ToqlError? && r.toql == err
  {
    ToqlError(err)
  }

  /** toql's own `From<SqlBuilderError> for ToqlError`, which wraps the builder error. */
  function ToqlFromSqlBuilder(err: SqlBuilderError): (r: ToqlError)
    ensures r.SqlBuilder? && r.builder == err
  {
    SqlBuilder(err)
  }

  /** `From<SqlBuilderError>`: first into a toql error, then into the `ToqlError` variant. */
  function FromSqlBuilder(err: SqlBuilderError): (r: ToqlMySqlAsyncError)
    ensures r == FromToql(ToqlFromSqlBuilder(err))
  {
    FromToql(ToqlFromSqlBuilder(err))
  }

  /** The error the decoder reports when the selection stream or the row runs out. */
  const StreamEndError: ToqlMySqlAsyncError := FromToql(Deserialize(StreamEnd))

  /** Each conversion loses nothing (it is injective), and conversions from different
      source types never meet, except that a builder error and the toql error wrapping it agree. */
  lemma ConversionsInjectiveAndDisjoint(d1: DriverError, d2: DriverError, v1: FromValueError, v2: FromValueError,
                                        t1: ToqlError, t2: ToqlError, b1: SqlBuilderError, b2: SqlBuilderError)
    ensures FromDriver(d1) == FromDriver(d2) ==> d1 == d2
    ensures FromConversion(v1) == FromConversion(v2) ==> v1 == v2
    ensures FromToql(t1) == FromToql(t2) ==> t1 == t2
    ensures FromSqlBuilder(b1) == FromSqlBuilder(b2) ==> b1 == b2
    ensures FromDriver(d1) != FromConversion(v1) && FromDriver(d1) != FromToql(t1)
    ensures FromConversion(v1) != FromToql(t1)
    ensures FromSqlBuilder(b1) == FromToql(t1) <==> t1 == SqlBuilder(b1)
  {
  }
}
