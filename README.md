# toql_mysql_async in Dafny

A model of the MySQL adapter of the Toql ORM. Most of the crate forwards calls to the
`mysql_async` driver. The model covers the parts that make decisions of their own:

- **Row decoder** (`row.dfy`, module `RowDecoder`). The `from_row!` macro generates `forward` and
  `from_row` for every scalar type. They are stated once, generic in the target type, with the
  driver's per-type conversion as a function parameter. A `SelectIter` object is the `&mut`
  iterator over selection flags. The column cursor `&mut usize` is an in/out parameter. The row is
  an immutable value.
- **Backend** (`backend.dfy`, module `Backend`). The `MySqlAsyncBackend` class holds the
  connection, the cache and the context. It covers `insert_sql` (key reconstruction from
  `ROW_COUNT()` and `LAST_INSERT_ID()`), `prepare_page`, the count reads, `select_sql`,
  `execute_sql` and the context accessors. `decimal.dfy` holds Rust's `{}` formatting of an
  unsigned integer, which the `LIMIT` fragment uses.
- **Connection wrapper** (`facade.dfy`, module `ToqlMySqlAsync`). The `MySqlAsync` class with
  its constructors, role and aux-param setters and getters.
- **Facade functions** (`toql_api.dfy`, module `ToqlApi`). toql's `load`, `count`, `insert`,
  `update` and `delete` enter as function parameters. The model states what this crate decides
  around them.
- **Errors** (`errors.dfy`, module `Errors`). The three-variant error type and its `From`
  conversions.

`driver.dfy` (module `Driver`) stands in for the `mysql_async` connection. A `Conn` object
appends every statement it is given to `log`. It answers from a script, `replies`, one reply per
statement. Once the script runs out it answers "connection closed". This makes the order of
statements something a contract can state. `toql_types.dfy` gives the shapes of the toql types
the crate uses (`SqlArg`, `Sql`, `Page`, `Context`). `wrappers.dfy` holds `Option` and `Result`.

Facts about the code that the contracts fix:

- `insert_sql` returns the keys in **ascending** order: `start_id, start_id + 1, …`, starting
  from `LAST_INSERT_ID()`.
- `prepare_page` writes `LIMIT<start>,<records>` with no spaces (`LIMIT10,20`), and the same
  modifier and fragment for counted and uncounted pages. Whether toql's SQL builder puts a
  separator in front of the fragment is not part of this model.
- A selected column past the end of the row fails with toql's `DeserializeError::StreamEnd`.
  A column that does not convert fails with the `FromValueError` variant.
- When no row comes back, `select_count_sql` reads 0. The two reads of `insert_sql` fail
  through toql's `val!` macro when no row comes back.

## Model

| member | source | states |
|---|---|---|
| `RowDecoder.ForwardCount` | src/row.rs:16-27 | `forward` succeeds exactly when a flag is left. It then counts the columns the field occupies (the number of selected flags in that one-flag slice). Otherwise it fails with `StreamEnd` |
| `RowDecoder.Forward` | src/row.rs:16-27 | consumes exactly one selection flag (none once exhausted), never reads the row, and returns `ForwardCount` |
| `RowDecoder.Decode` | src/row.rs:37-53 | on failure the cursor stays put. On success it moves by exactly what `forward` counts. `StreamEnd` happens iff no flag is left or a selected column is past the row's end, so a missing column is never read as NULL. `FromValueError` happens iff a selected, present, non-NULL column fails to convert, and carries the conversion's error. `Ok(None)` iff the field is unselected or NULL. A selected, present column that converts to `v` gives `Ok(Some(v))` and moves the cursor by 1, and `Ok(Some(v))` happens only then. No other error is possible |
| `RowDecoder.FromRow` | src/row.rs:29-54 | consumes exactly one flag whatever the outcome. Its result and the cursor it leaves are those of `Decode` |
| `RowDecoder.DecodeFieldsAdvance` | src/row.rs:22-53 | decoding a sequence of fields, each with its own conversion (so of mixed types), successfully consumes exactly one flag per field. It moves the cursor by the number of selected flags among them and yields one value per field |
| `RowDecoder.ShortStreamFails` | src/row.rs:37-42 | a selection stream holding fewer flags than the fields to decode, of whatever types, always makes decoding fail |
| `RowDecoder.AllSelectedRoundTrip` | src/row.rs:43-50 | with every field selected and the row holding the values, each stored by an encoder that its own field's conversion reads back for that stored value (no demand on other values, so mixed types and range-checked fields are covered), decoding gives back exactly those values (NULLs included). It uses one column and one flag per field |
| `Backend.WrapRows` | src/backend.rs:56 | wrapping keeps the number and order of rows: the k-th `Row` holds the k-th driver row |
| `Backend.MySqlAsyncBackend.SelectSql` | src/backend.rs:49-58 | issues exactly the given statement. On success it returns one `Row` per driver row, in order. A driver failure becomes `MySqlError` |
| `Backend.LimitClause` | src/backend.rs:69 | the fragment starts with `LIMIT` and contains no space |
| `Backend.LimitClauseRoundTrip` | src/backend.rs:69 | reading the fragment back (keyword, numeral, comma, numeral) recovers exactly the page's start and size |
| `Decimal.Dec` | src/backend.rs:69 | `{}` formatting of an unsigned integer gives a non-empty string of decimal digits. It starts with `0` exactly when the number is 0, so there are no leading zeros |
| `Decimal.ValueOfDec` | src/backend.rs:69 | the formatted numeral reads back as the number |
| `Backend.MySqlAsyncBackend.PreparePage` | src/backend.rs:62-70 | sets the modifier to `SQL_CALC_FOUND_ROWS` and the extra fragment to `LimitClause(start, records)`. Counted and uncounted pages are treated alike, and no other part of the build result changes |
| `Backend.MySqlAsyncBackend.SelectCountSql` | src/backend.rs:77-83 | issues exactly the given statement. Returns the first row's value, or 0 when no row came back. A driver failure becomes `MySqlError` |
| `Backend.MySqlAsyncBackend.SelectMaxPageSizeSql` | src/backend.rs:73-75 | ignores its argument and issues only `SELECT FOUND_ROWS()`, whose value (0 if no row) it returns |
| `Backend.MySqlAsyncBackend.ExecuteSql` | src/backend.rs:85-90 | issues exactly the given statement and returns `Ok(())` unless the driver fails |
| `Backend.GeneratedKeys` | src/backend.rs:100-106 | given that `start_id + affected_rows` fits in a `u64`, returns exactly `affected_rows` keys. The k-th key is `SqlArg::U64(start_id + k)`, so the keys ascend strictly with no gaps (empty when no row was affected) |
| `Backend.MySqlAsyncBackend.InsertSql` | src/backend.rs:92-110 | issues the insert, then `SELECT ROW_COUNT()`, then `SELECT LAST_INSERT_ID()`, with nothing between them, stopping after the first the driver fails. Driver failures become `MySqlError`. A read that returns no row fails through `val!`. Otherwise the result is `ROW_COUNT()` keys, ascending and contiguous from `LAST_INSERT_ID()` |
| `Backend.MySqlAsyncBackend.Roles` | src/backend.rs:39-41 | reads the roles of the context |
| `Backend.MySqlAsyncBackend.AliasFormat` | src/backend.rs:42-44 | reads the alias format of the context |
| `Backend.MySqlAsyncBackend.AuxParams` | src/backend.rs:45-47 | reads the auxiliary parameters of the context |
| `Backend.MySqlAsyncBackend.constructor` | src/lib.rs:75-79 | the backend holds exactly the given connection, cache and context |
| `ToqlMySqlAsync.MySqlAsync.WithContext` | src/lib.rs:73-81 | the wrapper's new backend holds exactly the given connection, cache and context |
| `ToqlMySqlAsync.MySqlAsync.From` | src/lib.rs:68-71 | the same as `WithContext` with the default context: no roles, no aux params |
| `ToqlMySqlAsync.MySqlAsync.SetRoles` | src/lib.rs:84-87 | afterwards `Roles()` is exactly the new set: it is replaced, not merged. Aux params, alias format, connection and cache are unchanged |
| `ToqlMySqlAsync.MySqlAsync.GetConn` | src/lib.rs:89-91 | returns the connection the wrapper was built with |
| `ToqlMySqlAsync.MySqlAsync.Roles` | src/lib.rs:98-100 | the wrapper's roles are the backend's, read without change |
| `ToqlMySqlAsync.MySqlAsync.AliasFormat` | src/lib.rs:102-104 | the wrapper's alias format is the backend's, read without change |
| `ToqlMySqlAsync.MySqlAsync.AuxParams` | src/lib.rs:106-108 | the wrapper's aux params are the backend's, read without change |
| `ToqlMySqlAsync.MySqlAsync.SetAuxParam` | src/lib.rs:109-111 | `name` now maps to `value`, overwriting any earlier value. Every other key keeps its value, no other key appears, and roles and alias format are unchanged |
| `ToqlApi.LoadOne` | src/toql_api.rs:80-92 | loads with the page `Uncounted(0, 2)`. Zero entities give `NotFound`, exactly one gives that entity, two or more give `NotUnique`. A load error is passed on |
| `ToqlApi.LoadOneAgreesWithLoadMany` | src/toql_api.rs:86-91 | when paging yields the window of the unpaged result, `load_one` succeeds iff `load_many` finds exactly one entity, and then returns it. It reports `NotFound` iff `load_many` finds none and `NotUnique` iff it finds several |
| `ToqlApi.LoadMany` | src/toql_api.rs:99-107 | loads with no page and returns only the entity list, dropping the counts. A load error is passed on |
| `ToqlApi.LoadPage` | src/toql_api.rs:114-123 | returns the backend's `(entities, counts)` for the given page unchanged |
| `ToqlApi.Count` | src/toql_api.rs:128-134 | returns toql's count unchanged |
| `ToqlApi.InsertMany` | src/toql_api.rs:54-59 | returns toql's insert on the given entities unchanged |
| `ToqlApi.InsertOne` | src/toql_api.rs:43-48 | is exactly `insert_many` on a one-element slice holding the entity |
| `ToqlApi.UpdateMany` | src/toql_api.rs:69-75 | returns toql's update on the given entities unchanged |
| `ToqlApi.UpdateOne` | src/toql_api.rs:62-67 | is exactly `update_many` on a one-element slice holding the entity |
| `ToqlApi.DeleteOne` | src/toql_api.rs:135-141 | succeeds iff toql's delete of the key's query succeeds, and then reports 0 whatever was deleted. Otherwise it passes the error on |
| `ToqlApi.DeleteMany` | src/toql_api.rs:143-148 | succeeds iff toql's delete succeeds, and then reports 0 whatever was deleted. Otherwise it passes the error on |
| `Errors.FromDriver` | src/error.rs:13-17 | a driver error becomes `MySqlError` holding it |
| `Errors.FromConversion` | src/error.rs:18-22 | a conversion error becomes `FromValueError` holding it |
| `Errors.FromToql` | src/error.rs:23-27 | a toql error becomes `ToqlError` holding it |
| `Errors.ToqlFromSqlBuilder` | src/error.rs:30 | toql's conversion of a builder error wraps that error |
| `Errors.FromSqlBuilder` | src/error.rs:28-32 | a builder error is first turned into a toql error, which is then wrapped in `ToqlError` |
| `Errors.ConversionsInjectiveAndDisjoint` | src/error.rs:6-32 | each conversion is injective. Conversions from different source types never give the same error, except that a builder error and the toql error wrapping it agree |

## Left out

- `src/queryable.rs`, `src/executable.rs`: one-line delegations to the driver's `Queryable` for four connection types. The `Driver.Conn` class stands in for all of them.
- `src/test.rs` needs a live MySQL server. Its insert-then-load equality depends on the database and is not modelled.
- `src/prelude.rs`, `src/result.rs`: re-exports and a type alias. `src/access.rs`: a macro that unwraps the driver's `get_opt`, a panic path over a foreign API.
- `registry` and `registry_mut` (src/backend.rs:32-38, src/lib.rs:93-97) and the `RwLock` behind them: lock acquisition and poisoning are concurrency. The `Cache` class has no fields.
- async/await and `BoxFuture`: every operation runs to completion in order.
- The per-type conversions of `mysql_common` (dates, strings, integer range checks, `f32`/`f64`, `bool`) are one abstract conversion parameter.
- `crate::sql_arg::values_from_ref`: the connection logs statements with their toql arguments unconverted.
- toql's `val!` macro (src/backend.rs:98-99): which toql error variant it raises is not known to this model. The model uses `ToqlError::Unmodelled` naming the read.
- toql's `load`, `count`, `insert`, `update` and `delete` are function parameters. Their updates to the entities in place are modelled as entities handed back.
- toql's `Context::default()`: no roles and no aux params, as for any default set and map. Its alias format is taken to be `Canonical`.
- toql's `BuildResult` is reduced to the modifier and the extra fragment that `prepare_page` sets.
- `Backend.MySqlAsyncBackend.InsertSql`: requires that `LAST_INSERT_ID() + ROW_COUNT()` fits in a `u64`. The overflow of the final `id += 1` (a panic in debug builds, wrap-around in release builds) is not modelled.
- `Vec::with_capacity(affected_rows as usize)` only reserves memory and is not modelled.
- When a scalar read returns a first column that is not an unsigned 64-bit value, the stand-in driver reports a driver error. The real driver's behaviour there is not part of this model.
