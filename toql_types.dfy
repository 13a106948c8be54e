/** The toql types this crate exchanges with the toql core: SQL arguments, statements,
    page requests and the per-connection context. Their behaviour lives in toql and is
    not part of this model; only their shape is. */
module ToqlTypes {

  const U64_MAX: nat := 0xFFFF_FFFF_FFFF_FFFF

  /** Rust's `u64`. */
  type U64 = n: nat | n <= U64_MAX

  /** toql's `SqlArg`: a value bound to a statement placeholder (the variants this model needs). */
  datatype SqlArg =
    | U64(n: U64)
    | I64(i: int)
    | Str(s: string)
    | Bool(b: bool)
    | Null

  /** toql's `Sql`: a statement with its placeholder arguments. */
  datatype Sql = Sql(stmt: string, args: seq<SqlArg>)

  /** toql's `Page`: where a page starts and how many records it holds; `Counted` also asks for totals. */
  datatype Page =
    | Uncounted(start: U64, records: U64)
    | Counted(start: U64, records: U64)

  /** toql's table alias style. */
  datatype AliasFormat = Canonical | MediumIndex | ShortIndex | TinyIndex

  /** toql's `Context`: the roles of the caller, auxiliary parameters and the alias style. */
  datatype Context = Context(roles: set<string>, auxParams: map<string, SqlArg>, aliasFormat: AliasFormat)

  /** `Context::default()`: no roles, no auxiliary parameters. */
  const DefaultContext: Context := Context({}, map[], Canonical)
}
