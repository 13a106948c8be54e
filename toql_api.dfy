/** The toql facade functions as `MySqlAsync` implements them (src/toql_api.rs). The work is
    done by toql's generic `load`, `count`, `insert`, `update` and `delete`, which are not part of
    this model: they enter as function parameters. What is modelled is what this crate decides
    around them: the page `load_one` asks for and how it judges the answer, what is passed
    through, and what is dropped. */
module ToqlApi {
  import opened Wrappers
  import opened Errors
  import opened ToqlTypes

  /** toql's `load`: the entities a query selects, optionally restricted to a page, with the
      optional `(unpaged count, unfiltered count)` pair. */
  type LoadFn<!Q, E> = (Q, Option<Page>) -> Result<(seq<E>, Option<(U64, U64)>), ToqlMySqlAsyncError>

  /** toql's `count`. */
  type CountFn<!Q> = Q -> Result<U64, ToqlMySqlAsyncError>

  /** toql's `insert`: stores the entities along the given paths, gives them back with their
      generated keys filled in, and returns a count. */
  type InsertFn<!E, !P> = (seq<E>, P) -> Result<(seq<E>, U64), ToqlMySqlAsyncError>

  /** toql's `update`: writes the given fields of the entities, giving the entities back. */
  type UpdateFn<!E, !F> = (seq<E>, F) -> Result<seq<E>, ToqlMySqlAsyncError>

  /** toql's `delete`: deletes what a query selects and returns a count. */
  type DeleteFn<!Q> = Q -> Result<U64, ToqlMySqlAsyncError>

  /** The page `load_one` asks for: at most two entities, enough to tell one from many. */
  const LoadOnePage: Page := Uncounted(0, 2)

  /** `load_one`: loads at most two entities, then decides by how many came back. */
  function LoadOne<Q, E>(load: LoadFn<Q, E>, query: Q): (r: Result<E, ToqlMySqlAsyncError>)
    ensures var res := load(query, Some(Uncounted(0, 2)));
            && (res.Err? ==> r == Err(res.error))
            && (res.Ok? && |res.value.0| == 0 ==> r == Err(FromToql(NotFound)))
            && (res.Ok? && |res.value.0| == 1 ==> r == Ok(res.value.0[0]))
            && (res.Ok? && |res.value.0| >= 2 ==> r == Err(FromToql(NotUnique)))
  {
    match load(query, Some(LoadOnePage))
    case Err(e) => Err(e)
    case Ok((entities, _)) =>
      if |entities| == 0 then Err(FromToql(NotFound))
      else if |entities| == 1 then Ok(entities[0])
      else Err(FromToql(NotUnique))
  }

  /** `load_many`: no page; only the entities are returned, the counts are dropped. */
  function LoadMany<Q, E>(load: LoadFn<Q, E>, query: Q): (r: Result<seq<E>, ToqlMySqlAsyncError>)
    ensures var res := load(query, None);
            && (res.Err? ==> r == Err(res.error))
            && (res.Ok? ==> r == Ok(res.value.0))
  {
    match load(query, None)
    case Err(e) => Err(e)
    case Ok((entities, _)) => Ok(entities)
  }

  /** `load_page`: the backend's entities and counts, passed on unchanged. */
  function LoadPage<Q, E>(load: LoadFn<Q, E>, query: Q, page: Page)
    : (r: Result<(seq<E>, Option<(U64, U64)>), ToqlMySqlAsyncError>)
    ensures r == load(query, Some(page))
  {
    load(query, Some(page))
  }

  /** The entities of `all` that a page starting at `start` with room for `records` holds. */
  function Window<E>(all: seq<E>, start: nat, records: nat): (w: seq<E>)
    ensures |w| <= records
    ensures start + records <= |all| ==> w == all[start..start + records]
  {
    var lo := if start <= |all| then start else |all|;
    var hi := if start + records <= |all| then start + records else |all|;
    all[lo..hi]
  }

  /** Two entities are enough: when paging `load` yields the window of the unpaged result,
      `load_one` finds exactly the entity `load_many` would find alone, reports `NotFound`
      exactly when `load_many` finds none and `NotUnique` exactly when it finds several. */
  lemma LoadOneAgreesWithLoadMany<Q, E>(load: LoadFn<Q, E>, query: Q)
    requires load(query, None).Ok? && load(query, Some(LoadOnePage)).Ok?
    requires load(query, Some(LoadOnePage)).value.0 == Window(load(query, None).value.0, 0, 2)
    ensures var all := LoadMany(load, query).value;
            && (LoadOne(load, query).Ok? <==> |all| == 1)
            && (LoadOne(load, query).Ok? ==> LoadOne(load, query).value == all[0])
            && (LoadOne(load, query) == Err(FromToql(NotFound)) <==> |all| == 0)
            && (LoadOne(load, query) == Err(FromToql(NotUnique)) <==> |all| >= 2)
  {
    var all := LoadMany(load, query).value;
    var w := Window(all, 0, 2);
    if |all| >= 2 {
      assert |w| == 2;
    } else {
      assert w == all;
    }
  }

  /** `count`: toql's count, passed through. */
  function Count<Q>(count: CountFn<Q>, query: Q): (r: Result<U64, ToqlMySqlAsyncError>)
    ensures r == count(query)
  {
    count(query)
  }

  /** `insert_many`: toql's insert on the given entities. */
  function InsertMany<E, P>(insert: InsertFn<E, P>, entities: seq<E>, paths: P)
    : (r: Result<(seq<E>, U64), ToqlMySqlAsyncError>)
    ensures r == insert(entities, paths)
  {
    insert(entities, paths)
  }

  /** `insert_one`: exactly `insert_many` on a one-element slice holding the entity. */
  function InsertOne<E, P>(insert: InsertFn<E, P>, entity: E, paths: P)
    : (r: Result<(seq<E>, U64), ToqlMySqlAsyncError>)
    ensures r == InsertMany(insert, [entity], paths)
  {
    InsertMany(insert, [entity], paths)
  }

  /** `update_many`: toql's update on the given entities. */
  function UpdateMany<E, F>(update: UpdateFn<E, F>, entities: seq<E>, fields: F)
    : (r: Result<seq<E>, ToqlMySqlAsyncError>)
    ensures r == update(entities, fields)
  {
    update(entities, fields)
  }

  /** `update_one`: exactly `update_many` on a one-element slice holding the entity. */
  function UpdateOne<E, F>(update: UpdateFn<E, F>, entity: E, fields: F)
    : (r: Result<seq<E>, ToqlMySqlAsyncError>)
    ensures r == UpdateMany(update, [entity], fields)
  {
    UpdateMany(update, [entity], fields)
  }

  /** `delete_one`: deletes what the key's query selects; on success reports 0 whatever was
      deleted, on failure passes the error on. */
  function DeleteOne<K, Q>(delete: DeleteFn<Q>, toQuery: K -> Q, key: K): (r: Result<U64, ToqlMySqlAsyncError>)
    ensures r.Ok? <==> delete(toQuery(key)).Ok?
    ensures r.Ok? ==> r.value == 0
    ensures r.Err? ==> r.error == delete(toQuery(key)).error
  {
    match delete(toQuery(key))
    case Err(e) => Err(e)
    case Ok(_) => Ok(0)
  }

  /** `delete_many`: deletes what the query selects; on success reports 0 whatever was deleted,
      on failure passes the error on. */
  function DeleteMany<Q>(delete: DeleteFn<Q>, query: Q): (r: Result<U64, ToqlMySqlAsyncError>)
    ensures r.Ok? <==> delete(query).Ok?
    ensures r.Ok? ==> r.value == 0
    ensures r.Err? ==> r.error == delete(query).error
  {
    match delete(query)
    case Err(e) => Err(e)
    case Ok(_) => Ok(0)
  }
}
