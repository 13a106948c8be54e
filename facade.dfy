/** The public connection wrapper `MySqlAsync` (src/lib.rs): it owns the backend and gives
    access to the caller's context, the roles and auxiliary parameters toql consults. */
module ToqlMySqlAsync {
  import opened ToqlTypes
  import opened Driver
  import opened Backend

  class MySqlAsync {
    const backend: MySqlAsyncBackend

    /** `with_context`: a wrapper holding exactly the given connection, cache and context. */
    constructor WithContext(conn: Conn, cache: Cache, context: Context)
      ensures fresh(backend)
      ensures backend.conn == conn && backend.cache == cache && backend.context == context
    {
      backend := new MySqlAsyncBackend(conn, cache, context);
    }

    /** `from`: the same as `with_context` with the default context (no roles, no aux params). */
    static method From(conn: Conn, cache: Cache) returns (m: MySqlAsync)
      ensures fresh(m) && fresh(m.backend)
      ensures m.backend.conn == conn && m.backend.cache == cache && m.backend.context == DefaultContext
    {
      m := new MySqlAsync.WithContext(conn, cache, DefaultContext);
    }

    /** `set_roles`: the new set replaces the old one (no merging); nothing else changes. */
    method SetRoles(roles: set<string>)
      modifies backend
      ensures Roles() == roles
      ensures AuxParams() == old(AuxParams()) && AliasFormat() == old(AliasFormat())
      ensures backend.context == old(backend.context).(roles := roles)
    {
      backend.context := backend.context.(roles := roles);
    }

    /** `conn`: the connection the wrapper was built with. */
    method GetConn() returns (c: Conn)
      ensures c == backend.conn
    {
      c := backend.conn;
    }

    function Roles(): (r: set<string>)
      reads this, backend
      ensures r == backend.Roles()
    {
      backend.context.roles
    }

    function AliasFormat(): (r: ToqlTypes.AliasFormat)
      reads this, backend
      ensures r == backend.AliasFormat()
    {
      backend.context.aliasFormat
    }

    function AuxParams(): (r: map<string, SqlArg>)
      reads this, backend
      ensures r == backend.AuxParams()
    {
      backend.context.auxParams
    }

    /** `set_aux_param`: `name` now maps to `value`, overwriting any earlier value; every other
        key, the roles and the alias format are unchanged. */
    method SetAuxParam(name: string, value: SqlArg)
      modifies backend
      ensures name in AuxParams() && AuxParams()[name] == value
      ensures forall k :: k in old(AuxParams()) && k != name ==> k in AuxParams() && AuxParams()[k] == old(AuxParams())[k]
      ensures forall k :: k in AuxParams() ==> k == name || k in old(AuxParams())
      ensures Roles() == old(Roles()) && AliasFormat() == old(AliasFormat())
      ensures backend.context == old(backend.context).(auxParams := old(AuxParams())[name := value])
    {
      backend.context := backend.context.(auxParams := backend.context.auxParams[name := value]);
    }
  }
}
