/**
 * `EditSettings.edit_database`: for the MySQL database kind, locate the
 * module's `DATABASES` assignment, remove it, and insert at its index a
 * freshly built assignment that reads the connection settings from the
 * environment. Any other database kind leaves the body unchanged.
 */
module DatabasePatch {
  import opened Results
  import opened Ast
  import opened PyList

  const DATABASES := "DATABASES"
  const MYSQL := "mysql"
  const MYSQL_ENGINE := "django.db.backends.mysql"

  /** The Python exceptions `edit_database` can raise while locating its target. */
  datatype EditError =
    | DatabasesUnbound       // no match: the local holding the match is read unassigned
    | DatabasesNotTopLevel   // the match is nested, so it is not in the module body

  /** `os.getenv('<variable>')` */
  function GetEnv(variable: string): Expr
  {
    Call(Attribute(Name("os"), "getenv"), [Str(variable)], [])
  }

  /** The keys of the `'default'` connection, in the order the patcher writes them. */
  const CONNECTION_KEYS: seq<string> := ["ENGINE", "NAME", "USER", "PASSWORD", "HOST", "PORT"]

  /** `CONNECTION_KEYS` as the string-constant keys of a dict display. */
  function ConnectionKeys(): (keys: seq<Expr>)
    ensures |keys| == |CONNECTION_KEYS|
    ensures forall k :: 0 <= k < |keys| ==> keys[k] == Str(CONNECTION_KEYS[k])
  {
    seq(|CONNECTION_KEYS|, k requires 0 <= k < |CONNECTION_KEYS| => Str(CONNECTION_KEYS[k]))
  }

  /** Each connection key occurs once, so looking it up yields the value in its position. */
  lemma ConnectionLookup(values: seq<Expr>, k: nat)
    requires |values| == |CONNECTION_KEYS| && k < |CONNECTION_KEYS|
    ensures DictGet(ConnectionKeys(), values, CONNECTION_KEYS[k]) == Some(values[k])
  {
    var keys := ConnectionKeys();
    assert forall i, j :: 0 <= i < j < |CONNECTION_KEYS| ==> CONNECTION_KEYS[i] != CONNECTION_KEYS[j];
    DictGetUniqueKey(keys, values, CONNECTION_KEYS[k], k);
  }

  /** The `'default'` connection: the MySQL engine, then one environment lookup per setting. */
  function MysqlConnection(): (d: Expr)
    ensures d.Dict? && d.keys == ConnectionKeys() && |d.values| == |d.keys|
    ensures DictGet(d.keys, d.values, "ENGINE") == Some(Str(MYSQL_ENGINE))
    ensures DictGet(d.keys, d.values, "NAME") == Some(GetEnv("DB_NAME"))
    ensures DictGet(d.keys, d.values, "USER") == Some(GetEnv("MYSQL_USER"))
    ensures DictGet(d.keys, d.values, "PASSWORD") == Some(GetEnv("MYSQL_PASSWORD"))
    ensures DictGet(d.keys, d.values, "HOST") == Some(GetEnv("MYSQL_HOST"))
    ensures DictGet(d.keys, d.values, "PORT") == Some(GetEnv("MYSQL_PORT"))
  {
    var values := [Str(MYSQL_ENGINE), GetEnv("DB_NAME"), GetEnv("MYSQL_USER"), GetEnv("MYSQL_PASSWORD"),
                   GetEnv("MYSQL_HOST"), GetEnv("MYSQL_PORT")];
    ConnectionLookup(values, 0);
    ConnectionLookup(values, 1);
    ConnectionLookup(values, 2);
    ConnectionLookup(values, 3);
    ConnectionLookup(values, 4);
    ConnectionLookup(values, 5);
    Dict(ConnectionKeys(), values)
  }

  /**
   * The replacement node: `DATABASES = {'default': <connection>}`, a dict
   * with the single key `'default'`.
   */
  function MysqlDatabases(): (s: Stmt)
    ensures AssignsTo(s, DATABASES) && s.targets == [NameTarget(DATABASES)]
    ensures s.value.Dict? && s.value.keys == [Str("default")] && |s.value.values| == 1
    ensures DictGet(s.value.keys, s.value.values, "default") == Some(MysqlConnection())
  {
    Assign([NameTarget(DATABASES)], Dict([Str("default")], [MysqlConnection()]))
  }

  /** Some top-level statement holds a `DATABASES` assignment nested somewhere inside it. */
  predicate NestedDatabases(body: Document)
  {
    exists i :: 0 <= i < |body| && AnyAssignsWithin(Children(body[i]), DATABASES)
  }

  /** The index of the last top-level `DATABASES` assignment, if there is one. */
  function LastDatabasesIndex(body: Document): (r: Option<nat>)
    ensures r.Some? ==> r.value < |body| && AssignsTo(body[r.value], DATABASES)
    ensures r.Some? ==> forall j :: r.value < j < |body| ==> !AssignsTo(body[j], DATABASES)
    ensures r.None? ==> forall j :: 0 <= j < |body| ==> !AssignsTo(body[j], DATABASES)
  {
    if |body| == 0 then None
    else if AssignsTo(body[|body| - 1], DATABASES) then Some(|body| - 1)
    else
      var r := LastDatabasesIndex(body[..|body| - 1]);
      assert forall j :: 0 <= j < |body| - 1 ==> body[..|body| - 1][j] == body[j];
      r
  }

  /**
   * What the search in `edit_database` yields. The walk visits every
   * top-level statement before any nested one; each match is looked up in
   * the module body, which fails for a nested match, and the last match
   * visited wins. Finding nothing leaves the result variable unbound.
   */
  function LocateDatabases(body: Document): (r: Result<nat, EditError>)
    ensures r.Success? <==> !NestedDatabases(body) && exists j :: 0 <= j < |body| && AssignsTo(body[j], DATABASES)
    ensures r.Success? ==> r.value < |body| && AssignsTo(body[r.value], DATABASES)
    ensures r.Success? ==> forall j :: r.value < j < |body| ==> !AssignsTo(body[j], DATABASES)
    ensures r == Failure(DatabasesNotTopLevel) <==> NestedDatabases(body)
  {
    if NestedDatabases(body) then Failure(DatabasesNotTopLevel)
    else match LastDatabasesIndex(body)
      case None => Failure(DatabasesUnbound)
      case Some(i) => Success(i)
  }

  /**
   * The search loop itself, over the statement nodes in walk order: first
   * the module body (a match there records its index), then a queue of the
   * nested statements, where a match makes the index lookup fail.
   */
  method WalkForDatabases(body: Document) returns (r: Result<nat, EditError>)
    ensures r == LocateDatabases(body)
  {
    var found: Option<nat> := None;
    var queue: seq<Stmt> := [];
    var i := 0;
    while i < |body|
      invariant 0 <= i <= |body|
      invariant found == LastDatabasesIndex(body[..i])
      invariant AnyAssignsWithin(queue, DATABASES) <==>
                exists k :: 0 <= k < i && AnyAssignsWithin(Children(body[k]), DATABASES)
    {
      assert body[..i + 1][..i] == body[..i];
      if AssignsTo(body[i], DATABASES) {
        found := Some(i);
      }
      AnyAssignsWithinConcat(queue, Children(body[i]), DATABASES);
      queue := queue + Children(body[i]);
      i := i + 1;
    }
    assert body[..i] == body;
    while queue != []
      invariant AnyAssignsWithin(queue, DATABASES) <==> NestedDatabases(body)
      decreases NodeCount(queue)
    {
      var s := queue[0];
      assert NodeCount(queue) == StmtCount(s) + NodeCount(queue[1..]);
      assert StmtCount(s) == 1 + NodeCount(Children(s));
      if AssignsTo(s, DATABASES) {
        assert AssignsWithin(queue[0], DATABASES);
        return Failure(DatabasesNotTopLevel);
      }
      assert queue == [s] + queue[1..];
      AnyAssignsWithinConcat([s], queue[1..], DATABASES);
      assert AssignsWithin(s, DATABASES) <==> AnyAssignsWithin(Children(s), DATABASES);
      AnyAssignsWithinConcat(queue[1..], Children(s), DATABASES);
      NodeCountConcat(queue[1..], Children(s));
      queue := queue[1..] + Children(s);
    }
    match found
    case None => r := Failure(DatabasesUnbound);
    case Some(k) => r := Success(k);
  }

  /**
   * `edit_database` for database kind `dbType`. For MySQL the located
   * statement is replaced in place; "postgres" returns without raising and
   * any other kind falls through, both leaving the body as it was.
   */
  function EditDatabase(body: Document, dbType: Option<string>): (r: Result<Document, EditError>)
    ensures dbType != Some(MYSQL) ==> r == Success(body)
    ensures dbType == Some(MYSQL) ==>
              match LocateDatabases(body)
              case Failure(e) => r == Failure(e)
              case Success(i) =>
                && r.Success?
                && |r.value| == |body|
                && r.value[i] == MysqlDatabases()
                && (forall j :: 0 <= j < |body| && j != i ==> r.value[j] == body[j])
                && r.value == body[i := MysqlDatabases()]
  {
    if dbType == Some(MYSQL) then
      match LocateDatabases(body)
      case Failure(e) => Failure(e)
      case Success(i) =>
        RemoveThenInsertReplaces(body, i, MysqlDatabases());
        Success(Insert(RemoveAt(body, i), i, MysqlDatabases()))
    else
      Success(body)
  }
}
