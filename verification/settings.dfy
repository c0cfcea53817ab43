/**
 * `EditSettings.edit_settings`: the fixed sequence run over a parsed
 * settings module: the database edit (only when a database kind is set),
 * the imports, rendering the tree back to text, and the blank-line pass.
 * Parsing and rendering belong to Python's `ast` module and enter the
 * model as the parsed body and a `render` function.
 */
module Settings {
  import opened Results
  import opened Ast
  import opened Registry
  import opened DatabasePatch
  import opened ImportPatch
  import opened BlankLines

  /** Python truthiness of an optional string: `None` and `""` are false. */
  predicate Truthy(v: Option<string>)
  {
    v.Some? && v.value != ""
  }

  /**
   * The module-level name `dbType`: bound (from the command line) when the
   * script runs as a program, unbound when the class is used from elsewhere.
   */
  datatype ModuleName = Unbound | Bound(value: Option<string>)

  /**
   * The exceptions `edit_settings` can raise before writing: the guard's
   * name lookup fails, or the database edit fails to locate its target.
   */
  datatype SettingsError =
    | DbTypeUndefined                  // the module-level `dbType` the guard tests does not exist
    | DatabaseFailed(cause: EditError) // raised inside `edit_database`

  /**
   * The call order of `edit_settings`: the database edit, when `enabled`,
   * then the imports, which are spliced into the edited body, so a failing
   * edit stops the run before any import is added.
   */
  function EditThenImport(body: Document, enabled: bool, dbType: Option<string>): (r: Result<Document, SettingsError>)
    ensures r.Failure? <==> enabled && EditDatabase(body, dbType).Failure?
    ensures r.Failure? ==> r.error == DatabaseFailed(EditDatabase(body, dbType).error)
    ensures r.Success? && enabled ==> r.value == WithImportBlock(EditDatabase(body, dbType).value)
    ensures r.Success? && !enabled ==> r.value == WithImportBlock(body)
  {
    var edited := if enabled then EditDatabase(body, dbType) else Success(body);
    match edited
    case Failure(e) => Failure(DatabaseFailed(e))
    case Success(b) => Success(AddImports(b).body)
  }

  /**
   * The tree edits of `edit_settings` AS WRITTEN: the database edit is
   * guarded by the module-level `dbType`, not by the instance's. Once the
   * guard passes, the edit itself reads the instance's `dbType`.
   */
  function PatchDocumentAsWritten(body: Document, moduleDbType: ModuleName, dbType: Option<string>): (r: Result<Document, SettingsError>)
    ensures moduleDbType.Unbound? ==> r == Failure(DbTypeUndefined)
    ensures moduleDbType.Bound? && !Truthy(moduleDbType.value) ==> r == Success(WithImportBlock(body))
    ensures moduleDbType.Bound? && Truthy(moduleDbType.value) ==> r == PatchDocument(body, dbType)
    ensures moduleDbType == Bound(dbType) ==> r == PatchDocument(body, dbType)
  {
    match moduleDbType
    case Unbound => Failure(DbTypeUndefined)
    case Bound(v) => EditThenImport(body, Truthy(v), dbType)
  }

  /**
   * The tree edits of `edit_settings` as intended: the database edit when
   * the instance's `dbType` is set, then the imports. Only the MySQL edit
   * can fail. Because the database edit runs first, the located index
   * refers to the body before the imports: the new `DATABASES` statement
   * stays put when it precedes the import point and moves right by the
   * number of imports otherwise.
   */
  function PatchDocument(body: Document, dbType: Option<string>): (r: Result<Document, SettingsError>)
    ensures r.Failure? <==> dbType == Some(MYSQL) && LocateDatabases(body).Failure?
    ensures r.Failure? ==> r.error == DatabaseFailed(LocateDatabases(body).error)
    ensures r.Success? ==> |r.value| == |body| + |MODULES_TO_IMPORT|
    ensures r.Success? && dbType != Some(MYSQL) ==> r.value == WithImportBlock(body)
    ensures r.Success? && dbType == Some(MYSQL) ==>
              var i := LocateDatabases(body).value;
              && r.value == WithImportBlock(body[i := MysqlDatabases()])
              && r.value[if i < ImportPoint(body) then i else i + |MODULES_TO_IMPORT|] == MysqlDatabases()
  {
    EditThenImport(body, Truthy(dbType), dbType)
  }

  /**
   * `edit_settings` with the corrected guard (the instance's `dbType`), up
   * to the file it writes before the external formatter runs: it fails
   * exactly when the tree edits fail, and otherwise writes every rendered
   * line of the patched module, in order, at its offset, each qualifying
   * line directly followed by a blank line; dropping those blank lines
   * gives the rendering back.
   */
  function EditSettings(body: Document, dbType: Option<string>, render: Document -> seq<string>): (r: Result<seq<string>, SettingsError>)
    ensures r.Failure? <==> PatchDocument(body, dbType).Failure?
    ensures r.Failure? ==> r.error == PatchDocument(body, dbType).error
    ensures r.Success? ==>
              var rendered := render(PatchDocument(body, dbType).value);
              && |r.value| == |rendered| + CountQualifying(rendered)
              && (forall k :: 0 <= k < |rendered| ==>
                    var o := Offset(rendered, k, NeedsBlankAfter);
                    && o < |r.value| && r.value[o] == rendered[k]
                    && (NeedsBlankAfter(rendered[k]) ==> o + 1 < |r.value| && r.value[o + 1] == BLANK))
              && DropAddedBlanks(r.value) == rendered
  {
    match PatchDocument(body, dbType)
    case Failure(e) => Failure(e)
    case Success(patched) =>
      AddBlankLinesRoundTrip(render(patched));
      AddBlankLinesPlacesAll(render(patched));
      Success(AddBlankLines(render(patched)))
  }

  /**
   * `edit_settings` AS WRITTEN, with the guard on the module-level
   * `dbType`: it raises when that name is unbound; when it is bound, it
   * is `EditSettings` run with the instance's `dbType` if the name is
   * truthy and with no database kind otherwise.
   */
  function EditSettingsAsWritten(body: Document, moduleDbType: ModuleName, dbType: Option<string>,
                                 render: Document -> seq<string>): (r: Result<seq<string>, SettingsError>)
    ensures moduleDbType.Unbound? ==> r == Failure(DbTypeUndefined)
    ensures r.Failure? <==> PatchDocumentAsWritten(body, moduleDbType, dbType).Failure?
    ensures r.Success? ==> DropAddedBlanks(r.value) == render(PatchDocumentAsWritten(body, moduleDbType, dbType).value)
    ensures moduleDbType.Bound? ==>
              r == EditSettings(body, if Truthy(moduleDbType.value) then dbType else None, render)
    ensures moduleDbType == Bound(dbType) ==> r == EditSettings(body, dbType, render)
  {
    match PatchDocumentAsWritten(body, moduleDbType, dbType)
    case Failure(e) => Failure(e)
    case Success(patched) =>
      AddBlankLinesRoundTrip(render(patched));
      Success(AddBlankLines(render(patched)))
  }

  /**
   * The as-written guard diverges from the intended one: used from another
   * module, where no module-level `dbType` exists, a MySQL run on a file
   * with a `DATABASES` assignment raises instead of replacing it.
   */
  lemma UnboundModuleDbTypeDiverges()
    ensures var body := [Assign([NameTarget(DATABASES)], OpaqueExpr)];
            && PatchDocumentAsWritten(body, Unbound, Some(MYSQL)) == Failure(DbTypeUndefined)
            && PatchDocument(body, Some(MYSQL)) == Success(WithImportBlock([MysqlDatabases()]))
  {
    var body := [Assign([NameTarget(DATABASES)], OpaqueExpr)];
    assert !NestedDatabases(body);
    assert AssignsTo(body[0], DATABASES);
    assert body[0 := MysqlDatabases()] == [MysqlDatabases()];
  }
}
