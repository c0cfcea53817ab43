/**
 * `EditSettings.add_imports`: for each registry module, in registry order,
 * insert `import <module>` into the module body at index `index + 2`,
 * recording that index as `lastLineAdd`.
 */
module ImportPatch {
  import opened Results
  import opened Ast
  import opened PyList
  import opened Registry

  /** `import <module>` with no `as` name. */
  function ImportOf(moduleName: string): Stmt
  {
    Import([Alias(moduleName, None)])
  }

  /** The block of imports for `modules`, in order. */
  function ImportsOf(modules: seq<string>): (r: seq<Stmt>)
    ensures |r| == |modules|
    ensures forall k :: 0 <= k < |modules| ==> r[k] == ImportOf(modules[k])
  {
    seq(|modules|, k requires 0 <= k < |modules| => ImportOf(modules[k]))
  }

  /** The body and the `lastLineAdd` attribute (unset until the first insertion). */
  datatype Imported = Imported(body: Document, lastLineAdd: Option<nat>)

  /** Where the import block lands: index 2, or the end of a body shorter than that. */
  function ImportPoint(body: Document): nat
  {
    Min(2, |body|)
  }

  /** `body` with the registry's import block spliced in at the import point. */
  function WithImportBlock(body: Document): (r: Document)
    ensures |r| == |body| + |MODULES_TO_IMPORT|
  {
    body[..ImportPoint(body)] + ImportsOf(MODULES_TO_IMPORT) + body[ImportPoint(body)..]
  }

  /** The iterations `index, index + 1, ...` of the loop in `add_imports`. */
  function InsertImports(st: Imported, index: nat): (r: Imported)
    requires index <= |MODULES_TO_IMPORT|
    ensures |r.body| == |st.body| + |MODULES_TO_IMPORT| - index
    ensures r.lastLineAdd == if index < |MODULES_TO_IMPORT| then Some(|MODULES_TO_IMPORT| + 1) else st.lastLineAdd
    decreases |MODULES_TO_IMPORT| - index
  {
    if index == |MODULES_TO_IMPORT| then st
    else
      var body' := Insert(st.body, index + 2, ImportOf(MODULES_TO_IMPORT[index]));
      InsertImports(Imported(body', Some(index + 2)), index + 1)
  }

  /**
   * Loop invariant of `add_imports`: after `index` iterations the body is the
   * original with the first `index` imports spliced in at the import point,
   * because each insertion index `index + 2` clamps to the import point plus
   * the number of imports already inserted.
   */
  lemma {:induction false} InsertImportsSplices(body: Document, st: Imported, index: nat)
    requires index <= |MODULES_TO_IMPORT|
    requires st.body == body[..ImportPoint(body)] + ImportsOf(MODULES_TO_IMPORT[..index]) + body[ImportPoint(body)..]
    ensures InsertImports(st, index).body == WithImportBlock(body)
    decreases |MODULES_TO_IMPORT| - index
  {
    var p := ImportPoint(body);
    if index == |MODULES_TO_IMPORT| {
      assert MODULES_TO_IMPORT[..index] == MODULES_TO_IMPORT;
    } else {
      var x := ImportOf(MODULES_TO_IMPORT[index]);
      var body' := Insert(st.body, index + 2, x);
      assert Min(index + 2, |st.body|) == p + index;
      var next := body[..p] + ImportsOf(MODULES_TO_IMPORT[..index + 1]) + body[p..];
      assert |body'| == |next|;
      forall j | 0 <= j < |next|
        ensures body'[j] == next[j]
      {
        if j < p + index {
          assert body'[j] == st.body[j];
        } else if j == p + index {
          assert body'[j] == x;
        } else {
          assert body'[j] == st.body[j - 1];
        }
      }
      assert body' == next;
      InsertImportsSplices(body, Imported(body', Some(index + 2)), index + 1);
    }
  }

  /**
   * `add_imports`. The body grows by one statement per registry module;
   * what precedes the import point is untouched, the imports follow it in
   * registry order, and every later statement keeps its order, shifted
   * right by the number of imports. `lastLineAdd` ends at the insertion
   * index used for the last registry module.
   */
  function AddImports(body: Document): (r: Imported)
    ensures |r.body| == |body| + |MODULES_TO_IMPORT|
    ensures r.body == WithImportBlock(body)
    ensures forall j :: 0 <= j < ImportPoint(body) ==> r.body[j] == body[j]
    ensures forall k :: 0 <= k < |MODULES_TO_IMPORT| ==> r.body[ImportPoint(body) + k] == ImportOf(MODULES_TO_IMPORT[k])
    ensures forall j :: ImportPoint(body) <= j < |body| ==> r.body[j + |MODULES_TO_IMPORT|] == body[j]
    ensures |body| >= 2 ==> r.body[2] == ImportOf("environ") && r.body[3] == ImportOf("os")
    ensures r.lastLineAdd == Some(|MODULES_TO_IMPORT| + 1)
  {
    var p := ImportPoint(body);
    assert body == body[..p] + ImportsOf(MODULES_TO_IMPORT[..0]) + body[p..];
    InsertImportsSplices(body, Imported(body, None), 0);
    InsertImports(Imported(body, None), 0)
  }

  /**
   * `add_imports` does not look for imports already present: run again on
   * its own output it adds a second import block.
   */
  lemma AddImportsTwiceDuplicates(body: Document)
    ensures var once := AddImports(body).body;
            var twice := AddImports(once).body;
            && |twice| == |body| + 2 * |MODULES_TO_IMPORT|
            && twice != once
  {
  }
}
