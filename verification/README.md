# Django settings patcher: a Dafny model of `EditSettings`

This project models the statement-list patching core of `EditSettings`, the
class that rewrites a Django project's `settings.py`. The parsed module is an
ordered sequence of top-level statements (`Ast.Document`). The class runs a
fixed sequence of edits on it:

- `edit_database` is modelled as `DatabasePatch.EditDatabase`. It applies only
  to the MySQL database kind. It finds the module's `DATABASES` assignment,
  removes it, and inserts a freshly built assignment at the same index. The new
  assignment reads the connection settings from the environment.
- `add_imports` is modelled as `ImportPatch.AddImports`. It inserts one
  `import` per entry of the module registry (`environ`, `os`) at index
  `i + 2`.
- `add_env` is modelled as `EnvPatch.AddEnv`. At index 1 it inserts an
  assignment of `environ.Env(...)` to `env`. Its `DEBUG` keyword is a tuple of
  two constants: the type object `bool` (not the name `bool`) and `True`. It is
  defined but never called.
- `add_blank_lines` is modelled as `BlankLines.AddBlankLines`. It runs on the
  rendered file's lines and adds a blank line after every line whose stripped
  text ends in `]`, `}`, `)`, `'` or `True`. The model works on the list of
  lines. The rendered file has no trailing newline, so when its last line
  qualifies, the `"\n"` added after it only ends that line in the written
  file and does not make a blank line.
- `edit_settings` runs the database edit, then the imports, then renders the
  tree, then runs the blank-line pass. `Settings.EditSettingsAsWritten` models
  it with the guard as written, which tests the module-level `dbType`.
  `Settings.EditSettings` models it with the corrected guard, which tests the
  instance's `dbType` (see Findings). The two agree whenever the module-level
  name holds the instance's value.

Python's list semantics are modelled explicitly in `PyList`:

- `list.insert` clamps an index past the end, so the element is appended.
- `list.remove` of an AST node removes that exact node, because nodes compare
  by identity.

Python's `str.strip()` is modelled in `BlankLines`, using the full set of
characters for which `str.isspace` is true.

Error paths are modelled as `Result` values, not as preconditions. Each one
matches an exception the source raises:

- No `DATABASES` assignment exists. The local that should hold the match is
  read while unbound (`UnboundLocalError`).
- The match is nested inside a compound statement. `body.index` cannot find it
  in the module body (`ValueError`).
- The module-level `dbType` is not defined (`NameError`). See Findings.

The search for `DATABASES` uses `ast.walk`, which is breadth-first. So every
top-level statement is visited before any nested one. The search therefore
fails if any nested `DATABASES` assignment exists. Otherwise it picks the last
top-level match. `DatabasePatch.WalkForDatabases` models the walk loop itself.
It is proved equal to the declarative `DatabasePatch.LocateDatabases`.

The model follows the code in four places where a reader might expect
otherwise:

- The search order is breadth-first, not depth-first.
- A missing `DATABASES` assignment raises an error. It is not a silent no-op.
- The imports keep registry order, because each one goes in at index `i + 2`.
- The replacement `DATABASES` node is the one built in `script.py`. It has no
  fallback values for host and port, unlike the unused `MYSQL_CONFIG` string
  in `const.py`.

The registry constant `MODULES_TO_IMPORT` (`const.py:4`) is
`Registry.MODULES_TO_IMPORT`.

## Model

| member | source | states |
|---|---|---|
| PyList.Insert | script.py:151 | `list.insert(k, x)` puts `x` at `min(k, len)`, keeps the elements before it, and shifts the rest right by one |
| PyList.RemoveAt | script.py:139 | removing the located node drops exactly the element at its index and closes the gap |
| PyList.RemoveThenInsertReplaces | script.py:139-140 | removing the element at `i` and inserting the new node at `i` replaces that one element and changes nothing else |
| PyList.InsertThenRemoveRestores | script.py:176 | removing the element that `insert` placed gives the original list back |
| DatabasePatch.MysqlConnection | script.py:69-131 | the `'default'` connection has keys ENGINE, NAME, USER, PASSWORD, HOST, PORT in that order; ENGINE is `'django.db.backends.mysql'` and the others are `os.getenv` of DB_NAME, MYSQL_USER, MYSQL_PASSWORD, MYSQL_HOST, MYSQL_PORT |
| DatabasePatch.MysqlDatabases | script.py:115-135 | the new node's only target is the name `DATABASES`, and it assigns a dict whose only key is `'default'`, mapped to the MySQL connection |
| Ast.AssignsTo | script.py:65 | a statement matches when it is an assignment whose first target is the plain name sought |
| DatabasePatch.LastDatabasesIndex | script.py:64-67 | yields an index holding a `DATABASES` assignment with none after it, or nothing when the body has no such assignment |
| DatabasePatch.LocateDatabases | script.py:64-67 | the search succeeds iff there is a top-level `DATABASES` assignment and none nested; it then yields the last top-level one; it fails with the index-lookup error iff a nested one exists |
| DatabasePatch.WalkForDatabases | script.py:64-67 | the walk loop (top-level statements first, then a queue of nested ones) yields exactly the result `LocateDatabases` defines |
| DatabasePatch.EditDatabase | script.py:57-143 | for "mysql", fails exactly as the search fails; otherwise the body keeps its length, the located index holds the new `DATABASES` node, and every other index is unchanged; any other kind leaves the body as it was |
| ImportPatch.InsertImports | script.py:146-151 | each remaining loop iteration adds one statement, and `lastLineAdd` ends at the last module's insertion index |
| ImportPatch.InsertImportsSplices | script.py:146-151 | loop invariant: after `index` insertions at `index + 2`, the imports so far sit contiguously at the import point, so the loop ends with the whole import block there |
| ImportPatch.AddImports | script.py:145-151 | the body grows by the registry size; statements before the import point (indices 0 and 1) are unchanged; module `k` is at the import point plus `k`, so `environ` is at 2 and `os` at 3 when the body has two or more statements; later statements keep their order, shifted right by 2; `lastLineAdd` is 3 |
| ImportPatch.AddImportsTwiceDuplicates | script.py:145-151 | the import pass does not look for existing imports: a second run adds a second import block, so the body changes again |
| EnvPatch.EnvStmt | script.py:154-171 | the node's only target is `env`; its value calls `environ.Env` with no positional arguments and the single keyword DEBUG, a tuple of a constant holding the type object `bool` and the constant `True` |
| EnvPatch.AddEnv | script.py:153-176 | the body grows by one; the env node is at index 1 (the end of an empty body); the other statements keep their order; removing it restores the body |
| BlankLines.TrimLeftRemovesLeadingSpace | script.py:45 | `TrimLeft` removes exactly the maximal whitespace prefix: the result is a suffix of the input, everything removed is whitespace, and the result does not start with whitespace |
| BlankLines.TrimRightRemovesTrailingSpace | script.py:45 | `TrimRight` removes exactly the maximal whitespace suffix: the result is a prefix of the input, everything removed is whitespace, and the result does not end with whitespace |
| BlankLines.IsSpace | script.py:45 | the characters `str.strip()` removes: those for which Python's `str.isspace` holds, listed by code point |
| BlankLines.TrimBothKeepsMiddle | script.py:45 | trimming both ends keeps a middle slice `s[a..b]` of the input; everything before `a` and from `b` on is whitespace, and the slice neither starts nor ends with whitespace |
| BlankLines.Strip | script.py:45 | the stripped line is the input with exactly its surrounding whitespace removed: a slice `s[a..b]` with only whitespace outside it and no whitespace at either of its ends, which fixes it uniquely |
| BlankLines.StripWhitespaceOnly | script.py:45 | a line made only of whitespace strips to the empty string |
| BlankLines.NeedsBlankAfter | script.py:45 | a line earns a blank line after it when its stripped text ends in `]`, `}`, `)`, `'` or `True` |
| BlankLines.WhitespaceNeverNeedsBlank | script.py:45-46 | a whitespace-only line, including the inserted `"\n"`, never earns a blank line after it |
| BlankLines.OffsetStep | script.py:43-46 | each input line takes one output line, plus one more when it qualifies |
| BlankLines.Pass | script.py:43-46 | the loop adds exactly one line per passing line |
| BlankLines.PassKeepsCount | script.py:43-46 | the lines the loop adds do not pass, so its output has as many passing lines as its input |
| BlankLines.PassPlaces | script.py:43-46 | input line `k` is written at its offset, followed directly by the blank line when it passes |
| BlankLines.AddBlankLines | script.py:41-46 | output length is input length plus the number of qualifying lines; the number of qualifying lines is unchanged |
| BlankLines.AddBlankLinesPlaces | script.py:43-46 | every input line appears, in order, at its offset; exactly one `"\n"` follows each qualifying line; nothing else is added |
| BlankLines.AddBlankLinesPlacesAll | script.py:43-46 | `AddBlankLinesPlaces` for every input line at once |
| BlankLines.AddBlankLinesRoundTrip | script.py:43-46 | dropping the line after each qualifying line recovers the input exactly |
| BlankLines.AddBlankLinesTwice | script.py:41-46 | the pass is not idempotent: applied again to its own list of lines, it adds one more `"\n"` per qualifying line (the file-level write and re-read, which would merge a final unterminated line with the `"\n"` after it, is not modelled) |
| Settings.EditThenImport | script.py:194-198 | the call order: a failing database edit stops the run before any import is added, and the imports are spliced into the edited body (or the unedited one when the edit is skipped) |
| Settings.PatchDocumentAsWritten | script.py:194-198 | with the module-level `dbType` unbound the run raises; bound to a falsy value, only the imports are applied; bound to a truthy value (whatever it is), the guard passes and the edit runs on the instance's `dbType`, so the result is `PatchDocument` on the instance's value |
| Settings.PatchDocument | script.py:194-198 | fails only for MySQL when the search fails; otherwise the body is the (edited) body with the import block spliced in; the database edit runs first, so the new `DATABASES` node ends at its original index when that precedes the import point, and two further right otherwise |
| Settings.EditSettings | script.py:178-204 | with the corrected guard: fails exactly when the tree edits fail; otherwise every rendered line of the patched module sits, in order, at its offset, each qualifying line is directly followed by `"\n"`, the length is the rendered length plus the number of qualifying lines (so nothing else is added), and dropping the added lines gives the rendering back |
| Settings.EditSettingsAsWritten | script.py:178-204 | with the guard as written: raises when the module-level `dbType` is unbound; when it is bound, the written lines are exactly those of `EditSettings` run with the instance's `dbType` if the name is truthy and with no database kind otherwise, so placement, length and round trip carry over; fails exactly when the as-written tree edits fail |
| Settings.UnboundModuleDbTypeDiverges | script.py:195 | for a body whose only statement assigns `DATABASES`, a MySQL run with the module-level name unbound raises, while the intended guard replaces the assignment and adds the imports |

## Left out

- Parsing (`ast.parse`) and rendering (`ast.unparse`) are Python's standard library. The model starts from the parsed body, and rendering is the `render` parameter of `Settings.EditSettings`.
- The file reads and writes in `parse_file`, `unparse_and_save_file` and `add_blank_lines` are I/O. The blank-line pass works on the list of lines that `readlines` returns.
- `format_file` runs the external `yapf` formatter with `YAPF_STYLE` (`const.py:2`). Its effect is not visible, so the model ends at the file written before it runs.
- `print(ast.dump(...))` and `ast.copy_location` only produce debug output and line-number metadata. They do not change the statements or their order.
- The `__main__` argument handling is command-line glue. Its only effect on the core is whether the module-level `dbType` is bound, which `Settings.ModuleName` captures.
- The source strings in `const.py:9-14` are never read by `script.py`.
- Database provisioning, the `.env` credential file and directory scaffolding are not part of this model.
- Expression nodes and the exact `ast.walk` order among nested statements are not modelled. No expression contains a statement, and every nested match fails the search in the same way.
- DatabasePatch.LocateDatabases: an `Assign` with an empty target list would raise `IndexError` in the source. The parser never produces one, so the model treats it as a non-match.
- EnvPatch.EnvStmt: how the node would render is not modelled. The first tuple element is a constant holding the type object `bool`. `ast.unparse` writes such a constant with `repr`, so the line would read `env = environ.Env(DEBUG=(<class 'bool'>, True))`, which is not valid Python. `add_env` is never called, so no settings file is affected.
- PyList.Insert: negative indices are not modelled, because the patcher never passes one.
- DatabasePatch.EditDatabase: the "postgres" branch returns the `NotImplementedError` class without raising it. The model shows this as the body left unchanged, the same as any other non-MySQL kind.

## Findings

| source | as written | input that shows it | evidently intended | confidence | as-written member | corrected member |
|---|---|---|---|---|---|---|
| script.py:195 | `if dbType:` reads the module-level name `dbType`, which only the `__main__` block binds | `EditSettings('settings.py', 'mysql').edit_settings()` called from another module on a file with a top-level `DATABASES` assignment raises `NameError` before anything is written | `if self.dbType:` guards the database edit with the instance's own database kind | medium; not executed | Settings.PatchDocumentAsWritten, Settings.EditSettingsAsWritten, Settings.UnboundModuleDbTypeDiverges | Settings.PatchDocument, Settings.EditSettings |
