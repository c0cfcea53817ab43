/**
 * `EditSettings.add_env`: insert at index 1 of the module body an
 * assignment of `environ.Env(...)` to `env`, whose DEBUG keyword is a
 * tuple of two constants, the type object `bool` and `True`. The settings
 * run does not call it.
 */
module EnvPatch {
  import opened Ast
  import opened PyList

  const ENV := "env"

  /**
   * The node `add_env` builds. Its first tuple element is a constant
   * holding the type object `bool` (`TypeLit`), not the name `bool`.
   */
  function EnvStmt(): (s: Stmt)
    ensures AssignsTo(s, ENV) && |s.targets| == 1
    ensures s.value.Call? && s.value.func == Attribute(Name("environ"), "Env") && s.value.args == []
    ensures s.value.keywords == [Keyword("DEBUG", Tuple([TypeLit("bool"), BoolLit(true)]))]
  {
    var debug := Keyword("DEBUG", Tuple([TypeLit("bool"), BoolLit(true)]));
    Assign([NameTarget(ENV)], Call(Attribute(Name("environ"), "Env"), [], [debug]))
  }

  /**
   * `add_env`: the environment reader lands at index 1 (at the end of an
   * empty body); removing it again gives the original body back.
   */
  function AddEnv(body: Document): (r: Document)
    ensures |r| == |body| + 1
    ensures r[Min(1, |body|)] == EnvStmt()
    ensures |body| > 0 ==> r[0] == body[0]
    ensures forall j :: 1 <= j < |body| ==> r[j + 1] == body[j]
    ensures RemoveAt(r, Min(1, |body|)) == body
  {
    InsertThenRemoveRestores(body, 1, EnvStmt());
    Insert(body, 1, EnvStmt())
  }
}
