/**
 * The parsed settings module as the patcher sees it: a module body is an
 * ordered sequence of top-level statements. Only the node shapes the patcher
 * builds or inspects are spelled out; every other expression or statement is
 * opaque, and a compound statement (`if`, `for`, `try`, `def`, `class`, ...)
 * keeps just the statements nested in it, across all its blocks, in source order.
 */
module Ast {
  import opened Results

  datatype Expr =
    | Str(s: string)                  // a string constant
    | BoolLit(b: bool)                // `True` / `False`
    | TypeLit(typeName: string)       // a constant holding a builtin type, such as `bool`
    | Name(id: string)                // a name in load context
    | Attribute(obj: Expr, attr: string)
    | Call(func: Expr, args: seq<Expr>, keywords: seq<Keyword>)
    | Dict(keys: seq<Expr>, values: seq<Expr>)
    | Tuple(elts: seq<Expr>)
    | OpaqueExpr                      // any expression no patch looks into

  datatype Keyword = Keyword(arg: string, value: Expr)

  /** An assignment target: a plain name, or anything else (attribute, subscript, tuple). */
  datatype Target = NameTarget(id: string) | OtherTarget

  datatype Alias = Alias(name: string, asname: Option<string>)

  datatype Stmt =
    | Assign(targets: seq<Target>, value: Expr)
    | Import(names: seq<Alias>)
    | Compound(nested: seq<Stmt>)
    | OtherStmt

  /** The `body` of the parsed module. */
  type Document = seq<Stmt>

  /**
   * The patcher's matcher: an `Assign` whose FIRST target is the name `name`.
   * The parser never produces an `Assign` without targets.
   */
  predicate AssignsTo(s: Stmt, name: string)
  {
    s.Assign? && |s.targets| > 0 && s.targets[0] == NameTarget(name)
  }

  /** The statements directly nested in `s`. */
  function Children(s: Stmt): seq<Stmt>
  {
    if s.Compound? then s.nested else []
  }

  /** `s` itself, or some statement nested in it at any depth, assigns to `name`. */
  predicate AssignsWithin(s: Stmt, name: string)
  {
    || AssignsTo(s, name)
    || (s.Compound? && exists j :: 0 <= j < |s.nested| && AssignsWithin(s.nested[j], name))
  }

  /** Some statement of `q`, or one nested in it, assigns to `name`. */
  predicate AnyAssignsWithin(q: seq<Stmt>, name: string)
  {
    exists k :: 0 <= k < |q| && AssignsWithin(q[k], name)
  }

  /** The number of statement nodes in `s`, itself included. */
  function StmtCount(s: Stmt): nat
    decreases s
  {
    1 + (if s.Compound? then NodeCount(s.nested) else 0)
  }

  /** The number of statement nodes in `q`, nested ones included. */
  function NodeCount(q: seq<Stmt>): nat
    decreases q
  {
    if |q| == 0 then 0 else StmtCount(q[0]) + NodeCount(q[1..])
  }

  lemma {:induction false} NodeCountConcat(a: seq<Stmt>, b: seq<Stmt>)
    ensures NodeCount(a + b) == NodeCount(a) + NodeCount(b)
  {
    if |a| > 0 {
      assert (a + b)[0] == a[0];
      assert (a + b)[1..] == a[1..] + b;
      NodeCountConcat(a[1..], b);
    } else {
      assert a + b == b;
    }
  }

  /** A match in `a + b` is a match in `a` or one in `b`. */
  lemma AnyAssignsWithinConcat(a: seq<Stmt>, b: seq<Stmt>, name: string)
    ensures AnyAssignsWithin(a + b, name) <==> AnyAssignsWithin(a, name) || AnyAssignsWithin(b, name)
  {
    if AnyAssignsWithin(a, name) {
      var k :| 0 <= k < |a| && AssignsWithin(a[k], name);
      assert (a + b)[k] == a[k];
    }
    if AnyAssignsWithin(b, name) {
      var k :| 0 <= k < |b| && AssignsWithin(b[k], name);
      assert (a + b)[|a| + k] == b[k];
    }
    if AnyAssignsWithin(a + b, name) {
      var k :| 0 <= k < |a + b| && AssignsWithin((a + b)[k], name);
      if k < |a| {
        assert a[k] == (a + b)[k];
      } else {
        assert b[k - |a|] == (a + b)[k];
      }
    }
  }

  /**
   * Python's dict display lookup: the value paired with the string key `key`,
   * the LAST such pair winning when a key repeats.
   */
  function DictGet(keys: seq<Expr>, values: seq<Expr>, key: string): Option<Expr>
    requires |keys| == |values|
  {
    if |keys| == 0 then None
    else if keys[|keys| - 1] == Str(key) then Some(values[|keys| - 1])
    else DictGet(keys[..|keys| - 1], values[..|keys| - 1], key)
  }

  /** With a key that occurs exactly once, lookup yields the value paired with it. */
  lemma {:induction false} DictGetUniqueKey(keys: seq<Expr>, values: seq<Expr>, key: string, k: nat)
    requires |keys| == |values| && k < |keys| && keys[k] == Str(key)
    requires forall j :: 0 <= j < |keys| && j != k ==> keys[j] != Str(key)
    ensures DictGet(keys, values, key) == Some(values[k])
  {
    var n := |keys| - 1;
    if k < n {
      assert keys[n] != Str(key);
      assert keys[..n][k] == keys[k] && values[..n][k] == values[k];
      DictGetUniqueKey(keys[..n], values[..n], key, k);
    }
  }
}
