/**
 * The two Python list operations the patcher applies to a module body,
 * with Python's semantics: `list.insert` clamps an index past the end to
 * an append, and `list.remove` of an AST node removes that very node
 * (AST nodes compare by identity), i.e. the element at the node's index.
 */
module PyList {

  function Min(a: nat, b: nat): nat
  {
    if a <= b then a else b
  }

  /** `s.insert(k, x)` for a non-negative `k`: `x` lands at `k`, or at the end when `k > |s|`. */
  function Insert<T>(s: seq<T>, k: nat, x: T): (r: seq<T>)
    ensures |r| == |s| + 1
    ensures r[Min(k, |s|)] == x
    ensures forall j :: 0 <= j < Min(k, |s|) ==> r[j] == s[j]
    ensures forall j :: Min(k, |s|) <= j < |s| ==> r[j + 1] == s[j]
  {
    var p := Min(k, |s|);
    s[..p] + [x] + s[p..]
  }

  /** `s.remove(node)` where `node` is the element found at index `i`. */
  function RemoveAt<T>(s: seq<T>, i: nat): (r: seq<T>)
    requires i < |s|
    ensures |r| == |s| - 1
    ensures forall j :: 0 <= j < i ==> r[j] == s[j]
    ensures forall j :: i <= j < |r| ==> r[j] == s[j + 1]
  {
    s[..i] + s[i + 1..]
  }

  /** Removing the element at `i` and inserting `x` at `i` replaces that one element. */
  lemma RemoveThenInsertReplaces<T>(s: seq<T>, i: nat, x: T)
    requires i < |s|
    ensures Insert(RemoveAt(s, i), i, x) == s[i := x]
  {
    var r := Insert(RemoveAt(s, i), i, x);
    assert |r| == |s|;
    forall j | 0 <= j < |s|
      ensures r[j] == s[i := x][j]
    {
      if j > i {
        assert r[j] == RemoveAt(s, i)[j - 1];
      }
    }
  }

  /** Removing what `Insert` placed gives the original list back. */
  lemma InsertThenRemoveRestores<T>(s: seq<T>, k: nat, x: T)
    ensures RemoveAt(Insert(s, k, x), Min(k, |s|)) == s
  {
    var r := RemoveAt(Insert(s, k, x), Min(k, |s|));
    assert |r| == |s|;
    forall j | 0 <= j < |s|
      ensures r[j] == s[j]
    {
    }
  }
}
