/**
 * `EditSettings.add_blank_lines`: the readability pass over the rendered
 * file's lines. After every line whose stripped text ends in `]`, `}`, `)`,
 * `'` or `True`, one extra line holding just a newline is written.
 *
 * The pass works on the list that `readlines` returns. Rendered source
 * has no trailing newline, so its last element has none either; when that
 * line qualifies, the `"\n"` written after it only ends that line in the
 * file and does not make a blank line.
 */
module BlankLines {

  /** The line inserted after a qualifying line. */
  const BLANK := "\n"

  /** Python's `str.isspace` for one character: what `str.strip()` removes. */
  predicate IsSpace(c: char)
  {
    var n := c as int;
    || n == 0x20 || 0x09 <= n <= 0x0D || 0x1C <= n <= 0x1F || n == 0x85 || n == 0xA0
    || n == 0x1680 || 0x2000 <= n <= 0x200A || n == 0x2028 || n == 0x2029
    || n == 0x202F || n == 0x205F || n == 0x3000
  }

  /** `s` with its leading whitespace removed. */
  function TrimLeft(s: string): string
  {
    if |s| > 0 && IsSpace(s[0]) then TrimLeft(s[1..]) else s
  }

  /** `TrimLeft` removes exactly the longest whitespace prefix. */
  lemma {:induction false} TrimLeftRemovesLeadingSpace(s: string)
    ensures var r := TrimLeft(s);
            && |r| <= |s| && r == s[|s| - |r|..]
            && (forall k :: 0 <= k < |s| - |r| ==> IsSpace(s[k]))
            && (|r| > 0 ==> !IsSpace(r[0]))
  {
    if |s| > 0 && IsSpace(s[0]) {
      TrimLeftRemovesLeadingSpace(s[1..]);
      var r := TrimLeft(s[1..]);
      assert s[1..][|s| - 1 - |r|..] == s[|s| - |r|..];
      forall k | 0 <= k < |s| - |r|
        ensures IsSpace(s[k])
      {
        if k > 0 {
          assert s[k] == s[1..][k - 1];
        }
      }
    }
  }

  /** `s` with its trailing whitespace removed. */
  function TrimRight(s: string): string
  {
    if |s| > 0 && IsSpace(s[|s| - 1]) then TrimRight(s[..|s| - 1]) else s
  }

  /** `TrimRight` removes exactly the longest whitespace suffix. */
  lemma {:induction false} TrimRightRemovesTrailingSpace(s: string)
    ensures var r := TrimRight(s);
            && |r| <= |s| && r == s[..|r|]
            && (forall k :: |r| <= k < |s| ==> IsSpace(s[k]))
            && (|r| > 0 ==> !IsSpace(r[|r| - 1]))
  {
    if |s| > 0 && IsSpace(s[|s| - 1]) {
      var n := |s| - 1;
      TrimRightRemovesTrailingSpace(s[..n]);
      var r := TrimRight(s[..n]);
      assert s[..n][..|r|] == s[..|r|];
      forall k | |r| <= k < |s|
        ensures IsSpace(s[k])
      {
        if k < n {
          assert s[k] == s[..n][k];
        }
      }
    }
  }

  /**
   * `TrimRight` after `TrimLeft` keeps the middle of `s`: everything before
   * `a` and from `b` on is whitespace, and the kept part `s[a..b]` neither
   * starts nor ends with whitespace.
   */
  lemma TrimBothKeepsMiddle(s: string)
    ensures var r := TrimRight(TrimLeft(s));
            && (|r| > 0 ==> !IsSpace(r[0]) && !IsSpace(r[|r| - 1]))
            && exists a, b :: 0 <= a <= b <= |s| && r == s[a..b]
                 && (forall k :: 0 <= k < a ==> IsSpace(s[k]))
                 && (forall k :: b <= k < |s| ==> IsSpace(s[k]))
  {
    var t := TrimLeft(s);
    TrimLeftRemovesLeadingSpace(s);
    TrimRightRemovesTrailingSpace(t);
    var r := TrimRight(t);
    var a := |s| - |t|;
    var b := a + |r|;
    assert r == s[a..b] by {
      assert t[..|r|] == s[a..][..|r|] == s[a..b];
    }
    forall k | b <= k < |s|
      ensures IsSpace(s[k])
    {
      assert s[k] == t[k - a];
    }
  }

  /**
   * Python's `str.strip()` with no arguments: `s` with its surrounding
   * whitespace removed and everything between kept, so no whitespace is
   * left at either end.
   */
  function Strip(s: string): (r: string)
    ensures |r| > 0 ==> !IsSpace(r[0]) && !IsSpace(r[|r| - 1])
    ensures exists a, b :: 0 <= a <= b <= |s| && r == s[a..b]
              && (forall k :: 0 <= k < a ==> IsSpace(s[k]))
              && (forall k :: b <= k < |s| ==> IsSpace(s[k]))
  {
    TrimBothKeepsMiddle(s);
    TrimRight(TrimLeft(s))
  }

  /** A string of whitespace only strips to the empty string. */
  lemma StripWhitespaceOnly(s: string)
    requires forall k :: 0 <= k < |s| ==> IsSpace(s[k])
    ensures Strip(s) == ""
  {
  }

  predicate EndsWith(s: string, suffix: string)
  {
    |suffix| <= |s| && s[|s| - |suffix|..] == suffix
  }

  /** The condition under which a blank line is added after `line`. */
  predicate NeedsBlankAfter(line: string)
  {
    var t := Strip(line);
    EndsWith(t, "]") || EndsWith(t, "}") || EndsWith(t, ")") || EndsWith(t, "'") || EndsWith(t, "True")
  }

  /** A line of whitespace only, such as the inserted one, never qualifies. */
  lemma WhitespaceNeverNeedsBlank(line: string)
    requires forall k :: 0 <= k < |line| ==> IsSpace(line[k])
    ensures !NeedsBlankAfter(line)
  {
  }

  /*
   * The pass itself is stated for any line test `q` that the inserted blank
   * line fails; `AddBlankLines` below instantiates it with `NeedsBlankAfter`.
   */

  /** The number of lines of `lines` that pass `q`. */
  function Count(lines: seq<string>, q: string -> bool): nat
  {
    if |lines| == 0 then 0
    else Count(lines[..|lines| - 1], q) + (if q(lines[|lines| - 1]) then 1 else 0)
  }

  lemma {:induction false} CountConcat(a: seq<string>, b: seq<string>, q: string -> bool)
    ensures Count(a + b, q) == Count(a, q) + Count(b, q)
    decreases |b|
  {
    if |b| == 0 {
      assert a + b == a;
    } else {
      var n := |b| - 1;
      assert (a + b)[..|a + b| - 1] == a + b[..n];
      CountConcat(a, b[..n], q);
    }
  }

  /** Where input line `k` lands in the output: after `k` lines and the blanks added after them. */
  function Offset(lines: seq<string>, k: nat, q: string -> bool): nat
    requires k <= |lines|
  {
    k + Count(lines[..k], q)
  }

  /** The output position advances by one per line, plus one for the blank after a passing line. */
  lemma OffsetStep(lines: seq<string>, k: nat, q: string -> bool)
    requires k < |lines|
    ensures Offset(lines, k + 1, q) == Offset(lines, k, q) + 1 + (if q(lines[k]) then 1 else 0)
  {
    assert lines[..k + 1][..k] == lines[..k];
  }

  /** Offsets never pass the output's length. */
  lemma {:induction false} OffsetBound(lines: seq<string>, k: nat, q: string -> bool)
    requires k <= |lines|
    ensures Offset(lines, k, q) <= |lines| + Count(lines, q)
    decreases |lines| - k
  {
    if k < |lines| {
      OffsetStep(lines, k, q);
      OffsetBound(lines, k + 1, q);
    } else {
      assert lines[..k] == lines;
    }
  }

  /** What one iteration writes for `line`. */
  function Written(line: string, q: string -> bool): seq<string>
  {
    if q(line) then [line, BLANK] else [line]
  }

  lemma CountWritten(line: string, q: string -> bool)
    requires !q(BLANK)
    ensures Count(Written(line, q), q) == if q(line) then 1 else 0
  {
    assert [line][..0] == [];
    assert Count([line], q) == if q(line) then 1 else 0;
    if q(line) {
      var w := [line, BLANK];
      assert w[..1] == [line];
      assert Count(w, q) == Count([line], q) + 0;
    }
  }

  /** The loop of `add_blank_lines`: each line, then a blank line after each line passing `q`. */
  function Pass(lines: seq<string>, q: string -> bool): (r: seq<string>)
    requires !q(BLANK)
    ensures |r| == |lines| + Count(lines, q)
  {
    if |lines| == 0 then []
    else
      var n := |lines| - 1;
      assert lines[..n + 1][..n] == lines[..n];
      Pass(lines[..n], q) + Written(lines[n], q)
  }

  /** The lines the pass adds do not pass, so the count of passing lines is unchanged. */
  lemma {:induction false} PassKeepsCount(lines: seq<string>, q: string -> bool)
    requires !q(BLANK)
    ensures Count(Pass(lines, q), q) == Count(lines, q)
  {
    if |lines| > 0 {
      var n := |lines| - 1;
      PassKeepsCount(lines[..n], q);
      CountWritten(lines[n], q);
      CountConcat(Pass(lines[..n], q), Written(lines[n], q), q);
    }
  }

  lemma {:induction false} PassPlaces(lines: seq<string>, k: nat, q: string -> bool)
    requires !q(BLANK) && k < |lines|
    ensures var r := Pass(lines, q);
            && Offset(lines, k, q) < |r| && r[Offset(lines, k, q)] == lines[k]
            && (q(lines[k]) ==> Offset(lines, k, q) + 1 < |r| && r[Offset(lines, k, q) + 1] == BLANK)
  {
    var n := |lines| - 1;
    var init := lines[..n];
    var prev := Pass(init, q);
    assert Pass(lines, q) == prev + Written(lines[n], q);
    if k == n {
      assert Offset(lines, n, q) == |prev|;
    } else {
      assert init[..k] == lines[..k];
      assert Offset(lines, k, q) == Offset(init, k, q);
      PassPlaces(init, k, q);
      OffsetStep(init, k, q);
      OffsetBound(init, k + 1, q);
    }
  }

  /** The inverse pass: keep each line, and drop the line that follows a passing one. */
  function Unpass(out: seq<string>, q: string -> bool): seq<string>
  {
    if |out| == 0 then []
    else if q(out[0]) && |out| > 1 then [out[0]] + Unpass(out[2..], q)
    else [out[0]] + Unpass(out[1..], q)
  }

  lemma UnpassWritten(line: string, rest: seq<string>, q: string -> bool)
    ensures Unpass(Written(line, q) + rest, q) == [line] + Unpass(rest, q)
  {
    if q(line) {
      assert (Written(line, q) + rest)[2..] == rest;
    } else {
      assert (Written(line, q) + rest)[1..] == rest;
    }
  }

  lemma PassUnfold(lines: seq<string>, q: string -> bool)
    requires !q(BLANK) && |lines| > 0
    ensures Pass(lines, q) == Pass(lines[..|lines| - 1], q) + Written(lines[|lines| - 1], q)
  {
  }

  lemma {:induction false} UnpassAfterPass(lines: seq<string>, rest: seq<string>, q: string -> bool)
    requires !q(BLANK)
    ensures Unpass(Pass(lines, q) + rest, q) == lines + Unpass(rest, q)
    decreases |lines|
  {
    if |lines| == 0 {
      assert Pass(lines, q) + rest == rest;
    } else {
      var n := |lines| - 1;
      var added := Written(lines[n], q);
      var prev := Pass(lines[..n], q);
      assert Pass(lines, q) + rest == prev + (added + rest) by {
        PassUnfold(lines, q);
      }
      assert Unpass(prev + (added + rest), q) == lines[..n] + Unpass(added + rest, q) by {
        UnpassAfterPass(lines[..n], added + rest, q);
      }
      assert Unpass(added + rest, q) == [lines[n]] + Unpass(rest, q) by {
        UnpassWritten(lines[n], rest, q);
      }
      assert lines[..n] + ([lines[n]] + Unpass(rest, q)) == lines + Unpass(rest, q) by {
        assert lines[..n] + [lines[n]] == lines;
      }
    }
  }

  /** The number of lines of `lines` that qualify for a blank line after them. */
  function CountQualifying(lines: seq<string>): nat
  {
    Count(lines, NeedsBlankAfter)
  }

  /**
   * `add_blank_lines` on the lines of the file: one more line per
   * qualifying input line. The added blank lines never qualify, so the
   * count of qualifying lines is unchanged.
   */
  function AddBlankLines(lines: seq<string>): (r: seq<string>)
    ensures |r| == |lines| + CountQualifying(lines)
    ensures CountQualifying(r) == CountQualifying(lines)
  {
    WhitespaceNeverNeedsBlank(BLANK);
    PassKeepsCount(lines, NeedsBlankAfter);
    Pass(lines, NeedsBlankAfter)
  }

  /**
   * Where each input line ends up: input line `k` is at its offset, and if
   * it qualifies, the line right after it is the added blank line. Offsets
   * advance by one line, plus one after a qualifying line (`OffsetStep`),
   * and end at the output's length, so the output holds nothing else.
   */
  lemma AddBlankLinesPlaces(lines: seq<string>, k: nat)
    requires k < |lines|
    ensures var r := AddBlankLines(lines);
            var o := Offset(lines, k, NeedsBlankAfter);
            && o < |r| && r[o] == lines[k]
            && (NeedsBlankAfter(lines[k]) ==> o + 1 < |r| && r[o + 1] == BLANK)
  {
    WhitespaceNeverNeedsBlank(BLANK);
    var q: string -> bool := NeedsBlankAfter;
    assert AddBlankLines(lines) == Pass(lines, q);
    PassPlaces(lines, k, q);
  }

  /** `AddBlankLinesPlaces` for every input line at once. */
  lemma AddBlankLinesPlacesAll(lines: seq<string>)
    ensures var r := AddBlankLines(lines);
            forall k :: 0 <= k < |lines| ==>
              var o := Offset(lines, k, NeedsBlankAfter);
              && o < |r| && r[o] == lines[k]
              && (NeedsBlankAfter(lines[k]) ==> o + 1 < |r| && r[o + 1] == BLANK)
  {
    forall k | 0 <= k < |lines|
      ensures var r := AddBlankLines(lines);
              var o := Offset(lines, k, NeedsBlankAfter);
              && o < |r| && r[o] == lines[k]
              && (NeedsBlankAfter(lines[k]) ==> o + 1 < |r| && r[o + 1] == BLANK)
    {
      AddBlankLinesPlaces(lines, k);
    }
  }

  /** The inverse of the pass: keep each line, drop the line after a qualifying one. */
  function DropAddedBlanks(out: seq<string>): seq<string>
  {
    Unpass(out, NeedsBlankAfter)
  }

  /** Dropping the added blank lines recovers the input exactly. */
  lemma AddBlankLinesRoundTrip(lines: seq<string>)
    ensures DropAddedBlanks(AddBlankLines(lines)) == lines
  {
    WhitespaceNeverNeedsBlank(BLANK);
    UnpassAfterPass(lines, [], NeedsBlankAfter);
    assert Pass(lines, NeedsBlankAfter) + [] == Pass(lines, NeedsBlankAfter);
    assert lines + [] == lines;
  }

  /**
   * The pass is not idempotent: the lines it adds never qualify, so a
   * second run adds one more blank line after each qualifying line.
   */
  lemma AddBlankLinesTwice(lines: seq<string>)
    ensures |AddBlankLines(AddBlankLines(lines))| == |lines| + 2 * CountQualifying(lines)
  {
  }
}
