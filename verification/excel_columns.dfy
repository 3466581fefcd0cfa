/** Spreadsheet column names: bijective base 26 over A to Z. */
module ExcelColumns {
  import opened Decimals

  /** Go's int addition wraps around. */
  function Wrap(i: int): (r: int)
    ensures IsInt64(r) && (r - i) % 0x1_0000_0000_0000_0000 == 0
  {
    (i + 0x8000_0000_0000_0000) % 0x1_0000_0000_0000_0000 - 0x8000_0000_0000_0000
  }

  function Letter(k: nat): (c: char)
    requires 1 <= k <= 26
    ensures 'A' <= c <= 'Z' && Rank(c) == k
  {
    (k + 'A' as int - 1) as char
  }

  function Rank(c: char): int {
    c as int - 'A' as int + 1
  }

  predicate IsName(s: string) {
    forall i :: 0 <= i < |s| ==> 'A' <= s[i] <= 'Z'
  }

  /** The place of a name in the list A, B, ..., Z, AA, AB, ...; the empty name stands before it. */
  function Value(s: string): nat
    requires IsName(s)
  {
    if s == [] then 0 else 26 * Value(s[..|s| - 1]) + Rank(s[|s| - 1])
  }

  function LastDigit(v: nat): nat {
    if v % 26 == 0 then 26 else v % 26
  }

  function Name(v: nat): (s: string)
    ensures IsName(s)
  {
    if v == 0 then [] else Name((v - LastDigit(v)) / 26) + [Letter(LastDigit(v))]
  }

  lemma LastDigitLeaves(v: nat)
    requires v > 0
    ensures LastDigit(v) <= v && 26 * ((v - LastDigit(v)) / 26) + LastDigit(v) == v
  {
  }

  lemma ValueAppend(s: string, c: char)
    requires IsName(s) && 'A' <= c <= 'Z'
    ensures Value(s + [c]) == 26 * Value(s) + Rank(c)
  {
    assert (s + [c])[..|s|] == s;
  }

  lemma {:induction false} ValueOfName(v: nat)
    ensures Value(Name(v)) == v
  {
    if v > 0 {
      LastDigitLeaves(v);
      var rest, k := (v - LastDigit(v)) / 26, LastDigit(v);
      ValueOfName(rest);
      ValueAppend(Name(rest), Letter(k));
    }
  }

  lemma LastDigitOf(v: nat, k: nat)
    requires 1 <= k <= 26
    ensures LastDigit(26 * v + k) == k
  {
    if k == 26 {
      assert (26 * v + k) % 26 == 0;
    } else {
      assert (26 * v + k) % 26 == k;
    }
  }

  lemma {:induction false} NameOfValue(s: string)
    requires IsName(s)
    ensures Name(Value(s)) == s
  {
    if s != [] {
      var init, k := s[..|s| - 1], Rank(s[|s| - 1]);
      NameOfValue(init);
      assert s == init + [s[|s| - 1]];
      LastDigitOf(Value(init), k);
    }
  }

  /** The least value of a name of this length. */
  function Least(length: nat): nat {
    if length == 0 then 0 else 26 * Least(length - 1) + 1
  }

  lemma {:induction false} ValueRange(s: string)
    requires IsName(s)
    ensures Least(|s|) <= Value(s) < Least(|s| + 1)
  {
    if s != [] {
      ValueRange(s[..|s| - 1]);
    }
  }

  lemma {:induction false} LeastGrows(a: nat, b: nat)
    requires a <= b
    ensures Least(a) <= Least(b)
    decreases b
  {
    if a < b {
      LeastGrows(a, b - 1);
    }
  }

  /** Alphabetical order of names of one length. */
  ghost predicate Before(a: string, b: string)
    requires |a| == |b|
  {
    exists i :: DifferFirstAt(a, b, i)
  }

  predicate DifferFirstAt(a: string, b: string, i: int)
    requires |a| == |b|
  {
    0 <= i < |a| && a[..i] == b[..i] && a[i] < b[i]
  }

  lemma {:induction false} BeforeIsLess(a: string, b: string, i: nat)
    requires IsName(a) && IsName(b) && |a| == |b| && DifferFirstAt(a, b, i)
    ensures Value(a) < Value(b)
    decreases |a|
  {
    var n := |a| - 1;
    if i < n {
      assert a[..n][..i] == a[..i] && b[..n][..i] == b[..i];
      BeforeIsLess(a[..n], b[..n], i);
    }
  }

  lemma {:induction false} FirstDifference(a: string, b: string) returns (i: nat)
    requires |a| == |b| && a != b
    ensures i < |a| && a[..i] == b[..i] && a[i] != b[i]
    decreases |a|
  {
    var n := |a| - 1;
    if a[..n] == b[..n] {
      i := n;
      assert a == a[..n] + [a[n]] && b == b[..n] + [b[n]];
    } else {
      i := FirstDifference(a[..n], b[..n]);
      assert a[..i] == a[..n][..i] && b[..i] == b[..n][..i];
    }
  }

  /** Column order is: shorter names first, and alphabetically among names of one length. */
  lemma {:induction false} OrderOfNames(a: string, b: string)
    requires IsName(a) && IsName(b)
    ensures Value(a) < Value(b) <==> |a| < |b| || (|a| == |b| && Before(a, b))
  {
    ValueRange(a);
    ValueRange(b);
    if |a| < |b| {
      LeastGrows(|a| + 1, |b|);
    } else if |b| < |a| {
      LeastGrows(|b| + 1, |a|);
    } else if a != b {
      var i := FirstDifference(a, b);
      if a[i] < b[i] {
        BeforeIsLess(a, b, i);
        assert DifferFirstAt(a, b, i);
      } else {
        BeforeIsLess(b, a, i);
        if Before(a, b) {
          var j: nat :| DifferFirstAt(a, b, j);
          BeforeIsLess(a, b, j);
        }
      }
    }
  }

  lemma Successor(num: int)
    requires IsInt64(num)
    ensures Wrap(num + 1) == if num == MAX_INT64 then MIN_INT64 else num + 1
  {
  }

  /** What is still to be written in front. */
  function Front(v: int): string {
    if v > 0 then Name(v) else []
  }

  lemma LastDigitFits(v: nat)
    requires v > 0
    ensures 1 <= LastDigit(v) <= 26 && LastDigit(v) <= v && (v - LastDigit(v)) % 26 == 0
    ensures (v - LastDigit(v)) / 26 < v
  {
  }

  lemma NameUnfolds(v: nat, w: nat, k: nat)
    requires v > 0 && k == LastDigit(v) && w == (v - k) / 26
    ensures Name(v) == Name(w) + [Letter(k)]
  {
  }

  lemma FrontIsName(v: nat)
    ensures Front(v) == Name(v)
  {
  }

  lemma FrontStep(v: int, k: nat, cols: string)
    requires v > 0 && k == if v % 26 == 0 then 26 else v % 26
    ensures 1 <= k <= 26 && 0 <= (v - k) / 26 < v
    ensures Front((v - k) / 26) + ([Letter(k)] + cols) == Front(v) + cols
  {
    LastDigitFits(v);
    var w := (v - k) / 26;
    NameUnfolds(v, w, k);
    FrontIsName(v);
    FrontIsName(w);
    assert (Name(w) + [Letter(k)]) + cols == Name(w) + ([Letter(k)] + cols);
  }

  lemma FrontValue(v: int)
    ensures IsName(Front(v)) && (Front(v) == "" <==> v <= 0) && (v > 0 ==> Value(Front(v)) == v)
  {
    if v > 0 {
      ValueOfName(v);
    }
  }

  /** Column number `num`, counted from 0, has the name with value num + 1. There is no name for a
      negative number, nor for the largest integer, whose successor wraps around. */
  method ConvertNumToChars(num: int) returns (cols: string)
    requires IsInt64(num)
    ensures IsName(cols)
    ensures cols == "" <==> num < 0 || num == MAX_INT64
    ensures cols != "" ==> Value(cols) == num + 1
  {
    cols := "";
    var v := Wrap(num + 1);
    Successor(num);
    ghost var total := v;
    while v > 0
      invariant Front(v) + cols == Front(total)
    {
      var k := v % 26;
      if k == 0 {
        k := 26;
      }
      FrontStep(v, k, cols);
      v := (v - k) / 26;
      cols := [Letter(k)] + cols;
    }
    assert Front(v) + cols == cols;
    FrontValue(total);
  }

  /** Naming is a bijection from the positive numbers to the non-empty strings over A to Z. */
  lemma {:induction false} NamesAreColumns(s: string, v: nat)
    requires IsName(s)
    ensures Name(v) == s <==> Value(s) == v
    ensures s != [] <==> Value(s) > 0
  {
    ValueRange(s);
    if s != [] {
      LeastGrows(1, |s|);
    }
    NameOfValue(s);
    ValueOfName(v);
  }
}
