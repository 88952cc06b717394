/**
 * The two string operations the bridge relies on: Python's `str.replace`
 * (every occurrence, no count) and the decimal text of a number (`f"{n}"`).
 */
module Text {

  /**
   * `s.replace(target, replacement)`: scanning left to right, each occurrence
   * of `target` that does not overlap an earlier replaced one is replaced.
   * An empty target matches before every character and at the end.
   */
  function ReplaceAll(s: string, target: string, replacement: string): string
    decreases |s|
  {
    if target == [] then Interleave(s, replacement)
    else if s == [] then []
    else if target <= s then replacement + ReplaceAll(s[|target|..], target, replacement)
    else [s[0]] + ReplaceAll(s[1..], target, replacement)
  }

  /** `s.replace("", r)`: r before every character of s and once more at the end. */
  function Interleave(s: string, r: string): string
  {
    if s == [] then r else r + [s[0]] + Interleave(s[1..], r)
  }

  /** p stands in s from position i on. */
  ghost predicate OccursAt(s: string, p: string, i: int)
  {
    0 <= i && i + |p| <= |s| && s[i..i + |p|] == p
  }

  /** `p in s` on strings: p is a substring of s. */
  ghost predicate Occurs(s: string, p: string)
  {
    exists i :: OccursAt(s, p, i)
  }

  lemma OccursAtHead(s: string, p: string)
    ensures OccursAt(s, p, 0) <==> p <= s
  {
    if OccursAt(s, p, 0) {
      assert s[..|p|] == s[0..0 + |p|];
    }
  }

  lemma OccursInTail(s: string, p: string)
    ensures s != [] && Occurs(s[1..], p) ==> Occurs(s, p)
  {
    if s != [] && Occurs(s[1..], p) {
      var i :| OccursAt(s[1..], p, i);
      assert s[1..][i..i + |p|] == s[i + 1..i + 1 + |p|];
      assert OccursAt(s, p, i + 1);
    }
  }

  /** Replacing a string by itself changes nothing. */
  lemma {:induction false} ReplaceSelf(s: string, target: string)
    ensures ReplaceAll(s, target, target) == s
    decreases |s|
  {
    if target == [] {
      InterleaveEmpty(s);
    } else if s != [] {
      if target <= s {
        ReplaceSelf(s[|target|..], target);
        assert s == target + s[|target|..];
      } else {
        ReplaceSelf(s[1..], target);
        assert s == [s[0]] + s[1..];
      }
    }
  }

  lemma {:induction false} InterleaveEmpty(s: string)
    ensures Interleave(s, []) == s
  {
    if s != [] {
      InterleaveEmpty(s[1..]);
      assert s == [s[0]] + s[1..];
    }
  }

  lemma {:induction false} InterleaveLength(s: string, r: string)
    ensures |Interleave(s, r)| >= |s| + |r|
  {
    if s != [] {
      InterleaveLength(s[1..], r);
    }
  }

  /** Replacing a target that does not occur changes nothing. */
  lemma {:induction false} ReplaceAbsent(s: string, target: string, replacement: string)
    requires target != []
    requires !Occurs(s, target)
    ensures ReplaceAll(s, target, replacement) == s
    decreases |s|
  {
    if s != [] {
      OccursAtHead(s, target);
      OccursInTail(s, target);
      ReplaceAbsent(s[1..], target, replacement);
      assert s == [s[0]] + s[1..];
    }
  }

  /** A replacement no shorter than the target never shortens, one no longer never lengthens. */
  lemma {:induction false} ReplaceLength(s: string, target: string, replacement: string)
    requires target != []
    ensures |replacement| >= |target| ==> |ReplaceAll(s, target, replacement)| >= |s|
    ensures |replacement| <= |target| ==> |ReplaceAll(s, target, replacement)| <= |s|
    decreases |s|
  {
    if s != [] {
      if target <= s {
        ReplaceLength(s[|target|..], target, replacement);
      } else {
        ReplaceLength(s[1..], target, replacement);
      }
    }
  }

  /** Replacing an occurring target by a different string always changes the string. */
  lemma {:induction false} ReplaceChanges(s: string, target: string, replacement: string)
    requires target != [] && target != replacement
    requires Occurs(s, target)
    ensures ReplaceAll(s, target, replacement) != s
    decreases |s|
  {
    var i :| OccursAt(s, target, i);
    var r := ReplaceAll(s, target, replacement);
    if target <= s {
      var rest := s[|target|..];
      assert r == replacement + ReplaceAll(rest, target, replacement);
      ReplaceLength(rest, target, replacement);
      if |replacement| == |target| {
        assert r[..|target|] == replacement;
        assert s[..|target|] == target;
      } else {
        assert s == target + rest;
        assert |r| != |s|;
      }
    } else {
      OccursAtHead(s, target);
      assert OccursAt(s[1..], target, i - 1);
      ReplaceChanges(s[1..], target, replacement);
      assert r == [s[0]] + ReplaceAll(s[1..], target, replacement);
      assert r[1..] == ReplaceAll(s[1..], target, replacement);
    }
  }

  /**
   * A replacement leaves the string as it was exactly when the target and the
   * replacement are equal or the target does not occur; with an empty target,
   * exactly when the replacement is empty too.
   */
  lemma ReplaceUnchangedIff(s: string, target: string, replacement: string)
    ensures ReplaceAll(s, target, replacement) == s <==>
              if target == [] then replacement == []
              else target == replacement || !Occurs(s, target)
  {
    if target == [] {
      if replacement == [] {
        InterleaveEmpty(s);
      } else {
        InterleaveLength(s, replacement);
      }
    } else if target == replacement {
      ReplaceSelf(s, target);
    } else if Occurs(s, target) {
      ReplaceChanges(s, target, replacement);
    } else {
      ReplaceAbsent(s, target, replacement);
    }
  }

  /** A string that starts with the target and holds no further occurrence has just its head swapped. */
  lemma ReplaceLeading(target: string, rest: string, replacement: string)
    requires target != []
    requires !Occurs(rest, target)
    ensures ReplaceAll(target + rest, target, replacement) == replacement + rest
  {
    var s := target + rest;
    assert target <= s;
    assert s[|target|..] == rest;
    ReplaceAbsent(rest, target, replacement);
  }

  predicate IsDigits(s: string)
  {
    forall i | 0 <= i < |s| :: '0' <= s[i] <= '9'
  }

  function DigitChar(d: nat): char
    requires d < 10
  {
    ('0' as int + d) as char
  }

  /** `f"{n}"` for a non-negative int: its decimal digits, without leading zeros. */
  function Decimal(n: nat): (s: string)
    ensures |s| > 0 && IsDigits(s)
    ensures s[0] == '0' ==> n == 0
  {
    if n < 10 then [DigitChar(n)] else Decimal(n / 10) + [DigitChar(n % 10)]
  }

  /** The number a string of decimal digits denotes, most significant first. */
  function DecimalValue(s: string): nat
    requires IsDigits(s)
  {
    if s == [] then 0 else 10 * DecimalValue(s[..|s| - 1]) + (s[|s| - 1] as int - '0' as int)
  }

  /** Reading the decimal text of a number back gives that number. */
  lemma {:induction false} DecimalRoundTrip(n: nat)
    ensures DecimalValue(Decimal(n)) == n
  {
    if n >= 10 {
      DecimalRoundTrip(n / 10);
      var s := Decimal(n);
      assert s[..|s| - 1] == Decimal(n / 10);
    }
  }
}
