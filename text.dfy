/**
 * String helpers the dispatcher relies on: `" ".join(...)`, a split on
 * single spaces that undoes it, Python's `str(int)` and ASCII `lower()`.
 */
module Text {
  import opened Wrappers

  // ---------------------------------------------------------------------
  // " ".join(parts) and its partner, splitting on single spaces
  // ---------------------------------------------------------------------

  /** Sum of the lengths of the parts. */
  function TotalLength(parts: seq<string>): nat {
    if |parts| == 0 then 0 else |parts[0]| + TotalLength(parts[1..])
  }

  /** Python's `" ".join(parts)`: the parts separated by single spaces. */
  function Join(parts: seq<string>): (s: string)
    ensures |parts| == 0 ==> s == ""
    ensures |parts| > 0 ==> |s| == TotalLength(parts) + |parts| - 1
    ensures |parts| > 0 ==> parts[0] <= s
  {
    if |parts| == 0 then ""
    else if |parts| == 1 then parts[0]
    else parts[0] + " " + Join(parts[1..])
  }

  /** Number of spaces in `s`. */
  function Spaces(s: string): nat {
    if |s| == 0 then 0 else (if s[0] == ' ' then 1 else 0) + Spaces(s[1..])
  }

  /** Total number of spaces inside the parts. */
  function SpacesIn(parts: seq<string>): nat {
    if |parts| == 0 then 0 else Spaces(parts[0]) + SpacesIn(parts[1..])
  }

  /** Python's `s.split(" ")`: the maximal runs between single spaces. */
  function Split(s: string): (parts: seq<string>)
    ensures |parts| == Spaces(s) + 1
  {
    if |s| == 0 then [""]
    else
      var rest := Split(s[1..]);
      if s[0] == ' ' then [""] + rest else [[s[0]] + rest[0]] + rest[1..]
  }

  lemma {:induction false} SpacesConcat(a: string, b: string)
    ensures Spaces(a + b) == Spaces(a) + Spaces(b)
  {
    if |a| > 0 {
      assert (a + b)[1..] == a[1..] + b;
      SpacesConcat(a[1..], b);
    } else {
      assert a + b == b;
    }
  }

  lemma {:induction false} NoSpaceMeansZero(s: string)
    ensures Spaces(s) == 0 <==> ' ' !in s
  {
    if |s| > 0 {
      NoSpaceMeansZero(s[1..]);
      assert s == [s[0]] + s[1..];
    }
  }

  /** The joined string holds the parts' own spaces plus one separator per gap. */
  lemma {:induction false} SpacesOfJoin(parts: seq<string>)
    requires |parts| > 0
    ensures Spaces(Join(parts)) == SpacesIn(parts) + |parts| - 1
  {
    if |parts| > 1 {
      SpacesOfJoin(parts[1..]);
      SpacesConcat(parts[0], " ");
      SpacesConcat(parts[0] + " ", Join(parts[1..]));
      assert Spaces(" ") == 1;
    }
  }

  lemma {:induction false} SplitWord(a: string)
    requires ' ' !in a
    ensures Split(a) == [a]
  {
    if |a| > 0 {
      SplitWord(a[1..]);
      assert a == [a[0]] + a[1..];
    }
  }

  lemma {:induction false} SplitAfterWord(a: string, b: string)
    requires ' ' !in a
    ensures Split(a + " " + b) == [a] + Split(b)
  {
    if |a| == 0 {
      assert a + " " + b == [' '] + b;
      assert (a + " " + b)[1..] == b;
    } else {
      assert (a + " " + b)[1..] == a[1..] + " " + b;
      SplitAfterWord(a[1..], b);
      assert a == [a[0]] + a[1..];
    }
  }

  lemma {:induction false} NoSpacesInParts(parts: seq<string>)
    requires SpacesIn(parts) == 0
    ensures forall i :: 0 <= i < |parts| ==> ' ' !in parts[i]
  {
    if |parts| > 0 {
      NoSpaceMeansZero(parts[0]);
      NoSpacesInParts(parts[1..]);
      forall i | 0 < i < |parts| ensures ' ' !in parts[i] {
        assert parts[i] == parts[1..][i - 1];
      }
    }
  }

  /**
   * Splitting the joined string on spaces gives back exactly the parts
   * if and only if no part contains a space: a part with a space is cut
   * into several words by the join.
   */
  lemma {:induction false} SplitJoin(parts: seq<string>)
    requires |parts| > 0
    ensures Split(Join(parts)) == parts <==> forall i :: 0 <= i < |parts| ==> ' ' !in parts[i]
  {
    if forall i :: 0 <= i < |parts| ==> ' ' !in parts[i] {
      SplitJoinWords(parts);
    }
    if Split(Join(parts)) == parts {
      SpacesOfJoin(parts);
      NoSpacesInParts(parts);
    }
  }

  lemma {:induction false} SplitJoinWords(parts: seq<string>)
    requires |parts| > 0
    requires forall i :: 0 <= i < |parts| ==> ' ' !in parts[i]
    ensures Split(Join(parts)) == parts
  {
    assert ' ' !in parts[0];
    if |parts| == 1 {
      SplitWord(parts[0]);
    } else {
      var tail := parts[1..];
      forall i | 0 <= i < |tail|
        ensures ' ' !in tail[i]
      {
        assert tail[i] == parts[i + 1];
      }
      SplitJoinWords(tail);
      SplitAfterWord(parts[0], Join(tail));
      assert Join(parts) == parts[0] + " " + Join(tail);
      assert parts == [parts[0]] + tail;
    }
  }

  /** A split on single spaces undoes the join of the vector. */
  predicate SurvivesJoin(parts: seq<string>) {
    Split(Join(parts)) == parts
  }

  /** Fixed option words followed by one caller-supplied operand survive the join iff the operand does. */
  lemma WordsThenOperand(words: seq<string>, operand: string)
    requires |words| > 0
    requires forall i :: 0 <= i < |words| ==> ' ' !in words[i]
    ensures SurvivesJoin(words + [operand]) <==> ' ' !in operand
  {
    var parts := words + [operand];
    SplitJoin(parts);
    assert parts[|words|] == operand;
    assert forall i :: 0 <= i < |words| ==> parts[i] == words[i];
  }

  /** Fixed words, one operand, then more fixed words survive the join iff the operand does. */
  lemma WordsAroundOperand(words: seq<string>, operand: string, more: seq<string>)
    requires |words| > 0
    requires forall i :: 0 <= i < |words| ==> ' ' !in words[i]
    requires forall i :: 0 <= i < |more| ==> ' ' !in more[i]
    ensures SurvivesJoin(words + [operand] + more) <==> ' ' !in operand
  {
    var parts := words + [operand] + more;
    forall i | 0 <= i < |parts| && i != |words|
      ensures ' ' !in parts[i]
    {
      if i < |words| {
        assert parts[i] == words[i];
      } else {
        assert parts[i] == more[i - |words| - 1];
      }
    }
    assert parts[|words|] == operand;
    SplitJoin(parts);
  }

  /** Two different vectors that join to the same command string. */
  lemma JoinMergesWords()
    ensures Join(["-f", "port 80"]) == Join(["-f", "port", "80"])
    ensures ["-f", "port 80"] != ["-f", "port", "80"]
  {
  }

  // ---------------------------------------------------------------------
  // Python's str(int) and its partner, reading a decimal back
  // ---------------------------------------------------------------------

  predicate IsDigits(s: string) {
    forall i :: 0 <= i < |s| ==> '0' <= s[i] <= '9'
  }

  function DigitChar(d: nat): (c: char)
    requires d < 10
    ensures '0' <= c <= '9'
  {
    ('0' as int + d) as char
  }

  /** Decimal digits of `n`, most significant first, without leading zeros. */
  function NatToString(n: nat): (s: string)
    ensures |s| >= 1 && IsDigits(s)
    ensures s[0] == '0' ==> n == 0
    decreases n
  {
    if n < 10 then [DigitChar(n)] else NatToString(n / 10) + [DigitChar(n % 10)]
  }

  /** Python's `str(n)` for an `int`. */
  function IntToString(n: int): (s: string)
    ensures |s| >= 1
    ensures n < 0 <==> s[0] == '-'
    ensures ' ' !in s
  {
    if n < 0 then "-" + NatToString(-n) else NatToString(n)
  }

  /** Value of a string of decimal digits. */
  function DigitsValue(s: string): nat
    requires IsDigits(s)
    decreases |s|
  {
    if |s| == 0 then 0 else DigitsValue(s[..|s| - 1]) * 10 + (s[|s| - 1] as int - '0' as int)
  }

  /** Reads an optional minus sign followed by at least one digit. */
  function ParseInt(s: string): Option<int> {
    if |s| > 0 && IsDigits(s) then Some(DigitsValue(s))
    else if |s| > 1 && s[0] == '-' && IsDigits(s[1..]) then Some(0 - DigitsValue(s[1..]) as int)
    else None
  }

  lemma {:induction false} NatToStringValue(n: nat)
    ensures DigitsValue(NatToString(n)) == n
    decreases n
  {
    if n >= 10 {
      NatToStringValue(n / 10);
      var s := NatToString(n);
      assert s[..|s| - 1] == NatToString(n / 10);
    }
  }

  /** `str` never loses information about an integer. */
  lemma IntToStringRoundTrip(n: int)
    ensures ParseInt(IntToString(n)) == Some(n)
  {
    if n < 0 {
      var t := NatToString(-n);
      NatToStringValue(-n);
      var s := "-" + t;
      assert s == IntToString(n);
      assert s[1..] == t;
      assert !IsDigits(s) by { assert s[0] == '-'; }
      assert ParseInt(s) == Some(0 - DigitsValue(t) as int);
    } else {
      NatToStringValue(n);
    }
  }

  // ---------------------------------------------------------------------
  // str.lower() on the ASCII range
  // ---------------------------------------------------------------------

  function LowerChar(c: char): char {
    if 'A' <= c <= 'Z' then (c as int + 32) as char else c
  }

  /** Lower-cases every ASCII capital letter, position by position. */
  function Lower(s: string): (r: string)
    ensures |r| == |s|
    ensures forall i :: 0 <= i < |s| ==> r[i] == LowerChar(s[i])
  {
    if |s| == 0 then "" else [LowerChar(s[0])] + Lower(s[1..])
  }
}
