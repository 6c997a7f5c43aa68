/**
 * The parts of Python's `str` behaviour the control plane relies on:
 * whitespace and digit classes, `split`, `strip`, `startswith`, `in`,
 * `lower`/`upper` and decimal conversion. Strings are sequences of
 * Unicode code points, as in Python.
 */
module Text {

  /** `c.isspace()`: the whitespace set CPython uses for `split()` and `strip()`. */
  predicate IsSpace(c: char) {
    var n := c as int;
    n == 32 || 9 <= n <= 13 || 28 <= n <= 31 || n == 0x85 || n == 0xA0 || n == 0x1680
    || 0x2000 <= n <= 0x200A || n == 0x2028 || n == 0x2029 || n == 0x202F || n == 0x205F
    || n == 0x3000
  }

  /** An ASCII decimal digit (`c.isascii() and c.isdigit()`). */
  predicate IsDigit(c: char) {
    '0' <= c <= '9'
  }

  predicate IsAsciiLetter(c: char) {
    'a' <= c <= 'z' || 'A' <= c <= 'Z'
  }

  /** `c.isalnum()` restricted to ASCII letters and digits. */
  predicate IsAlnum(c: char) {
    IsDigit(c) || IsAsciiLetter(c)
  }

  predicate AllDigits(s: string) {
    forall i :: 0 <= i < |s| ==> IsDigit(s[i])
  }

  function LowerChar(c: char): char {
    if 'A' <= c <= 'Z' then (c as int + 32) as char else c
  }

  function UpperChar(c: char): char {
    if 'a' <= c <= 'z' then (c as int - 32) as char else c
  }

  /** `s.lower()` on ASCII letters; every other character is kept. */
  function Lower(s: string): (r: string)
    ensures |r| == |s|
    ensures forall i :: 0 <= i < |s| ==> r[i] == LowerChar(s[i])
  {
    seq(|s|, i requires 0 <= i < |s| => LowerChar(s[i]))
  }

  /** `s.upper()` on ASCII letters; every other character is kept. */
  function Upper(s: string): (r: string)
    ensures |r| == |s|
    ensures forall i :: 0 <= i < |s| ==> r[i] == UpperChar(s[i])
  {
    seq(|s|, i requires 0 <= i < |s| => UpperChar(s[i]))
  }

  /** `sub in s`: some contiguous slice of `s` equals `sub`. */
  predicate Contains(s: string, sub: string)
    decreases |s|
  {
    sub <= s || (|s| > 0 && Contains(s[1..], sub))
  }

  /** `s.lstrip()`: exactly the leading whitespace is removed. */
  function LStrip(s: string): (r: string)
    ensures |r| <= |s| && r == s[|s| - |r|..]
    ensures r == [] || !IsSpace(r[0])
    ensures forall i :: 0 <= i < |s| - |r| ==> IsSpace(s[i])
  {
    if |s| > 0 && IsSpace(s[0]) then LStrip(s[1..]) else s
  }

  /** `s.rstrip()`: exactly the trailing whitespace is removed. */
  function RStrip(s: string): (r: string)
    ensures |r| <= |s| && r == s[..|r|]
    ensures r == [] || !IsSpace(r[|r| - 1])
    ensures forall i :: |r| <= i < |s| ==> IsSpace(s[i])
  {
    if |s| > 0 && IsSpace(s[|s| - 1]) then RStrip(s[..|s| - 1]) else s
  }

  /** `s.strip()`. */
  function Strip(s: string): string {
    RStrip(LStrip(s))
  }

  /** `s.rstrip(c)` for a single character `c`. */
  function RStripChar(s: string, c: char): (r: string)
    ensures |r| <= |s| && r == s[..|r|]
    ensures r == [] || r[|r| - 1] != c
    ensures forall i :: |r| <= i < |s| ==> s[i] == c
  {
    if |s| > 0 && s[|s| - 1] == c then RStripChar(s[..|s| - 1], c) else s
  }

  /** `s.replace(a, b)` for single characters. */
  function ReplaceChar(s: string, a: char, b: char): (r: string)
    ensures |r| == |s|
    ensures forall i :: 0 <= i < |s| ==> r[i] == if s[i] == a then b else s[i]
  {
    seq(|s|, i requires 0 <= i < |s| => if s[i] == a then b else s[i])
  }

  /** `sep.join(parts)`. */
  function Join(parts: seq<string>, sep: string): string
    decreases |parts|
  {
    if |parts| == 0 then ""
    else if |parts| == 1 then parts[0]
    else parts[0] + sep + Join(parts[1..], sep)
  }

  /** `s.split(sep)` for a one-character separator: never empty, separators dropped. */
  function Split(s: string, sep: char): (r: seq<string>)
    ensures |r| >= 1
    ensures forall k :: 0 <= k < |r| ==> sep !in r[k]
    decreases |s|
  {
    if |s| == 0 then [""]
    else
      var rest := Split(s[1..], sep);
      if s[0] == sep then [""] + rest else [[s[0]] + rest[0]] + rest[1..]
  }

  /** Joining the pieces of a split with the separator gives the string back. */
  lemma {:induction false} JoinSplit(s: string, sep: char)
    ensures Join(Split(s, sep), [sep]) == s
    decreases |s|
  {
    if |s| > 0 {
      var rest := Split(s[1..], sep);
      JoinSplit(s[1..], sep);
      if s[0] == sep {
        assert Split(s, sep) == [""] + rest;
        assert ([""] + rest)[1..] == rest;
      } else {
        var r := [[s[0]] + rest[0]] + rest[1..];
        assert Split(s, sep) == r;
        if |rest| == 1 {
          assert Join(rest, [sep]) == rest[0];
        } else {
          assert Join(rest, [sep]) == rest[0] + [sep] + Join(rest[1..], [sep]);
          assert r[1..] == rest[1..];
        }
      }
    }
  }

  /** Splitting a join of separator-free pieces gives the pieces back. */
  lemma {:induction false} SplitJoin(parts: seq<string>, sep: char)
    requires |parts| >= 1
    requires forall k :: 0 <= k < |parts| ==> sep !in parts[k]
    ensures Split(Join(parts, [sep]), sep) == parts
    decreases |parts|, |parts[0]|
  {
    var p := parts[0];
    if |p| == 0 {
      if |parts| > 1 {
        var tail := Join(parts[1..], [sep]);
        assert Join(parts, [sep]) == [sep] + tail;
        SplitJoin(parts[1..], sep);
        assert ([sep] + tail)[1..] == tail;
        assert [parts[0]] + parts[1..] == parts;
      }
    } else {
      var shorter := [p[1..]] + parts[1..];
      assert shorter[0] == p[1..];
      assert forall k :: 1 <= k < |shorter| ==> shorter[k] == parts[k];
      SplitJoin(shorter, sep);
      var j := Join(parts, [sep]);
      if |parts| == 1 {
        assert j == p;
        assert j[1..] == Join(shorter, [sep]);
      } else {
        assert j == p + [sep] + Join(parts[1..], [sep]);
        assert j[1..] == p[1..] + [sep] + Join(parts[1..], [sep]);
        assert j[1..] == Join(shorter, [sep]);
      }
      assert j[0] == p[0];
      var rest := Split(j[1..], sep);
      assert rest == shorter;
      assert [p[0]] + p[1..] == p;
      assert [[p[0]] + rest[0]] + rest[1..] == parts;
    }
  }

  /** The longest prefix of `s` that holds no whitespace. */
  function TakeWord(s: string): (w: string)
    ensures |w| <= |s| && w == s[..|w|]
    ensures forall i :: 0 <= i < |w| ==> !IsSpace(w[i])
    ensures |w| == |s| || IsSpace(s[|w|])
  {
    if |s| == 0 || IsSpace(s[0]) then [] else [s[0]] + TakeWord(s[1..])
  }

  /** `s.lstrip()` of whitespace only is empty. */
  lemma {:induction false} LStripSpaces(s: string)
    requires forall i :: 0 <= i < |s| ==> IsSpace(s[i])
    ensures LStrip(s) == []
    decreases |s|
  {
    if |s| > 0 {
      LStripSpaces(s[1..]);
    }
  }

  /** The first word is taken up to the whitespace that follows it. */
  lemma {:induction false} TakeWordPrefix(w: string, after: string)
    requires forall i :: 0 <= i < |w| ==> !IsSpace(w[i])
    requires after == [] || IsSpace(after[0])
    ensures TakeWord(w + after) == w
    decreases |w|
  {
    if |w| > 0 {
      assert (w + after)[1..] == w[1..] + after;
      TakeWordPrefix(w[1..], after);
    } else {
      assert w + after == after;
    }
  }

  /** A non-empty run of characters none of which is whitespace. */
  predicate IsWord(w: string) {
    w != [] && forall i :: 0 <= i < |w| ==> !IsSpace(w[i])
  }

  /** `s.split()`: the maximal runs of non-whitespace characters, in order. */
  function Words(s: string): seq<string>
    decreases |s|
  {
    var t := LStrip(s);
    if t == [] then []
    else
      var w := TakeWord(t);
      [w] + Words(t[|w|..])
  }

  /** Every piece `s.split()` returns is a non-empty run without whitespace. */
  lemma {:induction false} WordsAreWords(s: string)
    ensures forall k :: 0 <= k < |Words(s)| ==> IsWord(Words(s)[k])
    decreases |s|
  {
    var t := LStrip(s);
    if t != [] {
      var w := TakeWord(t);
      var rest := Words(t[|w|..]);
      WordsAreWords(t[|w|..]);
      assert Words(s) == [w] + rest;
      assert IsWord(w);
      forall k | 0 <= k < |Words(s)| ensures IsWord(Words(s)[k]) {
        if k > 0 {
          assert Words(s)[k] == rest[k - 1];
        }
      }
    }
  }

  /** The characters of `s` that are not whitespace, in order. */
  function DropSpaces(s: string): string
    decreases |s|
  {
    if |s| == 0 then "" else (if IsSpace(s[0]) then "" else [s[0]]) + DropSpaces(s[1..])
  }

  function Concat(parts: seq<string>): string
    decreases |parts|
  {
    if |parts| == 0 then "" else parts[0] + Concat(parts[1..])
  }

  lemma {:induction false} DropSpacesAppend(a: string, b: string)
    ensures DropSpaces(a + b) == DropSpaces(a) + DropSpaces(b)
    decreases |a|
  {
    if |a| > 0 {
      assert (a + b)[1..] == a[1..] + b;
      DropSpacesAppend(a[1..], b);
    } else {
      assert a + b == b;
    }
  }

  lemma {:induction false} DropSpacesAllSpace(s: string)
    requires forall i :: 0 <= i < |s| ==> IsSpace(s[i])
    ensures DropSpaces(s) == ""
    decreases |s|
  {
    if |s| > 0 {
      DropSpacesAllSpace(s[1..]);
    }
  }

  lemma {:induction false} DropSpacesNoSpace(s: string)
    requires forall i :: 0 <= i < |s| ==> !IsSpace(s[i])
    ensures DropSpaces(s) == s
    decreases |s|
  {
    if |s| > 0 {
      DropSpacesNoSpace(s[1..]);
      assert [s[0]] + s[1..] == s;
    }
  }

  /** `s.split()` loses only whitespace: its words concatenated are `s` without whitespace. */
  lemma {:induction false} WordsKeepEveryOtherChar(s: string)
    ensures Concat(Words(s)) == DropSpaces(s)
    decreases |s|
  {
    var t := LStrip(s);
    DropSpacesLStrip(s);
    if t != [] {
      var w := TakeWord(t);
      var after := t[|w|..];
      DropSpacesWord(t);
      WordsKeepEveryOtherChar(after);
      var ws := Words(s);
      assert ws == [w] + Words(after);
      assert ws[1..] == Words(after);
      assert Concat(ws) == w + Concat(Words(after));
    } else {
      assert DropSpaces(t) == "";
    }
  }

  /** Leading whitespace contributes nothing once whitespace is dropped. */
  lemma DropSpacesLStrip(s: string)
    ensures DropSpaces(s) == DropSpaces(LStrip(s))
  {
    var t := LStrip(s);
    var pre := s[..|s| - |t|];
    assert s == pre + t;
    forall i | 0 <= i < |pre| ensures IsSpace(pre[i]) {
      assert pre[i] == s[i];
    }
    DropSpacesAllSpace(pre);
    DropSpacesAppend(pre, t);
  }

  /** A leading word is kept whole when whitespace is dropped. */
  lemma DropSpacesWord(t: string)
    ensures var w := TakeWord(t); DropSpaces(t) == w + DropSpaces(t[|w|..])
  {
    var w := TakeWord(t);
    var after := t[|w|..];
    assert t == w + after;
    DropSpacesNoSpace(w);
    DropSpacesAppend(w, after);
  }

  /** `s.split(None, 1)`: the first word and, when more follows, the rest with its leading whitespace removed. */
  function SplitOnce(s: string): (r: seq<string>)
    ensures |r| <= 2
    ensures r == [] <==> Words(s) == []
    ensures |r| >= 1 ==> r[0] == Words(s)[0]
    ensures |r| == 2 <==> |Words(s)| >= 2
  {
    var t := LStrip(s);
    if t == [] then []
    else
      var w := TakeWord(t);
      var rest := LStrip(t[|w|..]);
      if rest == [] then [w] else [w, rest]
  }

  function DigitChar(d: nat): (c: char)
    requires d < 10
    ensures IsDigit(c)
  {
    ('0' as int + d) as char
  }

  function DigitValue(c: char): (d: nat)
    requires IsDigit(c)
    ensures d < 10
  {
    c as int - '0' as int
  }

  /** `str(n)` for a non-negative integer. */
  function NatToString(n: nat): (r: string)
    ensures |r| >= 1 && AllDigits(r)
    ensures r[0] == '0' ==> r == "0"
  {
    if n < 10 then [DigitChar(n)] else NatToString(n / 10) + [DigitChar(n % 10)]
  }

  /** `str(i)` for any integer. */
  function IntToString(i: int): string {
    if i < 0 then "-" + NatToString(-i) else NatToString(i)
  }

  /** The value of a string of ASCII digits, read most significant first. */
  function DigitsValue(s: string): nat
    requires AllDigits(s)
    decreases |s|
  {
    if |s| == 0 then 0 else DigitsValue(s[..|s| - 1]) * 10 + DigitValue(s[|s| - 1])
  }

  /** Reading back the decimal text of `n` gives `n`. */
  lemma {:induction false} NatToStringValue(n: nat)
    ensures DigitsValue(NatToString(n)) == n
  {
    if n >= 10 {
      NatToStringValue(n / 10);
      var r := NatToString(n);
      assert r[..|r| - 1] == NatToString(n / 10);
    }
  }

  /** Three digits or fewer only for numbers below 1000. */
  lemma {:induction false} NatToStringLength(n: nat)
    ensures n < 10 ==> |NatToString(n)| == 1
    ensures 10 <= n < 100 ==> |NatToString(n)| == 2
    ensures 100 <= n < 1000 ==> |NatToString(n)| == 3
  {
    if n >= 10 {
      NatToStringLength(n / 10);
    }
  }

  /** A digit string without a leading zero (other than `0` itself) is the decimal text of its value. */
  lemma {:induction false} CanonicalDigits(s: string)
    requires s != [] && AllDigits(s) && (s[0] == '0' ==> s == "0")
    ensures NatToString(DigitsValue(s)) == s
    ensures s != "0" ==> DigitsValue(s) >= 1
    decreases |s|
  {
    var d := DigitValue(s[|s| - 1]);
    if |s| == 1 {
      assert DigitsValue(s) == d;
      assert DigitChar(d) == s[0];
    } else {
      var front := s[..|s| - 1];
      assert front[0] == s[0];
      CanonicalDigits(front);
      var v := DigitsValue(s);
      assert v == DigitsValue(front) * 10 + d;
      assert v / 10 == DigitsValue(front) && v % 10 == d;
      assert DigitChar(d) == s[|s| - 1];
      assert NatToString(v) == NatToString(v / 10) + [DigitChar(v % 10)];
      assert front + [s[|s| - 1]] == s;
    }
  }
}
