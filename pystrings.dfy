/**
 * The handful of Python `str` operations the two scripts rely on, for ASCII text:
 * `split` on one character, `upper`/`lower`/`capitalize`, `isnumeric`, `str(int)`,
 * `rfind`, and the code-point order `<` that sorting strings uses.
 */
module PyStrings {

  // ---------------------------------------------------------------------------
  // split / join

  /** `s.split(sep)`: the pieces between occurrences of `sep`, left to right. */
  function Split(s: string, sep: char): (parts: seq<string>)
    ensures |parts| >= 1
  {
    if s == [] then [""]
    else
      var rest := Split(s[1..], sep);
      if s[0] == sep then [""] + rest
      else [[s[0]] + rest[0]] + rest[1..]
  }

  /** `sep.join(parts)`. */
  function Join(parts: seq<string>, sep: char): string {
    if parts == [] then ""
    else if |parts| == 1 then parts[0]
    else parts[0] + [sep] + Join(parts[1..], sep)
  }

  /** No piece produced by `Split` contains the separator. */
  lemma {:induction false} SplitPiecesLackSep(s: string, sep: char)
    ensures forall i :: 0 <= i < |Split(s, sep)| ==> sep !in Split(s, sep)[i]
  {
    if s != [] {
      SplitPiecesLackSep(s[1..], sep);
    }
  }

  /** Joining the pieces back with the separator gives the original string. */
  lemma {:induction false} JoinSplit(s: string, sep: char)
    ensures Join(Split(s, sep), sep) == s
  {
    if s != [] {
      var rest := Split(s[1..], sep);
      JoinSplit(s[1..], sep);
      if s[0] == sep {
        assert Split(s, sep) == [""] + rest;
        assert ([""] + rest)[1..] == rest;
      } else {
        var parts := Split(s, sep);
        assert parts[1..] == rest[1..];
        if |rest| == 1 {
          assert parts == [[s[0]] + rest[0]];
        } else {
          assert Join(rest, sep) == rest[0] + [sep] + Join(rest[1..], sep);
        }
      }
    }
  }

  /** `s.split(sep)[-1]`. */
  function LastSegment(s: string, sep: char): string {
    var parts := Split(s, sep);
    parts[|parts| - 1]
  }

  /**
   * The last segment is the longest suffix of `s` free of `sep`: it is a suffix,
   * holds no separator, and is either all of `s` or preceded by a separator.
   */
  lemma {:induction false} SplitWithoutSep(s: string, sep: char)
    requires sep !in s
    ensures Split(s, sep) == [s]
  {
    if s != [] {
      assert s[0] == s[0] && s[0] in s;
      assert forall k :: 0 <= k < |s[1..]| ==> s[1..][k] == s[k + 1];
      SplitWithoutSep(s[1..], sep);
      assert Split(s, sep) == [[s[0]] + s[1..]];
      assert [s[0]] + s[1..] == s;
    }
  }

  lemma {:induction false} LastSegmentIsMaximalSuffix(s: string, sep: char)
    ensures var r := LastSegment(s, sep);
      && |r| <= |s| && s[|s| - |r|..] == r && sep !in r
      && (|r| < |s| ==> s[|s| - |r| - 1] == sep)
  {
    SplitPiecesLackSep(s, sep);
    if s != [] {
      var t := s[1..];
      var rest := Split(t, sep);
      var r := LastSegment(s, sep);
      LastSegmentIsMaximalSuffix(t, sep);
      var rt := LastSegment(t, sep);
      if s[0] != sep && |rest| == 1 {
        JoinSplit(t, sep);
        assert rest[0] == t;
        assert r == [s[0]] + t == s;
      } else {
        assert r == rt;
        assert s[|s| - |r|..] == t[|t| - |rt|..];
        if |rt| == |t| {
          if s[0] != sep {
            assert t[|t| - |rt|..] == t;
            SplitWithoutSep(t, sep);
            assert false;
          }
        } else {
          assert s[|s| - |r| - 1] == t[|t| - |rt| - 1];
        }
      }
    }
  }

  // ---------------------------------------------------------------------------
  // Case mapping (ASCII letters only)

  function UpperChar(c: char): char {
    if 'a' <= c <= 'z' then (c as int - 32) as char else c
  }

  function LowerChar(c: char): char {
    if 'A' <= c <= 'Z' then (c as int + 32) as char else c
  }

  predicate IsLowerAscii(c: char) { 'a' <= c <= 'z' }

  predicate IsAsciiLetter(c: char) { 'a' <= c <= 'z' || 'A' <= c <= 'Z' }

  /** `s.upper()`. */
  function Upper(s: string): string {
    seq(|s|, i requires 0 <= i < |s| => UpperChar(s[i]))
  }

  /** `s.lower()`. */
  function Lower(s: string): string {
    seq(|s|, i requires 0 <= i < |s| => LowerChar(s[i]))
  }

  /** `w.capitalize()`: first character upper-cased, the rest lower-cased. */
  function Capitalize(w: string): string {
    if w == [] then [] else [UpperChar(w[0])] + Lower(w[1..])
  }

  /** An upper-cased string has no lower-case letter, and upper-casing it again changes nothing. */
  lemma UpperIsCaseless(s: string)
    ensures |Upper(s)| == |s|
    ensures forall i :: 0 <= i < |s| ==> !IsLowerAscii(Upper(s)[i])
    ensures Upper(Upper(s)) == Upper(s)
    ensures Lower(Upper(s)) == Lower(s)
  {
  }

  /** Capitalising only changes letter case. */
  lemma CapitalizeKeepsLetters(w: string)
    ensures |Capitalize(w)| == |w|
    ensures Lower(Capitalize(w)) == Lower(w)
    ensures w != [] ==> !IsLowerAscii(Capitalize(w)[0])
  {
    if w != [] {
      assert Lower(Capitalize(w)) == [LowerChar(UpperChar(w[0]))] + Lower(Lower(w[1..]));
      assert Lower(w) == [LowerChar(w[0])] + Lower(w[1..]);
    }
  }

  /** The concatenation of a sequence of strings, `"".join(parts)`. */
  function Concat(parts: seq<string>): string {
    if parts == [] then "" else parts[0] + Concat(parts[1..])
  }

  /** `"".join(w.capitalize() for w in name.split("_"))`. */
  function CamelJoin(name: string): string {
    Concat(CapitalizeAll(Split(name, '_')))
  }

  function CapitalizeAll(parts: seq<string>): (r: seq<string>)
    ensures |r| == |parts|
    ensures forall i :: 0 <= i < |parts| ==> r[i] == Capitalize(parts[i])
  {
    if parts == [] then [] else [Capitalize(parts[0])] + CapitalizeAll(parts[1..])
  }

  /** `s` with every occurrence of `c` removed. */
  function Without(s: string, c: char): (r: string)
    ensures c !in r
  {
    if s == [] then "" else (if s[0] == c then "" else [s[0]]) + Without(s[1..], c)
  }

  lemma LowerDistributes(a: string, b: string)
    ensures Lower(a + b) == Lower(a) + Lower(b)
  {
  }

  lemma {:induction false} LowerConcatCapitalized(parts: seq<string>)
    ensures Lower(Concat(CapitalizeAll(parts))) == Lower(Concat(parts))
  {
    if parts != [] {
      LowerConcatCapitalized(parts[1..]);
      CapitalizeKeepsLetters(parts[0]);
      assert CapitalizeAll(parts) == [Capitalize(parts[0])] + CapitalizeAll(parts[1..]);
      LowerDistributes(Capitalize(parts[0]), Concat(CapitalizeAll(parts[1..])));
      LowerDistributes(parts[0], Concat(parts[1..]));
    }
  }

  lemma {:induction false} WithoutAppend(a: string, b: string, c: char)
    ensures Without(a + b, c) == Without(a, c) + Without(b, c)
  {
    if a != [] {
      WithoutAppend(a[1..], b, c);
      assert (a + b)[1..] == a[1..] + b;
    } else {
      assert a + b == b;
    }
  }

  lemma {:induction false} WithoutAbsent(s: string, c: char)
    requires c !in s
    ensures Without(s, c) == s
  {
    if s != [] {
      WithoutAbsent(s[1..], c);
    }
  }

  /** Removing the separator from a join of separator-free pieces concatenates them. */
  lemma {:induction false} WithoutJoin(parts: seq<string>, c: char)
    requires forall i :: 0 <= i < |parts| ==> c !in parts[i]
    ensures Without(Join(parts, c), c) == Concat(parts)
  {
    if parts != [] {
      WithoutAbsent(parts[0], c);
      if |parts| == 1 {
        assert Concat(parts[1..]) == "";
      } else {
        var tail := Join(parts[1..], c);
        calc {
          Without(Join(parts, c), c);
          Without(parts[0] + [c] + tail, c);
          { WithoutAppend(parts[0] + [c], tail, c); }
          Without(parts[0] + [c], c) + Without(tail, c);
          { WithoutAppend(parts[0], [c], c); WithoutJoin(parts[1..], c); }
          Without(parts[0], c) + Without([c], c) + Concat(parts[1..]);
          { assert Without([c], c) == ""; }
          parts[0] + Concat(parts[1..]);
        }
      }
    }
  }

  /**
   * The group name of a cell set is its name with the underscores dropped and only
   * letter case changed: it holds no `_`, and lower-casing it gives the lower-cased
   * name without underscores (so its length is the name's minus the underscores).
   */
  lemma CamelJoinDropsUnderscores(name: string)
    ensures '_' !in CamelJoin(name)
    ensures Lower(CamelJoin(name)) == Lower(Without(name, '_'))
  {
    var parts := Split(name, '_');
    SplitPiecesLackSep(name, '_');
    JoinSplit(name, '_');
    WithoutJoin(parts, '_');
    LowerConcatCapitalized(parts);
    CapitalizedPiecesLackUnderscore(CapitalizeAll(parts), parts);
  }

  lemma {:induction false} CapitalizedPiecesLackUnderscore(caps: seq<string>, parts: seq<string>)
    requires |caps| == |parts|
    requires forall i :: 0 <= i < |parts| ==> '_' !in parts[i] && caps[i] == Capitalize(parts[i])
    ensures '_' !in Concat(caps)
  {
    if caps != [] {
      CapitalizedPiecesLackUnderscore(caps[1..], parts[1..]);
      var w := parts[0];
      if w != [] {
        assert forall k :: 0 <= k < |w| ==> w[k] != '_';
        assert forall k :: 0 <= k < |caps[0]| ==> caps[0][k] != '_';
      }
    }
  }

  // ---------------------------------------------------------------------------
  // Numerals

  predicate IsDigit(c: char) { '0' <= c <= '9' }

  /** `s.isnumeric()` for ASCII text: non-empty and all digits. */
  predicate IsNumeric(s: string) {
    |s| > 0 && forall i :: 0 <= i < |s| ==> IsDigit(s[i])
  }

  function DigitChar(d: nat): char
    requires d < 10
  {
    ('0' as int + d) as char
  }

  /** `str(n)` for a non-negative integer. */
  function NatToString(n: nat): (s: string)
    ensures IsNumeric(s)
  {
    if n < 10 then [DigitChar(n)] else NatToString(n / 10) + [DigitChar(n % 10)]
  }

  /** `str(i)` for any integer. */
  function IntToString(i: int): string {
    if i < 0 then "-" + NatToString(-i) else NatToString(i)
  }

  /** `int(s)` for a numeric string. */
  function ParseNat(s: string): nat
    requires IsNumeric(s)
  {
    var d := (s[|s| - 1] as int - '0' as int) as nat;
    if |s| == 1 then d else ParseNat(s[..|s| - 1]) * 10 + d
  }

  /** Parsing the decimal rendering of a number gives the number back. */
  lemma {:induction false} ParseNatToString(n: nat)
    ensures ParseNat(NatToString(n)) == n
  {
    if n >= 10 {
      var s := NatToString(n);
      assert s[..|s| - 1] == NatToString(n / 10);
      ParseNatToString(n / 10);
    }
  }

  /** Different numbers have different renderings. */
  lemma NatToStringInjective(a: nat, b: nat)
    requires NatToString(a) == NatToString(b)
    ensures a == b
  {
    ParseNatToString(a);
    ParseNatToString(b);
  }

  // ---------------------------------------------------------------------------
  // rfind

  /** `s.rfind(c)`: the index of the last `c`, or -1. */
  function RFind(s: string, c: char): (r: int)
    ensures -1 <= r < |s|
    ensures r >= 0 ==> s[r] == c
    ensures forall k :: r < k < |s| ==> s[k] != c
  {
    if s == [] then -1
    else if s[|s| - 1] == c then |s| - 1
    else RFind(s[..|s| - 1], c)
  }

  // ---------------------------------------------------------------------------
  // Ordering of strings

  /** Python's `<` on `str`: lexicographic by code point. */
  predicate StrLess(a: string, b: string) {
    if a == [] then b != []
    else if b == [] then false
    else a[0] < b[0] || (a[0] == b[0] && StrLess(a[1..], b[1..]))
  }

  lemma {:induction false} StrLessIrreflexive(a: string)
    ensures !StrLess(a, a)
  {
    if a != [] {
      StrLessIrreflexive(a[1..]);
    }
  }

  lemma {:induction false} StrLessTransitive(a: string, b: string, c: string)
    requires StrLess(a, b) && StrLess(b, c)
    ensures StrLess(a, c)
  {
    if a != [] && b != [] && c != [] && a[0] == b[0] == c[0] {
      StrLessTransitive(a[1..], b[1..], c[1..]);
    }
  }

  lemma {:induction false} StrLessTotal(a: string, b: string)
    requires a != b
    ensures StrLess(a, b) || StrLess(b, a)
  {
    if a != [] && b != [] && a[0] == b[0] {
      assert a == [a[0]] + a[1..] && b == [b[0]] + b[1..];
      StrLessTotal(a[1..], b[1..]);
    }
  }
}
