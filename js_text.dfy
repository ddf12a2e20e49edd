/** The handful of JavaScript string operations the order code relies on:
    truthiness of optional strings and `||`, `String.prototype.split` with a
    one-character separator, `String.prototype.trim`, and the decimal
    rendering of a non-negative integer inside a template literal. */
module JsText {
  import opened Wrappers

  // ---------------------------------------------------------------------
  // Truthiness and `||`
  // ---------------------------------------------------------------------

  /** A string-valued property is truthy when it is present and not "":
      a missing property and the empty string are both falsy. */
  predicate Truthy(o: Option<string>)
    ensures Truthy(o) ==> o.Some? && |o.value| > 0
    ensures o.None? || o == Some("") ==> !Truthy(o)
  {
    o.Some? && o.value != ""
  }

  /** `a || b` for a string-valued `a` and a string `b`: `a` when it is
      truthy, otherwise `b`; never "" unless `b` is. */
  function Or(a: Option<string>, b: string): (r: string)
    ensures Truthy(a) ==> r == a.value
    ensures !Truthy(a) ==> r == b
    ensures b != "" ==> r != ""
  {
    if Truthy(a) then a.value else b
  }

  /** `a || ''`: the property, or "" when it is absent. */
  function OrEmpty(a: Option<string>): (r: string)
    ensures a.Some? ==> r == a.value
    ensures a.None? ==> r == ""
  {
    Or(a, "")
  }

  // ---------------------------------------------------------------------
  // split(c)
  // ---------------------------------------------------------------------

  /** Index of the first occurrence of `c` in `s`. */
  function IndexOf(s: string, c: char): (i: nat)
    requires c in s
    ensures i < |s| && s[i] == c && c !in s[..i]
  {
    if s[0] == c then 0
    else
      assert c in s[1..] by { var k :| 0 <= k < |s| && s[k] == c; assert s[1..][k - 1] == c; }
      var j := IndexOf(s[1..], c);
      assert s[..j + 1] == [s[0]] + s[1..][..j];
      j + 1
  }

  /** The first occurrence is the only candidate with no earlier occurrence. */
  lemma IndexOfUnique(s: string, c: char, k: nat)
    requires k < |s| && s[k] == c && c !in s[..k]
    ensures IndexOf(s, c) == k
  {
    var i := IndexOf(s, c);
  }

  /** Glues pieces back together with `sep` between consecutive pieces
      (`Array.prototype.join`). */
  function Join(parts: seq<string>, sep: char): string
    requires |parts| >= 1
  {
    if |parts| == 1 then parts[0]
    else parts[0] + [sep] + Join(parts[1..], sep)
  }

  /** `s.split(sep)` for a one-character separator: the pieces between
      consecutive occurrences of `sep`, in order; there is one more piece
      than there are occurrences. */
  function Split(s: string, sep: char): (parts: seq<string>)
    ensures |parts| >= 1
    ensures sep in s <==> |parts| >= 2
    decreases |s|
  {
    if sep !in s then [s]
    else
      var i := IndexOf(s, sep);
      [s[..i]] + Split(s[i + 1..], sep)
  }

  /** No piece holds the separator, and joining the pieces with it gives
      the string back. */
  lemma {:induction false} SplitJoin(s: string, sep: char)
    ensures forall i :: 0 <= i < |Split(s, sep)| ==> sep !in Split(s, sep)[i]
    ensures Join(Split(s, sep), sep) == s
    decreases |s|
  {
    if sep in s {
      var i := IndexOf(s, sep);
      var rest := Split(s[i + 1..], sep);
      SplitJoin(s[i + 1..], sep);
      assert Split(s, sep) == [s[..i]] + rest;
      assert ([s[..i]] + rest)[1..] == rest;
      assert s == s[..i] + [sep] + s[i + 1..];
    }
  }

  /** `s.split(sep)[0]` is the longest prefix of `s` without `sep`: it
      stops at the end of `s` or just before an occurrence of `sep`. */
  lemma SplitHead(s: string, sep: char)
    ensures var h := Split(s, sep)[0];
      && h == s[..|h|]
      && sep !in h
      && (|h| == |s| || s[|h|] == sep)
  {
  }

  /** When `sep` occurs in `s`, the second piece of `s.split(sep)` is the
      first piece of what follows the first occurrence. */
  lemma SplitSecond(s: string, sep: char)
    requires sep in s
    ensures Split(s, sep)[1] == Split(s[IndexOf(s, sep) + 1..], sep)[0]
  {
  }

  /** A string without `sep` splits into itself. */
  lemma SplitWithout(s: string, sep: char)
    requires sep !in s
    ensures Split(s, sep) == [s]
  {
  }

  // ---------------------------------------------------------------------
  // trim()
  // ---------------------------------------------------------------------

  /** The code points `String.prototype.trim` removes: the ECMAScript
      WhiteSpace (tab, vertical tab, form feed, space, no-break space, byte
      order mark and the Unicode space separators) and LineTerminator
      (line feed, carriage return, line and paragraph separators) sets. */
  predicate IsJsWhitespace(c: char) {
    || c == '\t' || c == '\U{000B}' || c == '\U{000C}' || c == ' '
    || c == '\U{00A0}' || c == '\U{FEFF}' || c == '\U{1680}'
    || ('\U{2000}' <= c <= '\U{200A}')
    || c == '\U{202F}' || c == '\U{205F}' || c == '\U{3000}'
    || c == '\n' || c == '\r' || c == '\U{2028}' || c == '\U{2029}'
  }

  predicate AllWhitespace(s: string) {
    forall i :: 0 <= i < |s| ==> IsJsWhitespace(s[i])
  }

  /** Neither end of `s` is whitespace. */
  predicate Tidy(s: string) {
    s == [] || (!IsJsWhitespace(s[0]) && !IsJsWhitespace(s[|s| - 1]))
  }

  /** `s.trimStart()`: a suffix of `s` that does not start with whitespace. */
  function TrimStart(s: string): (r: string)
    ensures |r| <= |s| && r == s[|s| - |r|..]
    ensures r == [] || !IsJsWhitespace(r[0])
  {
    if |s| > 0 && IsJsWhitespace(s[0]) then TrimStart(s[1..]) else s
  }

  /** `s.trimEnd()`: a prefix of `s` that does not end with whitespace. */
  function TrimEnd(s: string): (r: string)
    ensures |r| <= |s| && r == s[..|r|]
    ensures r == [] || !IsJsWhitespace(r[|r| - 1])
  {
    if |s| > 0 && IsJsWhitespace(s[|s| - 1]) then TrimEnd(s[..|s| - 1]) else s
  }

  /** `s.trim()`: a piece of `s` with no whitespace at either end
      (`TrimSpec` says which piece). */
  function Trim(s: string): (r: string)
    ensures |r| <= |s| && Tidy(r)
  {
    var m := TrimStart(s);
    var r := TrimEnd(m);
    assert r != [] ==> r[0] == m[..|r|][0];
    r
  }

  /** What `trimStart` removes is whitespace. */
  lemma {:induction false} TrimStartSpec(s: string)
    ensures AllWhitespace(s[..|s| - |TrimStart(s)|])
  {
    if |s| > 0 && IsJsWhitespace(s[0]) {
      TrimStartSpec(s[1..]);
      var t := TrimStart(s[1..]);
      assert s[1..][..|s| - 1 - |t|] == s[1..|s| - |t|];
      assert AllWhitespace(s[..|s| - |t|]) by {
        forall i | 0 <= i < |s| - |t| ensures IsJsWhitespace(s[i]) {
          if i > 0 { assert s[i] == s[1..][..|s| - 1 - |t|][i - 1]; }
        }
      }
    }
  }

  /** What `trimEnd` removes is whitespace. */
  lemma {:induction false} TrimEndSpec(s: string)
    ensures AllWhitespace(s[|TrimEnd(s)|..])
  {
    if |s| > 0 && IsJsWhitespace(s[|s| - 1]) {
      var p := s[..|s| - 1];
      TrimEndSpec(p);
      var t := TrimEnd(p);
      assert AllWhitespace(s[|t|..]) by {
        forall i | |t| <= i < |s| ensures IsJsWhitespace(s[i]) {
          if i < |s| - 1 { assert s[i] == p[|t|..][i - |t|]; }
        }
      }
    }
  }

  /** `s.trim()` is `s` less a whitespace prefix and a whitespace suffix,
      and neither of its ends is whitespace. */
  lemma TrimSpec(s: string)
    ensures var t := Trim(s);
      exists a: nat, b: nat :: a <= b <= |s| && t == s[a..b] &&
        AllWhitespace(s[..a]) && AllWhitespace(s[b..]) && Tidy(t)
  {
    TrimStartSpec(s);
    var m := TrimStart(s);
    TrimEndSpec(m);
    var t := TrimEnd(m);
    var a := |s| - |m|;
    var b := a + |t|;
    assert t == s[a..b];
    assert AllWhitespace(s[b..]) by {
      forall i | b <= i < |s| ensures IsJsWhitespace(s[i]) {
        assert s[i] == m[|t|..][i - b];
      }
    }
    assert a <= b <= |s| && t == s[a..b] && AllWhitespace(s[..a]) && AllWhitespace(s[b..]);
  }

  /** A string whose ends are not whitespace trims to itself. */
  lemma TrimTidy(s: string)
    requires Tidy(s)
    ensures Trim(s) == s
  {
  }

  /** Only whitespace trims to "". */
  lemma {:induction false} TrimAllWhitespace(s: string)
    requires AllWhitespace(s)
    ensures Trim(s) == ""
  {
    TrimStartSpec(s);
    var t := TrimStart(s);
  }

  /** Trailing whitespace does not survive `TrimEnd`. */
  lemma TrimEndAppendSpace(s: string)
    ensures TrimEnd(s + " ") == TrimEnd(s)
  {
  }

  /** Leading whitespace does not survive `TrimStart`. */
  lemma TrimStartPrependSpace(s: string)
    ensures TrimStart(" " + s) == TrimStart(s)
  {
  }

  // ---------------------------------------------------------------------
  // Decimal rendering of a non-negative integer
  // ---------------------------------------------------------------------

  predicate IsDigit(c: char) { '0' <= c <= '9' }

  function DigitChar(d: nat): (c: char)
    requires d < 10
    ensures IsDigit(c)
  {
    "0123456789"[d]
  }

  function DigitValue(c: char): nat
    requires IsDigit(c)
  {
    (c as int - '0' as int) as nat
  }

  /** `${n}` for a non-negative integer `n`: its decimal digits, most
      significant first, with no leading zero. */
  function Decimal(n: nat): (s: string)
    ensures |s| >= 1
    ensures forall i :: 0 <= i < |s| ==> IsDigit(s[i])
    ensures s[0] == '0' ==> n == 0
  {
    if n < 10 then [DigitChar(n)] else Decimal(n / 10) + [DigitChar(n % 10)]
  }

  /** The number a string of decimal digits denotes. */
  function DecimalValue(s: string): nat
    requires forall i :: 0 <= i < |s| ==> IsDigit(s[i])
  {
    if s == [] then 0
    else 10 * DecimalValue(s[..|s| - 1]) + DigitValue(s[|s| - 1])
  }

  /** Reading the rendered digits back gives the number. */
  lemma {:induction false} DecimalRoundTrip(n: nat)
    ensures DecimalValue(Decimal(n)) == n
  {
    var s := Decimal(n);
    if n < 10 {
      assert DigitValue(DigitChar(n)) == n;
    } else {
      DecimalRoundTrip(n / 10);
      assert s[..|s| - 1] == Decimal(n / 10);
      assert DigitValue(DigitChar(n % 10)) == n % 10;
    }
  }
}
