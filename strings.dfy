/**
 * The string work the storefront script does with the browser's built-ins:
 * String.prototype.trim, the \d character class, String(n) and padStart,
 * Number.prototype.toFixed(2) on an amount, and the sanitiser that replaces
 * /<script>/gi by the empty string.
 */
module Strings {

  // ---------------------------------------------------------------------
  // Whitespace and trim
  // ---------------------------------------------------------------------

  /** The code points String.prototype.trim removes: ECMAScript's WhiteSpace
      (TAB, VT, FF, SP, NBSP, ZWNBSP and the Zs category) and LineTerminator
      (LF, CR, LS, PS). */
  predicate IsSpace(c: char) {
    c == '\t' || c == '\n' || c == '\U{000B}' || c == '\U{000C}' || c == '\r'
    || c == ' ' || c == '\U{00A0}' || c == '\U{1680}'
    || ('\U{2000}' <= c <= '\U{200A}')
    || c == '\U{2028}' || c == '\U{2029}' || c == '\U{202F}' || c == '\U{205F}'
    || c == '\U{3000}' || c == '\U{FEFF}'
  }

  predicate IsBlank(s: string) {
    forall i :: 0 <= i < |s| ==> IsSpace(s[i])
  }

  /** Drops the leading whitespace. */
  function TrimStart(s: string): (r: string) {
    if s != [] && IsSpace(s[0]) then TrimStart(s[1..]) else s
  }

  /** Drops the trailing whitespace. */
  function TrimEnd(s: string): (r: string) {
    if s != [] && IsSpace(s[|s| - 1]) then TrimEnd(s[..|s| - 1]) else s
  }

  /** String.prototype.trim. */
  function Trim(s: string): (r: string) {
    TrimEnd(TrimStart(s))
  }

  /** What TrimStart leaves is a suffix of s, what it drops is all
      whitespace, and what it leaves does not start with whitespace. */
  lemma {:induction false} TrimStartSplits(s: string)
    ensures |TrimStart(s)| <= |s| && TrimStart(s) == s[|s| - |TrimStart(s)|..]
    ensures IsBlank(s[..|s| - |TrimStart(s)|])
    ensures TrimStart(s) != [] ==> !IsSpace(TrimStart(s)[0])
  {
    if s != [] && IsSpace(s[0]) {
      var t := s[1..];
      TrimStartSplits(t);
      var k := |t| - |TrimStart(t)|;
      assert s[k + 1..] == t[k..];
      forall i | 0 <= i < k + 1 ensures IsSpace(s[i]) {
        if i > 0 {
          assert s[i] == t[..k][i - 1];
        }
      }
    }
  }

  /** What TrimEnd leaves is a prefix of s, what it drops is all whitespace,
      and what it leaves does not end with whitespace. */
  lemma {:induction false} TrimEndSplits(s: string)
    ensures |TrimEnd(s)| <= |s| && TrimEnd(s) == s[..|TrimEnd(s)|]
    ensures IsBlank(s[|TrimEnd(s)|..])
    ensures TrimEnd(s) != [] ==> !IsSpace(TrimEnd(s)[|TrimEnd(s)| - 1])
  {
    if s != [] && IsSpace(s[|s| - 1]) {
      var t := s[..|s| - 1];
      TrimEndSplits(t);
      var k := |TrimEnd(t)|;
      assert s[..k] == t[..k];
      forall i | k <= i < |s| ensures IsSpace(s[i]) {
        if i < |t| {
          assert s[i] == t[k..][i - k];
        }
      }
    }
  }

  /** The trimmed string is empty exactly when the input is all whitespace;
      otherwise it neither starts nor ends with whitespace. */
  lemma TrimFacts(s: string)
    ensures |Trim(s)| <= |s|
    ensures Trim(s) != [] ==> !IsSpace(Trim(s)[0]) && !IsSpace(Trim(s)[|Trim(s)| - 1])
    ensures Trim(s) == [] <==> IsBlank(s)
  {
    var t := TrimStart(s);
    var r := TrimEnd(t);
    TrimStartSplits(s);
    TrimEndSplits(t);
    var k := |s| - |t|;
    if r == [] {
      assert t[0..] == t;
      forall i | 0 <= i < |s| ensures IsSpace(s[i]) {
        if i < k {
          assert s[i] == s[..k][i];
        }
      }
    } else {
      assert r[0] == t[0];
      assert s[k] == t[0];
    }
  }

  // ---------------------------------------------------------------------
  // Decimal digits
  // ---------------------------------------------------------------------

  /** The regular-expression class \d, which without the u flag is ASCII 0-9. */
  predicate IsDigit(c: char) {
    '0' <= c <= '9'
  }

  predicate AllDigits(s: string) {
    forall i :: 0 <= i < |s| ==> IsDigit(s[i])
  }

  function DigitChar(d: nat): (c: char)
    requires d < 10
    ensures IsDigit(c) && c as int - '0' as int == d
  {
    ('0' as int + d) as char
  }

  function DigitValue(c: char): (d: nat)
    requires IsDigit(c)
    ensures d < 10 && DigitChar(d) == c
  {
    c as int - '0' as int
  }

  function Pow10(k: nat): (p: nat)
    ensures p >= 1
  {
    if k == 0 then 1 else 10 * Pow10(k - 1)
  }

  /** The number a string of decimal digits denotes, read left to right. */
  function DigitsValue(s: string): (r: nat)
    requires AllDigits(s)
  {
    if s == [] then 0 else DigitsValue(s[..|s| - 1]) * 10 + DigitValue(s[|s| - 1])
  }

  /** String(n) for a non-negative integer: its shortest decimal spelling. */
  function DecimalString(n: nat): (s: string)
    ensures |s| >= 1 && AllDigits(s)
    ensures n > 0 ==> s[0] != '0'
    decreases n
  {
    if n < 10 then [DigitChar(n)] else DecimalString(n / 10) + [DigitChar(n % 10)]
  }

  /** Reading back what DecimalString wrote gives the number again. */
  lemma {:induction false} DecimalStringValue(n: nat)
    ensures DigitsValue(DecimalString(n)) == n
  {
    if n >= 10 {
      var s := DecimalString(n);
      assert s[..|s| - 1] == DecimalString(n / 10);
      DecimalStringValue(n / 10);
    }
  }

  /** A number with k digits is spelled with exactly k characters. */
  lemma {:induction false} DecimalStringLength(n: nat, k: nat)
    requires k >= 1 && Pow10(k - 1) <= n < Pow10(k)
    ensures |DecimalString(n)| == k
  {
    if k > 1 {
      assert Pow10(k - 2) <= n / 10 < Pow10(k - 1);
      DecimalStringLength(n / 10, k - 1);
    } else {
      assert n < 10;
    }
  }

  /** Concatenating digit strings shifts the left part by the length of the right part. */
  lemma {:induction false} DigitsValueConcat(a: string, b: string)
    requires AllDigits(a) && AllDigits(b)
    ensures AllDigits(a + b)
    ensures DigitsValue(a + b) == DigitsValue(a) * Pow10(|b|) + DigitsValue(b)
  {
    if b == [] {
      assert a + b == a;
    } else {
      var b' := b[..|b| - 1];
      var c := b[|b| - 1];
      DigitsValueConcat(a, b');
      var x, y, p, d := DigitsValue(a), DigitsValue(b'), Pow10(|b'|), DigitValue(c);
      assert AllDigits(a + b) && DigitsValue(a + b) == (x * p + y) * 10 + d by {
        assert (a + b)[..|a + b| - 1] == a + b';
        assert (a + b)[|a + b| - 1] == c;
      }
      assert DigitsValue(b) == y * 10 + d by {
        assert b[..|b| - 1] == b';
      }
      ShiftByTen(x, |b'|, y, d);
      assert |b| == |b'| + 1;
    }
  }

  /** Appending a digit multiplies the left part's weight by ten. */
  lemma ShiftByTen(x: int, k: nat, y: int, d: int)
    ensures (x * Pow10(k) + y) * 10 + d == x * Pow10(k + 1) + (y * 10 + d)
  {
    var p := Pow10(k);
    assert Pow10(k + 1) == 10 * p;
    assert (x * p + y) * 10 == x * (10 * p) + y * 10;
  }

  /** String.prototype.padStart(width, fill) with a one-character fill. */
  function PadStart(s: string, width: nat, fill: char): (r: string)
    ensures |r| == if |s| >= width then |s| else width
    ensures r[|r| - |s|..] == s
    ensures forall i :: 0 <= i < |r| - |s| ==> r[i] == fill
  {
    if |s| >= width then s else seq(width - |s|, _ => fill) + s
  }

  /** String(n).padStart(2, '0') for n below 100 is two digits that read back as n. */
  lemma TwoDigits(n: nat)
    requires n < 100
    ensures var s := PadStart(DecimalString(n), 2, '0');
      |s| == 2 && AllDigits(s) && DigitsValue(s) == n
  {
    var s := PadStart(DecimalString(n), 2, '0');
    if n < 10 {
      assert s == ['0', DigitChar(n)];
      assert s[..1] == ['0'] && ['0'][..0] == [];
      assert DigitValue(DigitChar(n)) == n;
    } else {
      assert DecimalString(n / 10) == [DigitChar(n / 10)];
      assert s == [DigitChar(n / 10), DigitChar(n % 10)];
      assert s[..1] == [DigitChar(n / 10)] && s[..1][..0] == [];
      assert DigitsValue(s[..1]) == n / 10;
    }
  }

  // ---------------------------------------------------------------------
  // Money: toFixed(2) on an amount held in paise
  // ---------------------------------------------------------------------

  /** The rupee amount of `paise` written the way toFixed(2) writes it:
      whole rupees, a point, and exactly two digits of paise. */
  function FormatAmount(paise: nat): (r: string) {
    DecimalString(paise / 100) + "." + PadStart(DecimalString(paise % 100), 2, '0')
  }

  /** FormatAmount loses nothing: the digits before the point and the two
      after it give back the amount. */
  lemma FormatAmountValue(paise: nat)
    ensures var s := FormatAmount(paise);
      |s| >= 4 && s[|s| - 3] == '.'
      && AllDigits(s[..|s| - 3]) && AllDigits(s[|s| - 2..])
      && DigitsValue(s[..|s| - 3]) * 100 + DigitsValue(s[|s| - 2..]) == paise
  {
    var q, m := paise / 100, paise % 100;
    var s := FormatAmount(paise);
    var whole := DecimalString(q);
    var cents := PadStart(DecimalString(m), 2, '0');
    TwoDigits(m);
    DecimalStringValue(q);
    assert s[..|s| - 3] == whole && s[|s| - 3] == '.' && s[|s| - 2..] == cents by {
      assert s == whole + "." + cents;
    }
    assert q * 100 + m == paise;
  }

  // ---------------------------------------------------------------------
  // The sanitiser: replace(/<script>/gi, '')
  // ---------------------------------------------------------------------

  /** The length of "<script>". */
  const TagLength: nat := 8

  /** Case folding of the i flag without the u flag: only ASCII letters fold
      onto the letters of "<script>" (long s and dotless i are excluded). */
  function LowerAscii(c: char): (r: char) {
    if 'A' <= c <= 'Z' then (c as int + 32) as char else c
  }

  /** s begins with "<script>" in any ASCII letter case. */
  predicate StartsWithScriptTag(s: string) {
    |s| >= TagLength
    && LowerAscii(s[0]) == '<' && LowerAscii(s[1]) == 's' && LowerAscii(s[2]) == 'c'
    && LowerAscii(s[3]) == 'r' && LowerAscii(s[4]) == 'i' && LowerAscii(s[5]) == 'p'
    && LowerAscii(s[6]) == 't' && LowerAscii(s[7]) == '>'
  }

  /** Some position of s starts a case-insensitive "<script>". */
  predicate ContainsScriptTag(s: string) {
    exists i :: 0 <= i <= |s| && StartsWithScriptTag(s[i..])
  }

  /** The global replace scans left to right and deletes each non-overlapping
      match; the text after a deletion is not rescanned together with what
      came before it. The result is never longer than the input, and what was
      deleted is a whole number of eight-character tags. */
  function StripScriptTags(s: string): (r: string)
    ensures |r| <= |s| && (|s| - |r|) % TagLength == 0
  {
    if s == [] then []
    else if StartsWithScriptTag(s) then StripScriptTags(s[TagLength..])
    else [s[0]] + StripScriptTags(s[1..])
  }

  lemma {:induction false} NoTagUnchanged(s: string)
    requires !ContainsScriptTag(s)
    ensures StripScriptTags(s) == s
  {
    if s != [] {
      assert s[0..] == s;
      assert !StartsWithScriptTag(s);
      forall i | 0 <= i <= |s[1..]|
        ensures !StartsWithScriptTag(s[1..][i..])
      {
        assert s[1..][i..] == s[i + 1..];
      }
      NoTagUnchanged(s[1..]);
    }
  }

  lemma {:induction false} TagShrinks(s: string)
    requires ContainsScriptTag(s)
    ensures |StripScriptTags(s)| < |s|
  {
    var i :| 0 <= i <= |s| && StartsWithScriptTag(s[i..]);
    if !StartsWithScriptTag(s) {
      assert i != 0 && s != [];
      assert s[1..][i - 1..] == s[i..];
      TagShrinks(s[1..]);
    }
  }

  /** The sanitiser changes a string exactly when it holds a "<script>" in
      any letter case. */
  lemma StripUnchangedIffNoTag(s: string)
    ensures StripScriptTags(s) == s <==> !ContainsScriptTag(s)
  {
    if ContainsScriptTag(s) {
      TagShrinks(s);
    } else {
      NoTagUnchanged(s);
    }
  }

  /** A string of digits comes through the sanitiser unchanged. */
  lemma DigitsUnchanged(s: string)
    requires AllDigits(s)
    ensures StripScriptTags(s) == s
  {
    forall i | 0 <= i <= |s| ensures !StartsWithScriptTag(s[i..]) {
      assert i < |s| ==> s[i..][0] == s[i] && IsDigit(s[i]);
    }
    NoTagUnchanged(s);
  }

  /** A character that does not start a tag is kept, and the scan moves on. */
  lemma StripKeeps(c: char, rest: string)
    requires !StartsWithScriptTag([c] + rest)
    ensures StripScriptTags([c] + rest) == [c] + StripScriptTags(rest)
  {
    assert ([c] + rest)[1..] == rest;
  }

  /** What the scan deletes is exactly a matched tag: text in which no tag
      starts is kept as it is, the first tag after it is deleted, and the
      scan resumes right after that tag. */
  lemma {:induction false} StripDeletesTag(x: string, t: string, y: string)
    requires |t| == TagLength && StartsWithScriptTag(t)
    requires forall i :: 0 <= i < |x| ==> !StartsWithScriptTag(x[i..] + t + y)
    ensures StripScriptTags(x + t + y) == x + StripScriptTags(y)
  {
    if x == [] {
      assert x + t + y == t + y;
      assert (t + y)[TagLength..] == y;
    } else {
      assert x[0..] == x;
      assert (x + t + y)[1..] == x[1..] + t + y;
      forall i | 0 <= i < |x[1..]|
        ensures !StartsWithScriptTag(x[1..][i..] + t + y)
      {
        assert x[1..][i..] == x[i + 1..];
      }
      StripDeletesTag(x[1..], t, y);
    }
  }

  /** "<script>ipt>" loses its leading tag and keeps the rest. */
  lemma StripTagThenTail(inner: string)
    requires inner == "<script>ipt>"
    ensures StripScriptTags(inner) == "ipt>"
  {
    var tail := inner[TagLength..];
    assert tail == "ipt>";
    assert StripScriptTags(tail) == tail by {
      StripKeeps('i', "pt>");
      StripKeeps('p', "t>");
      StripKeeps('t', ">");
      StripKeeps('>', "");
    }
    assert StartsWithScriptTag(inner);
  }

  /** One pass is not enough: removing the tag inside "<scr<script>ipt>"
      leaves "<script>" behind, which a second pass would remove. */
  lemma StripIsSinglePass(inner: string)
    requires inner == "<script>ipt>"
    ensures StripScriptTags("<scr" + inner) == "<scr" + "ipt>"
    ensures StartsWithScriptTag("<scr" + "ipt>")
  {
    StripTagThenTail(inner);
    var s3 := "r" + inner;
    assert LowerAscii(s3[0]) != '<';
    StripKeeps('r', inner);
    var s2 := "c" + s3;
    assert LowerAscii(s2[0]) != '<';
    StripKeeps('c', s3);
    var s1 := "s" + s2;
    assert LowerAscii(s1[0]) != '<';
    StripKeeps('s', s2);
    var s0 := "<" + s1;
    assert LowerAscii(s0[4]) != 'i';
    StripKeeps('<', s1);
    assert s0 == "<scr" + inner;
  }
}
