/** Character-level string operations the pages use: `toLowerCase`, the
    regular-expression replacements `/\s+/g` and `/[-_]/g`, and the decimal
    digits that `String(n)` and `JSON.stringify(n)` print for an integer. */
module Text {
  import Seqs

  /** `c.toLowerCase()` for the letters the identifiers and file names use (A-Z). */
  function LowerChar(c: char): char
  {
    if 'A' <= c <= 'Z' then (c as int - 'A' as int + 'a' as int) as char else c
  }

  function ToLower(s: string): (r: string)
    ensures |r| == |s| && forall i :: 0 <= i < |s| ==> r[i] == LowerChar(s[i])
  {
    seq(|s|, i requires 0 <= i < |s| => LowerChar(s[i]))
  }

  lemma ToLowerConcat(a: string, b: string)
    ensures ToLower(a + b) == ToLower(a) + ToLower(b)
  {
  }

  /** The characters matched by the regular-expression class `\s`. */
  predicate IsSpace(c: char)
  {
    c == ' ' || c == '\t' || c == '\n' || c == '\r' || c == '\U{b}' || c == '\U{c}'
    || c == '\U{a0}' || c == '\U{1680}' || ('\U{2000}' <= c <= '\U{200a}')
    || c == '\U{2028}' || c == '\U{2029}' || c == '\U{202f}' || c == '\U{205f}'
    || c == '\U{3000}' || c == '\U{feff}'
  }

  /** Drops the leading run of whitespace. */
  function DropSpaces(s: string): (r: string)
    ensures |r| <= |s| && (r == [] || !IsSpace(r[0]))
    ensures r == s[|s| - |r|..]
  {
    if s != [] && IsSpace(s[0]) then DropSpaces(s[1..]) else s
  }

  /** `s.replace(/\s+/g, '-')`: every maximal run of whitespace becomes one hyphen. */
  function HyphenateSpaces(s: string): (r: string)
    ensures forall i :: 0 <= i < |r| ==> !IsSpace(r[i])
    ensures |r| <= |s|
    decreases |s|
  {
    if s == [] then []
    else if IsSpace(s[0]) then "-" + HyphenateSpaces(DropSpaces(s))
    else [s[0]] + HyphenateSpaces(s[1..])
  }

  predicate NoSpaces(s: string)
  {
    forall i :: 0 <= i < |s| ==> !IsSpace(s[i])
  }

  predicate AllSpaces(s: string)
  {
    forall i :: 0 <= i < |s| ==> IsSpace(s[i])
  }

  /** A whole run of whitespace is dropped at once. */
  lemma {:induction false} DropSpacesRun(sp: string, rest: string)
    requires AllSpaces(sp)
    requires rest == [] || !IsSpace(rest[0])
    ensures DropSpaces(sp + rest) == rest
    decreases |sp|
  {
    if sp == [] {
      assert sp + rest == rest;
    } else {
      assert (sp + rest)[1..] == sp[1..] + rest;
      DropSpacesRun(sp[1..], rest);
    }
  }

  /** A text without whitespace is left as it is. */
  lemma {:induction false} HyphenateSpacesWord(w: string)
    requires NoSpaces(w)
    ensures HyphenateSpaces(w) == w
    decreases |w|
  {
    if w != [] {
      HyphenateSpacesWord(w[1..]);
    }
  }

  /** A character other than whitespace is copied. */
  lemma HyphenateSpacesKeep(c: char, t: string)
    requires !IsSpace(c)
    ensures HyphenateSpaces([c] + t) == [c] + HyphenateSpaces(t)
  {
    assert ([c] + t)[1..] == t;
  }

  /** A whitespace run at the front becomes one hyphen. */
  lemma HyphenateSpacesFront(sp: string, rest: string)
    requires sp != [] && AllSpaces(sp)
    requires rest == [] || !IsSpace(rest[0])
    ensures HyphenateSpaces(sp + rest) == "-" + HyphenateSpaces(rest)
  {
    assert (sp + rest)[0] == sp[0];
    DropSpacesRun(sp, rest);
  }

  /** The replacement word by word: a word without whitespace is kept, the
      maximal whitespace run after it becomes a single hyphen, and the rest of
      the text is replaced in the same way. With `HyphenateSpacesWord` this fixes
      the result for every text. */
  lemma {:induction false} HyphenateSpacesRun(w: string, sp: string, rest: string)
    requires NoSpaces(w)
    requires sp != [] && AllSpaces(sp)
    requires rest == [] || !IsSpace(rest[0])
    ensures HyphenateSpaces(w + sp + rest) == w + "-" + HyphenateSpaces(rest)
    decreases |w|
  {
    var h := HyphenateSpaces(rest);
    if w == [] {
      assert HyphenateSpaces(w + sp + rest) == "-" + h by {
        assert w + sp + rest == sp + rest;
        HyphenateSpacesFront(sp, rest);
      }
      assert w + "-" + h == "-" + h;
    } else {
      var x := w[1..] + sp + rest;
      assert HyphenateSpaces(w + sp + rest) == [w[0]] + HyphenateSpaces(x) by {
        assert w + sp + rest == [w[0]] + x;
        HyphenateSpacesKeep(w[0], x);
      }
      assert HyphenateSpaces(x) == w[1..] + "-" + h by {
        HyphenateSpacesRun(w[1..], sp, rest);
      }
      assert w + "-" + h == [w[0]] + (w[1..] + "-" + h);
    }
  }

  predicate IsSeparator(c: char) { c == '-' || c == '_' }

  /** `s.replace(/[-_]/g, '')`. */
  function StripSeparators(s: string): (r: string)
  {
    Seqs.Filter(s, c => !IsSeparator(c))
  }

  lemma {:induction false} StripSeparatorsConcat(a: string, b: string)
    ensures StripSeparators(a + b) == StripSeparators(a) + StripSeparators(b)
    decreases |a|
  {
    if a != [] {
      assert (a + b)[1..] == a[1..] + b;
      StripSeparatorsConcat(a[1..], b);
    } else {
      assert a + b == b;
    }
  }

  /** Decimal digits of a natural number, most significant first, without leading zeros. */
  function NatDigits(n: nat): (r: string)
    ensures r != [] && forall i :: 0 <= i < |r| ==> '0' <= r[i] <= '9'
    ensures r[0] == '0' ==> n == 0
    decreases n
  {
    if n < 10 then [('0' as int + n) as char]
    else NatDigits(n / 10) + [('0' as int + n % 10) as char]
  }

  /** The value of a string of decimal digits. */
  function DigitsValue(s: string): nat
    requires forall i :: 0 <= i < |s| ==> '0' <= s[i] <= '9'
    decreases |s|
  {
    if s == [] then 0 else 10 * DigitsValue(s[..|s| - 1]) + (s[|s| - 1] as int - '0' as int)
  }

  /** Reading back the printed digits gives the number. */
  lemma {:induction false} DigitsRoundTrip(n: nat)
    ensures DigitsValue(NatDigits(n)) == n
    decreases n
  {
    if n >= 10 {
      var d := NatDigits(n);
      assert d[..|d| - 1] == NatDigits(n / 10);
      DigitsRoundTrip(n / 10);
    }
  }
}
