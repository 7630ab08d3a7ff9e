/** The few JavaScript string primitives the screens rely on, written out:
    the `\s`, `\d` and `[^\d.]` character classes used with `replace(/.../g, "")`,
    `trim`, `slice`, `split(".")`, `parseFloat` and the decimal spelling that
    `Number.prototype.toString` gives a non-negative number. */
module JsStrings {
  import opened Wrappers
  import Seqs

  // ---------------------------------------------------------------------
  // Character classes
  // ---------------------------------------------------------------------

  /** ECMAScript WhiteSpace and LineTerminator code points: the class `\s`
      and the characters `trim()` and `parseFloat` skip. */
  predicate IsWhitespace(c: char) {
    c == '\t' || c == '\n' || c == '\U{000B}' || c == '\U{000C}' || c == '\r' ||
    c == ' ' || c == '\U{00A0}' || c == '\U{1680}' ||
    ('\U{2000}' <= c <= '\U{200A}') ||
    c == '\U{2028}' || c == '\U{2029}' || c == '\U{202F}' || c == '\U{205F}' ||
    c == '\U{3000}' || c == '\U{FEFF}'
  }

  predicate IsNotWhitespace(c: char) {
    !IsWhitespace(c)
  }

  /** The class `\d` (ASCII digits only, as in JavaScript). */
  predicate IsDigit(c: char) {
    '0' <= c <= '9'
  }

  /** The class `[\d.]`, equivalently `[0-9.]`. */
  predicate IsDigitOrDot(c: char) {
    IsDigit(c) || c == '.'
  }

  predicate AllDigits(s: string) {
    forall i :: 0 <= i < |s| ==> IsDigit(s[i])
  }

  predicate AllDigitsOrDots(s: string) {
    forall i :: 0 <= i < |s| ==> IsDigitOrDot(s[i])
  }

  // ---------------------------------------------------------------------
  // Regular-expression removals and slicing
  // ---------------------------------------------------------------------

  /** `s.replace(/\s/g, "")` */
  function RemoveWhitespace(s: string): (r: string)
    ensures forall i :: 0 <= i < |r| ==> !IsWhitespace(r[i])
  {
    Seqs.Filter(s, IsNotWhitespace)
  }

  /** `s.replace(/\D/g, "")` */
  function KeepDigits(s: string): (r: string)
    ensures AllDigits(r)
  {
    Seqs.Filter(s, IsDigit)
  }

  /** `s.replace(/[^\d.]/g, "")`, the same as `s.replace(/[^0-9.]/g, "")` */
  function KeepDigitsAndDots(s: string): (r: string)
    ensures AllDigitsOrDots(r)
  {
    Seqs.Filter(s, IsDigitOrDot)
  }

  /** `s.slice(0, n)` for n >= 0: the first n characters, or all of `s`. */
  function Take(s: string, n: nat): (r: string)
    ensures |r| == if |s| <= n then |s| else n
    ensures r <= s
  {
    if |s| <= n then s else s[..n]
  }

  /** `s.slice(-4)`: the last four characters, or all of `s` when shorter. */
  function TakeLast4(s: string): (r: string)
    ensures |r| <= 4
    ensures |r| == if |s| <= 4 then |s| else 4
    ensures s == s[..|s| - |r|] + r
  {
    if |s| <= 4 then s else s[|s| - 4..]
  }

  /** Removing whitespace from text that has none changes nothing. */
  lemma RemoveWhitespaceOfClean(s: string)
    requires forall i :: 0 <= i < |s| ==> !IsWhitespace(s[i])
    ensures RemoveWhitespace(s) == s
  {
    Seqs.FilterKeepsAll(s, IsNotWhitespace);
  }

  /** `s.replace(/\D/g, "")` keeps a digit string as it is. */
  lemma KeepDigitsOfDigits(s: string)
    requires AllDigits(s)
    ensures KeepDigits(s) == s
  {
    Seqs.FilterKeepsAll(s, IsDigit);
  }

  /** `s.replace(/[^\d.]/g, "")` keeps a string of digits and dots as it is. */
  lemma KeepDigitsAndDotsOfClean(s: string)
    requires AllDigitsOrDots(s)
    ensures KeepDigitsAndDots(s) == s
  {
    Seqs.FilterKeepsAll(s, IsDigitOrDot);
  }

  // ---------------------------------------------------------------------
  // trim
  // ---------------------------------------------------------------------

  function TrimStart(s: string): (r: string)
    ensures |r| <= |s| && r == s[|s| - |r|..]
    decreases |s|
  {
    if |s| > 0 && IsWhitespace(s[0]) then
      var r := TrimStart(s[1..]);
      assert s[1..][|s| - 1 - |r|..] == s[|s| - |r|..];
      r
    else s
  }

  function TrimEnd(s: string): string
    decreases |s|
  {
    if |s| > 0 && IsWhitespace(s[|s| - 1]) then TrimEnd(s[..|s| - 1]) else s
  }

  /** `s.trim()` */
  function Trim(s: string): string {
    TrimEnd(TrimStart(s))
  }

  /** `!s.trim()`: the text is empty after trimming. */
  predicate IsBlank(s: string) {
    Trim(s) == ""
  }

  lemma {:induction false} TrimStartEmpty(s: string)
    ensures TrimStart(s) == "" <==> forall i :: 0 <= i < |s| ==> IsWhitespace(s[i])
    decreases |s|
  {
    if |s| > 0 {
      TrimStartEmpty(s[1..]);
      assert forall i :: 1 <= i < |s| ==> s[i] == s[1..][i - 1];
    }
  }

  lemma {:induction false} TrimEndOfNonBlankStart(t: string)
    requires |t| > 0 && !IsWhitespace(t[0])
    ensures TrimEnd(t) != ""
    decreases |t|
  {
    if IsWhitespace(t[|t| - 1]) {
      TrimEndOfNonBlankStart(t[..|t| - 1]);
    }
  }

  /** A string is blank exactly when every character of it is whitespace. */
  lemma BlankIffAllWhitespace(s: string)
    ensures IsBlank(s) <==> forall i :: 0 <= i < |s| ==> IsWhitespace(s[i])
  {
    TrimStartEmpty(s);
    var t := TrimStart(s);
    if t != "" {
      assert !IsWhitespace(t[0]) by { TrimStartFirst(s); }
      TrimEndOfNonBlankStart(t);
    }
  }

  lemma {:induction false} TrimStartFirst(s: string)
    requires TrimStart(s) != ""
    ensures !IsWhitespace(TrimStart(s)[0])
    decreases |s|
  {
    if |s| > 0 && IsWhitespace(s[0]) {
      TrimStartFirst(s[1..]);
    }
  }

  // ---------------------------------------------------------------------
  // split
  // ---------------------------------------------------------------------

  /** `s.split(sep)` for a one-character separator. */
  function Split(s: string, sep: char): (parts: seq<string>)
    ensures |parts| >= 1
    decreases |s|
  {
    if s == [] then [""]
    else
      var rest := Split(s[1..], sep);
      if s[0] == sep then [""] + rest else [[s[0]] + rest[0]] + rest[1..]
  }

  /** The number of occurrences of `c` in `s`. */
  function Occurrences(s: string, c: char): (n: nat)
    ensures n <= |s|
  {
    if s == [] then 0 else (if s[0] == c then 1 else 0) + Occurrences(s[1..], c)
  }

  /** `split` yields one more part than there are separators. */
  lemma {:induction false} SplitLength(s: string, sep: char)
    ensures |Split(s, sep)| == Occurrences(s, sep) + 1
    decreases |s|
  {
    if s != [] {
      SplitLength(s[1..], sep);
    }
  }

  // ---------------------------------------------------------------------
  // parseFloat
  // ---------------------------------------------------------------------

  /** The length of the longest prefix of `s` made of digits. */
  function DigitRun(s: string): (n: nat)
    ensures n <= |s|
    ensures forall i :: 0 <= i < n ==> IsDigit(s[i])
    ensures n < |s| ==> !IsDigit(s[n])
    decreases |s|
  {
    if s != [] && IsDigit(s[0]) then 1 + DigitRun(s[1..]) else 0
  }

  function DigitValue(c: char): nat
    requires IsDigit(c)
  {
    (c as int) - ('0' as int)
  }

  /** The value of a decimal digit string, most significant digit first. */
  function DigitsValue(s: string): nat
    requires AllDigits(s)
    decreases |s|
  {
    if s == [] then 0 else 10 * DigitsValue(s[..|s| - 1]) + DigitValue(s[|s| - 1])
  }

  /** The decimal literal `parseFloat` recognises at the start of its input:
      an optional sign, integer digits, and the digits after a '.'. */
  datatype DecimalLiteral = DecimalLiteral(negative: bool, intDigits: string, fracDigits: string)
  {
    ghost predicate Valid() {
      AllDigits(intDigits) && AllDigits(fracDigits) && (intDigits != "" || fracDigits != "")
    }
  }

  /** Reads `digits* (. digits*)?` from the start of `u`: the integer digits
      and the digits after the point. */
  function ScanUnsigned(u: string): (r: (string, string))
    ensures AllDigits(r.0) && AllDigits(r.1)
  {
    var intDigits := u[..DigitRun(u)];
    var rest := u[|intDigits|..];
    var fracDigits := if |rest| > 0 && rest[0] == '.' then rest[1..][..DigitRun(rest[1..])] else "";
    (intDigits, fracDigits)
  }

  /** `parseFloat`'s scan: skip leading whitespace, read an optional sign and
      then `digits* (. digits*)?` as far as it goes; None when no digit was
      read (the source's NaN). */
  function ScanDecimal(s: string): (d: Option<DecimalLiteral>)
    ensures d.Some? ==> d.value.Valid()
  {
    var t := TrimStart(s);
    var negative := |t| > 0 && t[0] == '-';
    var u := if |t| > 0 && (t[0] == '+' || t[0] == '-') then t[1..] else t;
    var (intDigits, fracDigits) := ScanUnsigned(u);
    if intDigits == "" && fracDigits == "" then None
    else Some(DecimalLiteral(negative, intDigits, fracDigits))
  }

  /** The value of the digits after a decimal point: the first digit counts
      tenths, and the rest is a fraction of a tenth. */
  function FractionValue(fracDigits: string): (r: real)
    requires AllDigits(fracDigits)
    ensures 0.0 <= r < 1.0
    decreases |fracDigits|
  {
    if fracDigits == [] then 0.0
    else (DigitValue(fracDigits[0]) as real + FractionValue(fracDigits[1..])) / 10.0
  }

  /** The number with integer digits `ip` and fraction digits `fp`. */
  function DecimalValue(ip: string, fp: string): real
    requires AllDigits(ip) && AllDigits(fp)
  {
    DigitsValue(ip) as real + FractionValue(fp)
  }

  function LiteralValue(d: DecimalLiteral): real
    requires d.Valid()
  {
    var magnitude := DecimalValue(d.intDigits, d.fracDigits);
    if d.negative then -magnitude else magnitude
  }

  /** `parseFloat(s)`, None standing for NaN. */
  function ParseFloat(s: string): (r: Option<real>)
    ensures r.Some? <==> ScanDecimal(s).Some?
  {
    match ScanDecimal(s)
    case None => None
    case Some(d) => Some(LiteralValue(d))
  }

  lemma {:induction false} DigitRunOfDigitsThen(a: string, b: string)
    requires AllDigits(a)
    requires b == [] || !IsDigit(b[0])
    ensures DigitRun(a + b) == |a|
    decreases |a|
  {
    if a == [] {
      assert a + b == b;
    } else {
      assert (a + b)[1..] == a[1..] + b;
      DigitRunOfDigitsThen(a[1..], b);
    }
  }

  /** Text made only of digits and dots never parses to a negative number. */
  lemma ParseFloatOfUnsigned(s: string)
    requires AllDigitsOrDots(s)
    ensures ParseFloat(s).Some? ==> ParseFloat(s).value >= 0.0
  {
    if |s| > 0 {
      assert TrimStart(s) == s;
    }
  }

  lemma ScanUnsignedOfDecimal(ip: string, fp: string)
    requires AllDigits(ip) && AllDigits(fp) && fp != ""
    ensures ScanUnsigned(ip + "." + fp) == (ip, fp)
  {
    var s := ip + "." + fp;
    assert s == ip + ("." + fp);
    DigitRunOfDigitsThen(ip, "." + fp);
    assert s[..|ip|] == ip;
    assert s[|ip|..] == "." + fp;
    assert ("." + fp)[1..] == fp;
    DigitRunOfDigitsThen(fp, "");
    assert fp + "" == fp;
  }

  lemma ScanUnsignedOfDigits(ip: string)
    requires AllDigits(ip)
    ensures ScanUnsigned(ip) == (ip, "")
  {
    DigitRunOfDigitsThen(ip, "");
    assert ip + "" == ip;
  }

  /** Text that starts with a digit is scanned without whitespace or sign. */
  lemma ScanDecimalOfDigitStart(s: string)
    requires |s| > 0 && IsDigit(s[0])
    ensures ScanDecimal(s) == Some(DecimalLiteral(false, ScanUnsigned(s).0, ScanUnsigned(s).1))
  {
    assert !IsWhitespace(s[0]);
    assert TrimStart(s) == s;
    assert s[0] != '+' && s[0] != '-';
    var (ip, fp) := ScanUnsigned(s);
    assert DigitRun(s) >= 1;
    assert ip != "";
  }

  /** A digit string parses to its own value. */
  lemma ParseFloatOfDigits(s: string)
    requires AllDigits(s) && s != ""
    ensures ParseFloat(s) == Some(DigitsValue(s) as real)
  {
    var d := DecimalLiteral(false, s, "");
    assert ScanDecimal(s) == Some(d) by {
      ScanUnsignedOfDigits(s);
      ScanDecimalOfDigitStart(s);
    }
  }

  /** `parseFloat` of a digit string `ip`, a '.' and a digit string `fp` reads
      the whole number. */
  lemma ParseFloatOfDecimalPoint(ip: string, fp: string)
    requires AllDigits(ip) && ip != "" && AllDigits(fp) && fp != ""
    ensures ParseFloat(ip + "." + fp) == Some(DecimalValue(ip, fp))
  {
    var s := ip + "." + fp;
    ScanUnsignedOfDecimal(ip, fp);
    assert s[0] == ip[0];
    ScanDecimalOfDigitStart(s);
    var d := DecimalLiteral(false, ip, fp);
    assert ScanDecimal(s) == Some(d);
  }

  /** Leading whitespace is skipped up to the first other character. */
  lemma {:induction false} TrimStartOfWhitespacePrefix(w: string, t: string)
    requires forall i :: 0 <= i < |w| ==> IsWhitespace(w[i])
    requires t == [] || !IsWhitespace(t[0])
    ensures TrimStart(w + t) == t
    decreases |w|
  {
    if w == [] {
      assert w + t == t;
      if t != [] {
        assert !IsWhitespace(t[0]);
      }
    } else {
      assert (w + t)[0] == w[0];
      assert (w + t)[1..] == w[1..] + t;
      TrimStartOfWhitespacePrefix(w[1..], t);
    }
  }

  /** The scan of `ip.fp` followed by text that does not go on with a digit. */
  lemma ScanUnsignedOfPointPrefix(ip: string, fp: string, rest: string)
    requires AllDigits(ip) && AllDigits(fp)
    requires rest == [] || !IsDigit(rest[0])
    ensures ScanUnsigned(ip + "." + fp + rest) == (ip, fp)
  {
    var u := ip + "." + fp + rest;
    var tail := "." + fp + rest;
    assert u == ip + tail;
    DigitRunOfDigitsThen(ip, tail);
    assert u[..|ip|] == ip;
    assert u[|ip|..] == tail;
    assert tail[1..] == fp + rest;
    DigitRunOfDigitsThen(fp, rest);
    assert (fp + rest)[..|fp|] == fp;
  }

  /** The scan of `ip` followed by text that goes on with neither a digit nor
      a point. */
  lemma ScanUnsignedOfIntegerPrefix(ip: string, rest: string)
    requires AllDigits(ip)
    requires rest == [] || (!IsDigit(rest[0]) && rest[0] != '.')
    ensures ScanUnsigned(ip + rest) == (ip, "")
  {
    var u := ip + rest;
    DigitRunOfDigitsThen(ip, rest);
    assert u[..|ip|] == ip;
    assert u[|ip|..] == rest;
  }

  /** The signed value `parseFloat` gives for the sign text and magnitude. */
  function Signed(sign: string, magnitude: real): real {
    if sign == "-" then -magnitude else magnitude
  }

  predicate IsSign(sign: string) {
    sign == "" || sign == "+" || sign == "-"
  }

  /** The part of the scan after the sign: None when no digit was read. */
  function ScanMagnitude(negative: bool, u: string): (d: Option<DecimalLiteral>)
  {
    var (intDigits, fracDigits) := ScanUnsigned(u);
    if intDigits == "" && fracDigits == "" then None
    else Some(DecimalLiteral(negative, intDigits, fracDigits))
  }

  /** The scan after whitespace `w` and the sign text `sign`: the digits are
      read from `u`, and the literal is negative exactly for a '-'. */
  lemma ScanDecimalAfterSign(s: string, w: string, sign: string, u: string)
    requires s == w + (sign + u)
    requires forall i :: 0 <= i < |w| ==> IsWhitespace(w[i])
    requires IsSign(sign)
    requires sign == "" && u != [] ==> !IsWhitespace(u[0]) && u[0] != '+' && u[0] != '-'
    ensures ScanDecimal(s) == ScanMagnitude(sign == "-", u)
  {
    var t := sign + u;
    if sign != "" {
      assert t[0] == sign[0] && t[1..] == u;
    } else {
      assert t == u;
    }
    TrimStartOfWhitespacePrefix(w, t);
    ScanDecimalOfTrimmed(s, t);
  }

  /** The scan reads the sign and the digits from the trimmed text. */
  lemma ScanDecimalOfTrimmed(s: string, t: string)
    requires TrimStart(s) == t
    ensures ScanDecimal(s) ==
              if |t| > 0 && (t[0] == '+' || t[0] == '-') then ScanMagnitude(t[0] == '-', t[1..])
              else ScanMagnitude(false, t)
  {
  }

  /** `parseFloat` skips leading whitespace, reads an optional sign, the
      digits `ip`, a point and the digits `fp`, and ignores whatever follows
      (`" -5.x"` gives -5, `"1.2.3"` gives 1.2, `".5"` gives 0.5). */
  lemma ParseFloatOfPointPrefix(w: string, sign: string, ip: string, fp: string, rest: string)
    requires forall i :: 0 <= i < |w| ==> IsWhitespace(w[i])
    requires IsSign(sign)
    requires AllDigits(ip) && AllDigits(fp) && (ip != "" || fp != "")
    requires rest == [] || !IsDigit(rest[0])
    ensures ParseFloat(w + sign + ip + "." + fp + rest) == Some(Signed(sign, DecimalValue(ip, fp)))
  {
    ScanDecimalOfPointPrefix(w, sign, ip, fp, rest);
    ParseFloatOfSignedScan(w + sign + ip + "." + fp + rest, sign, ip, fp);
  }

  /** The same without a point: the digits `ip` are read up to the first
      character that is neither a digit nor a point (`"12px"` gives 12). */
  lemma ParseFloatOfIntegerPrefix(w: string, sign: string, ip: string, rest: string)
    requires forall i :: 0 <= i < |w| ==> IsWhitespace(w[i])
    requires IsSign(sign)
    requires AllDigits(ip) && ip != ""
    requires rest == [] || (!IsDigit(rest[0]) && rest[0] != '.')
    ensures ParseFloat(w + sign + ip + rest) == Some(Signed(sign, DigitsValue(ip) as real))
  {
    ScanDecimalOfIntegerPrefix(w, sign, ip, rest);
    ParseFloatOfSignedScan(w + sign + ip + rest, sign, ip, "");
    assert DecimalValue(ip, "") == DigitsValue(ip) as real;
  }

  lemma ScanDecimalOfPointPrefix(w: string, sign: string, ip: string, fp: string, rest: string)
    requires forall i :: 0 <= i < |w| ==> IsWhitespace(w[i])
    requires IsSign(sign)
    requires AllDigits(ip) && AllDigits(fp) && (ip != "" || fp != "")
    requires rest == [] || !IsDigit(rest[0])
    ensures ScanDecimal(w + sign + ip + "." + fp + rest) == Some(DecimalLiteral(sign == "-", ip, fp))
  {
    var u := ip + "." + fp + rest;
    var s := w + sign + ip + "." + fp + rest;
    assert s == w + (sign + u);
    assert u[0] == if ip == "" then '.' else ip[0];
    ScanDecimalAfterSign(s, w, sign, u);
    ScanUnsignedOfPointPrefix(ip, fp, rest);
  }

  lemma ScanDecimalOfIntegerPrefix(w: string, sign: string, ip: string, rest: string)
    requires forall i :: 0 <= i < |w| ==> IsWhitespace(w[i])
    requires IsSign(sign)
    requires AllDigits(ip) && ip != ""
    requires rest == [] || (!IsDigit(rest[0]) && rest[0] != '.')
    ensures ScanDecimal(w + sign + ip + rest) == Some(DecimalLiteral(sign == "-", ip, ""))
  {
    var u := ip + rest;
    var s := w + sign + ip + rest;
    assert s == w + (sign + u);
    assert u[0] == ip[0];
    ScanDecimalAfterSign(s, w, sign, u);
    ScanUnsignedOfIntegerPrefix(ip, rest);
  }

  lemma ParseFloatOfSignedScan(s: string, sign: string, ip: string, fp: string)
    requires AllDigits(ip) && AllDigits(fp) && (ip != "" || fp != "")
    requires ScanDecimal(s) == Some(DecimalLiteral(sign == "-", ip, fp))
    ensures ParseFloat(s) == Some(Signed(sign, DecimalValue(ip, fp)))
  {
    var d := DecimalLiteral(sign == "-", ip, fp);
    ParseFloatOfScan(s, d);
    assert LiteralValue(d) == Signed(sign, DecimalValue(ip, fp));
  }

  lemma ParseFloatOfScan(s: string, d: DecimalLiteral)
    requires ScanDecimal(s) == Some(d)
    ensures ParseFloat(s) == Some(LiteralValue(d))
  {
  }

  /** NaN: after the whitespace and the sign there is no digit, neither
      directly nor after a point (`"abc"`, `"-"`, `"."`, `" +.x"`). */
  lemma ParseFloatNaN(w: string, sign: string, rest: string)
    requires forall i :: 0 <= i < |w| ==> IsWhitespace(w[i])
    requires IsSign(sign)
    requires rest == [] || !IsDigit(rest[0])
    requires |rest| >= 2 && rest[0] == '.' ==> !IsDigit(rest[1])
    requires sign == "" && rest != [] ==> !IsWhitespace(rest[0]) && rest[0] != '+' && rest[0] != '-'
    ensures ParseFloat(w + sign + rest) == None
  {
    var s := w + sign + rest;
    assert s == w + (sign + rest);
    ScanDecimalAfterSign(s, w, sign, rest);
    assert DigitRun(rest) == 0;
    if |rest| > 0 && rest[0] == '.' {
      assert DigitRun(rest[1..]) == 0;
    }
  }

  // ---------------------------------------------------------------------
  // Number.prototype.toString of a non-negative decimal
  // ---------------------------------------------------------------------

  function StripLeadingZeros(s: string): (r: string)
    ensures |r| <= |s| && r == s[|s| - |r|..]
    ensures r == [] || r[0] != '0'
    decreases |s|
  {
    if |s| > 0 && s[0] == '0' then StripLeadingZeros(s[1..]) else s
  }

  function StripTrailingZeros(s: string): (r: string)
    ensures r <= s
    ensures r == [] || r[|r| - 1] != '0'
    decreases |s|
  {
    if |s| > 0 && s[|s| - 1] == '0' then StripTrailingZeros(s[..|s| - 1]) else s
  }

  /** The shortest spelling of the non-negative number whose integer digits are
      `ip` and fraction digits `fp`: no leading zeros before the point (but
      at least "0"), no trailing zeros after it, and no point for an integer. */
  function DecimalToString(ip: string, fp: string): (r: string)
    requires AllDigits(ip) && AllDigits(fp)
    ensures r != [] && AllDigitsOrDots(r)
    ensures Occurrences(r, '.') <= 1
  {
    var whole := StripLeadingZeros(ip);
    var frac := StripTrailingZeros(fp);
    var w := if whole == "" then "0" else whole;
    OccurrencesOfDigits(w);
    if frac == "" then w
    else
      PointJoinShape(w, frac);
      w + "." + frac
  }

  /** Two digit runs joined by a point hold digits and exactly one point. */
  lemma PointJoinShape(w: string, frac: string)
    requires AllDigits(w) && AllDigits(frac)
    ensures AllDigitsOrDots(w + "." + frac)
    ensures Occurrences(w + "." + frac, '.') == 1
  {
    OccurrencesOfDigits(w);
    OccurrencesOfDigits(frac);
    OccurrencesAppend(w, "." + frac, '.');
    assert ("." + frac)[1..] == frac;
    assert w + "." + frac == w + ("." + frac);
  }

  lemma {:induction false} OccurrencesOfDigits(s: string)
    requires AllDigits(s)
    ensures Occurrences(s, '.') == 0
    decreases |s|
  {
    if s != [] {
      OccurrencesOfDigits(s[1..]);
    }
  }

  lemma {:induction false} OccurrencesAppend(a: string, b: string, c: char)
    ensures Occurrences(a + b, c) == Occurrences(a, c) + Occurrences(b, c)
    decreases |a|
  {
    if a == [] {
      assert a + b == b;
    } else {
      assert (a + b)[1..] == a[1..] + b;
      OccurrencesAppend(a[1..], b, c);
    }
  }

  lemma {:induction false} LeadingZerosKeepValue(s: string)
    requires AllDigits(s)
    ensures DigitsValue(StripLeadingZeros(s)) == DigitsValue(s)
    decreases |s|
  {
    if |s| > 0 && s[0] == '0' {
      LeadingZerosKeepValue(s[1..]);
      ZeroPrefixKeepsValue(s[1..]);
      assert s == "0" + s[1..];
    }
  }

  lemma {:induction false} ZeroPrefixKeepsValue(s: string)
    requires AllDigits(s)
    ensures DigitsValue("0" + s) == DigitsValue(s)
    decreases |s|
  {
    if s != [] {
      assert ("0" + s)[..|s|] == "0" + s[..|s| - 1];
      ZeroPrefixKeepsValue(s[..|s| - 1]);
    }
  }

  lemma {:induction false} TrailingZerosKeepFraction(s: string)
    requires AllDigits(s)
    ensures FractionValue(StripTrailingZeros(s)) == FractionValue(s)
    decreases |s|
  {
    if |s| > 0 && s[|s| - 1] == '0' {
      var t := s[..|s| - 1];
      TrailingZerosKeepFraction(t);
      AppendZeroKeepsFraction(t);
      assert s == t + "0";
    }
  }

  lemma {:induction false} AppendZeroKeepsFraction(t: string)
    requires AllDigits(t)
    ensures AllDigits(t + "0")
    ensures FractionValue(t + "0") == FractionValue(t)
    decreases |t|
  {
    var s := t + "0";
    if t != [] {
      assert s[1..] == t[1..] + "0";
      AppendZeroKeepsFraction(t[1..]);
    } else {
      assert s[1..] == [];
    }
  }

  /** `parseFloat` of the spelling `ip` or `ip.fp` (with `fp` non-empty) is
      the number it spells. */
  lemma ParseFloatOfSpelling(ip: string, fp: string)
    requires AllDigits(ip) && ip != "" && AllDigits(fp)
    ensures ParseFloat(if fp == "" then ip else ip + "." + fp)
         == Some(DecimalValue(ip, fp))
  {
    if fp == "" {
      ParseFloatOfDigits(ip);
    } else {
      ParseFloatOfDecimalPoint(ip, fp);
    }
  }

  /** Printing and reparsing gives back the value: `parseFloat` of
      `DecimalToString(ip, fp)` is the number `ip.fp`. */
  lemma ParseFloatOfDecimalToString(ip: string, fp: string)
    requires AllDigits(ip) && AllDigits(fp)
    ensures ParseFloat(DecimalToString(ip, fp)) == Some(DecimalValue(ip, fp))
  {
    var w, frac := SpellingParts(ip, fp);
    ParseFloatOfSpelling(w, frac);
  }

  /** The spelling splits into its integer part `w` and fraction `frac`, which
      spell the same number as `ip` and `fp`. */
  lemma SpellingParts(ip: string, fp: string) returns (w: string, frac: string)
    requires AllDigits(ip) && AllDigits(fp)
    ensures AllDigits(w) && w != "" && AllDigits(frac)
    ensures DecimalToString(ip, fp) == if frac == "" then w else w + "." + frac
    ensures DecimalValue(w, frac) == DecimalValue(ip, fp)
  {
    var whole := StripLeadingZeros(ip);
    frac := StripTrailingZeros(fp);
    w := if whole == "" then "0" else whole;
    assert AllDigits(w) && AllDigits(frac) by {
      assert forall i :: 0 <= i < |whole| ==> whole[i] == ip[|ip| - |whole| + i];
      assert forall i :: 0 <= i < |frac| ==> frac[i] == fp[i];
    }
    assert DigitsValue(w) == DigitsValue(ip) by {
      LeadingZerosKeepValue(ip);
      if whole == "" {
        assert DigitsValue("0") == 10 * DigitsValue("") + 0;
      }
    }
    TrailingZerosKeepFraction(fp);
  }
}
