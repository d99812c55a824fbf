/**
 * The string handling the date/time picker applies to its time field:
 * `time.split(':').map((str) => parseInt(str, 10))`, destructured as `[hours, minutes]`.
 */
module TimeParse {
  import opened Wrappers

  /** A JavaScript number as `parseInt` produces it: an integer or `NaN`. */
  datatype Number = NaN | Num(n: int)

  predicate IsDigit(c: char) {
    '0' <= c <= '9'
  }

  /** The characters JavaScript's `parseInt` skips before the number (WhiteSpace and LineTerminator). */
  predicate IsJsWhitespace(c: char) {
    c == '\t' || c == '\n' || c == '\U{B}' || c == '\U{C}' || c == '\r' || c == ' '
    || c == '\U{A0}' || c == '\U{1680}' || ('\U{2000}' <= c <= '\U{200A}')
    || c == '\U{2028}' || c == '\U{2029}' || c == '\U{202F}' || c == '\U{205F}'
    || c == '\U{3000}' || c == '\U{FEFF}'
  }

  predicate AllDigits(s: string) {
    forall i :: 0 <= i < |s| ==> IsDigit(s[i])
  }

  /** `s` without its leading whitespace. */
  function TrimStart(s: string): (r: string)
    ensures |r| <= |s| && r == s[|s| - |r|..]
    ensures r == [] || !IsJsWhitespace(r[0])
    ensures forall i :: 0 <= i < |s| - |r| ==> IsJsWhitespace(s[i])
  {
    if s != [] && IsJsWhitespace(s[0]) then TrimStart(s[1..]) else s
  }

  /** The longest prefix of `s` made of decimal digits. */
  function DigitPrefix(s: string): (r: string)
    ensures r <= s && AllDigits(r)
    ensures |r| < |s| ==> !IsDigit(s[|r|])
  {
    if s != [] && IsDigit(s[0]) then [s[0]] + DigitPrefix(s[1..]) else []
  }

  /** The value of a string of decimal digits, most significant first. */
  function DigitsValue(ds: string): nat
    requires AllDigits(ds)
  {
    if ds == [] then 0
    else DigitsValue(ds[..|ds| - 1]) * 10 + (ds[|ds| - 1] as int - '0' as int)
  }

  /** The text after an optional leading sign. */
  function Unsigned(t: string): string {
    if t != [] && (t[0] == '-' || t[0] == '+') then t[1..] else t
  }

  /**
   * `parseInt(s, 10)`: skip leading whitespace, read an optional sign, then the
   * longest run of decimal digits; with no digit there the result is `NaN`.
   */
  function ParseInt(s: string): Number {
    var t := TrimStart(s);
    var ds := DigitPrefix(Unsigned(t));
    if ds == [] then NaN
    else
      var v: int := DigitsValue(ds);
      if t[0] == '-' then Num(-v) else Num(v)
  }

  /** `s.split(sep)` for a one-character separator. */
  function Split(s: string, sep: char): (parts: seq<string>)
    ensures |parts| >= 1
  {
    if s == [] then [""]
    else
      var rest := Split(s[1..], sep);
      if s[0] == sep then [""] + rest else [[s[0]] + rest[0]] + rest[1..]
  }

  /** `parts.join(sep)`, the inverse of `Split`. */
  function Join(parts: seq<string>, sep: char): string
    requires |parts| >= 1
  {
    if |parts| == 1 then parts[0] else parts[0] + [sep] + Join(parts[1..], sep)
  }

  /**
   * `const [hours, minutes] = time.split(':').map((str) => parseInt(str, 10))`:
   * `split` always yields a first piece, so `hours` is a number (possibly `NaN`);
   * `map` only visits pieces that exist, so without a `':'` the destructured
   * `minutes` is `undefined` (`None` here), not a number. Pieces past the second
   * are ignored.
   */
  function ParseTime(time: string): (Number, Option<Number>) {
    var parts := Split(time, ':');
    (ParseInt(parts[0]), if |parts| > 1 then Some(ParseInt(parts[1])) else None)
  }

  /** JavaScript's `ToNumber` on a number or `undefined`: `undefined` becomes `NaN`. */
  function ToNumber(v: Option<Number>): Number {
    if v.Some? then v.value else NaN
  }

  /**
   * `!(Number.isNaN(hours) || Number.isNaN(minutes))`: `Number.isNaN` is true only of
   * the number `NaN`, so an `undefined` minutes passes this guard.
   */
  predicate PassesNaNGuard(hm: (Number, Option<Number>)) {
    !(hm.0.NaN? || (hm.1.Some? && hm.1.value.NaN?))
  }

  /** True when both parts of a parsed time are numbers other than `NaN`. */
  predicate IsNumeric(hm: (Number, Option<Number>)) {
    hm.0.Num? && ToNumber(hm.1).Num?
  }

  /** The decimal digit for `d`. */
  function Digit(d: nat): (c: char)
    requires d < 10
    ensures IsDigit(c)
  {
    ('0' as int + d) as char
  }

  /** `n` written with two digits. */
  function Pad2(n: nat): (s: string)
    requires n < 100
    ensures |s| == 2 && AllDigits(s)
  {
    [Digit(n / 10), Digit(n % 10)]
  }

  /** The `"HH:MM"` value an `<input type="time">` holds for a chosen time. */
  function FormatTime(hours: nat, minutes: nat): string
    requires hours < 24 && minutes < 60
  {
    Pad2(hours) + ":" + Pad2(minutes)
  }

  // ---------------------------------------------------------------- properties

  /** Joining the pieces of a split gives back the original string. */
  lemma {:induction false} JoinSplit(s: string, sep: char)
    ensures Join(Split(s, sep), sep) == s
  {
    if s != [] {
      var rest := Split(s[1..], sep);
      JoinSplit(s[1..], sep);
      if s[0] == sep {
        assert Split(s, sep) == [""] + rest;
        assert Join(Split(s, sep), sep) == [sep] + Join(rest, sep);
        assert s == [s[0]] + s[1..];
      } else {
        var parts := Split(s, sep);
        assert parts == [[s[0]] + rest[0]] + rest[1..];
        if |rest| == 1 {
          assert Join(parts, sep) == [s[0]] + rest[0];
        } else {
          assert parts[1..] == rest[1..];
          assert Join(parts, sep) == [s[0]] + rest[0] + [sep] + Join(rest[1..], sep);
        }
        assert s == [s[0]] + s[1..];
      }
    }
  }

  /** No piece of a split contains the separator. */
  lemma {:induction false} SplitPiecesLackSeparator(s: string, sep: char)
    ensures forall i :: 0 <= i < |Split(s, sep)| ==> sep !in Split(s, sep)[i]
  {
    if s != [] {
      SplitPiecesLackSeparator(s[1..], sep);
    }
  }

  /** Splitting a join of separator-free pieces gives back the pieces. */
  lemma {:induction false} SplitJoin(parts: seq<string>, sep: char)
    requires |parts| >= 1
    requires forall i :: 0 <= i < |parts| ==> sep !in parts[i]
    ensures Split(Join(parts, sep), sep) == parts
  {
    if |parts| == 1 {
      SplitPiece(parts[0], [], sep);
      assert parts[0] + [] == parts[0] && parts[0] + "" == parts[0];
      assert parts == [parts[0]];
    } else {
      var tail := Join(parts[1..], sep);
      SplitJoin(parts[1..], sep);
      assert Split([sep] + tail, sep) == [""] + parts[1..] by {
        assert ([sep] + tail)[1..] == tail;
      }
      assert Join(parts, sep) == parts[0] + ([sep] + tail);
      SplitPiece(parts[0], [sep] + tail, sep);
      assert parts[0] + "" == parts[0];
      assert parts == [parts[0]] + parts[1..];
    }
  }

  /** A separator-free prefix extends the first piece of a split. */
  lemma {:induction false} SplitPiece(p: string, rest: string, sep: char)
    requires sep !in p
    ensures Split(p + rest, sep) == [p + Split(rest, sep)[0]] + Split(rest, sep)[1..]
  {
    if p != [] {
      SplitPiece(p[1..], rest, sep);
      assert (p + rest)[1..] == p[1..] + rest;
      assert [p[0]] + (p[1..] + Split(rest, sep)[0]) == p + Split(rest, sep)[0];
    } else {
      var r := Split(rest, sep);
      assert p + rest == rest && p + r[0] == r[0];
      assert r == [r[0]] + r[1..];
    }
  }

  /** A digit string is read back by `DigitPrefix` when it is followed by a non-digit or nothing. */
  lemma {:induction false} DigitPrefixOfDigits(ds: string, rest: string)
    requires AllDigits(ds)
    requires rest == [] || !IsDigit(rest[0])
    ensures DigitPrefix(ds + rest) == ds
  {
    if ds != [] {
      assert (ds + rest)[1..] == ds[1..] + rest;
      DigitPrefixOfDigits(ds[1..], rest);
    } else {
      assert ds + rest == rest;
    }
  }

  /** `parseInt` reads a run of digits followed by anything that does not continue it. */
  lemma ParseIntDigits(ds: string, rest: string)
    requires ds != [] && AllDigits(ds)
    requires rest == [] || !IsDigit(rest[0])
    ensures ParseInt(ds + rest) == Num(DigitsValue(ds))
  {
    assert TrimStart(ds + rest) == ds + rest;
    assert Unsigned(ds + rest) == ds + rest;
    DigitPrefixOfDigits(ds, rest);
  }

  lemma Pad2Value(n: nat)
    requires n < 100
    ensures DigitsValue(Pad2(n)) == n
  {
    var s := Pad2(n);
    assert s[..1] == [Digit(n / 10)];
    assert DigitsValue(s[..1]) == n / 10 by {
      assert s[..1][..0] == [];
    }
  }

  /**
   * Parsing a time formatted as `"HH:MM"` gives back its hours and minutes:
   * the value an `<input type="time">` holds is always understood.
   */
  lemma ParseFormatTime(hours: nat, minutes: nat)
    requires hours < 24 && minutes < 60
    ensures ParseTime(FormatTime(hours, minutes)) == (Num(hours), Some(Num(minutes)))
  {
    var h, m := Pad2(hours), Pad2(minutes);
    assert ':' !in h && ':' !in m;
    assert FormatTime(hours, minutes) == Join([h, m], ':') by {
      assert Join([h, m], ':') == h + [':'] + Join([m], ':');
    }
    SplitJoin([h, m], ':');
    ParseIntDigits(h, []);
    ParseIntDigits(m, []);
    assert h + [] == h && m + [] == m;
    Pad2Value(hours);
    Pad2Value(minutes);
  }

  /**
   * A time without `':'` has no minutes piece: `minutes` is `undefined`, which passes
   * the `NaN` guard, while the hours are `parseInt` of the whole text.
   */
  lemma {:induction false} NoColonNoMinutes(time: string)
    requires ':' !in time
    ensures ParseTime(time) == (ParseInt(time), None)
    ensures PassesNaNGuard(ParseTime(time)) <==> ParseInt(time).Num?
    ensures !IsNumeric(ParseTime(time))
  {
    SplitJoin([time], ':');
  }

  /** An hour typed without minutes, such as `"10"`, reads as that hour and `undefined` minutes. */
  lemma HourOnlyParts(ds: string)
    requires ds != [] && AllDigits(ds)
    ensures ParseTime(ds) == (Num(DigitsValue(ds)), None)
  {
    ParseIntDigits(ds, []);
    assert ds + [] == ds;
    forall i | 0 <= i < |ds|
      ensures ds[i] != ':'
    {
      assert IsDigit(ds[i]);
    }
    NoColonNoMinutes(ds);
  }

  /** The cleared time input `""` gives `NaN` hours and an `undefined` minutes. */
  lemma EmptyTimeParts()
    ensures ParseTime("") == (NaN, None)
    ensures !PassesNaNGuard(ParseTime(""))
  {
  }
}
