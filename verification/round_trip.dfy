/** What the bridge prints is what the controller reads: path_protocol.py against ROS2_MOVEMENTS_1. */
module RoundTrip {
  import opened Wrappers
  import opened Strings
  import opened DecimalText
  import opened PdlText

  function IntPow10(n: nat): (p: nat)
    ensures p >= 1
  {
    if n == 0 then 1 else 10 * IntPow10(n - 1)
  }

  lemma {:induction false} AppendDigits(p: string, n: nat, width: nat)
    requires n < IntPow10(width)
    ensures Mantissa(p + Padded(n, width)) == Mantissa(p) * IntPow10(width) + n
    ensures Decimals(p + Padded(n, width)) == Decimals(p) + (if Dotted(p) then width else 0)
    ensures Dotted(p + Padded(n, width)) == Dotted(p)
  {
    if width == 0 {
      assert p + Padded(n, 0) == p;
    } else {
      AppendDigits(p, n / 10, width - 1);
      var q := p + Padded(n / 10, width - 1);
      assert p + Padded(n, width) == q + [Digit(n % 10)];
      AppendChar(q, Digit(n % 10));
      ShiftDigit(Mantissa(p), IntPow10(width - 1), n);
    }
  }

  lemma {:induction false} ShiftDigit(m: nat, p: nat, n: nat)
    ensures 10 * (m * p + n / 10) + n % 10 == m * (10 * p) + n
  {
    assert m * (10 * p) == 10 * (m * p);
  }

  lemma {:induction false} DecimalMeaning(n: nat)
    ensures Mantissa(Decimal(n)) == n
    ensures n > 0 ==> Decimal(n)[0] != '0'
  {
    if n >= 10 {
      DecimalMeaning(n / 10);
      assert Decimal(n)[..|Decimal(n)| - 1] == Decimal(n / 10);
    } else {
      assert Decimal(n)[..0] == "";
    }
  }

  lemma {:induction false} DecimalLength(n: nat, k: nat)
    requires n < IntPow10(k) && k > 0
    ensures |Decimal(n)| <= k
  {
    if n >= 10 {
      DecimalLength(n / 10, k - 1);
    }
  }

  lemma {:induction false} WholeMeaning(n: nat)
    ensures Mantissa(Decimal(n) + ".") == n && Decimals(Decimal(n) + ".") == 0 && Dotted(Decimal(n) + ".")
  {
    DecimalMeaning(n);
    NoDecimals(Decimal(n));
    AppendChar(Decimal(n), '.');
  }

  lemma {:induction false} OneDot(a: string, b: string)
    requires forall i :: 0 <= i < |a| ==> IsDigit(a[i])
    requires forall i :: 0 <= i < |b| ==> IsDigit(b[i])
    ensures Unsigned(a + "." + b) && Dotted(a + "." + b)
  {
    var s := a + "." + b;
    assert forall i :: 0 <= i < |s| ==> s[i] == (if i < |a| then a[i] else if i == |a| then '.' else b[i - |a| - 1]);
    assert s[|a|] == '.';
  }

  /** The unstripped text denotes exactly the printed magnitude. */
  lemma {:induction false} MagnitudeMeaning(x: real)
    ensures Unsigned(Magnitude(x)) && Dotted(Magnitude(x))
    ensures Value(Magnitude(x)) == Abs(Micro(x)) as real / 1000000.0
  {
    var m := Abs(Micro(x));
    WholeMeaning(m / 1000000);
    OneDot(Decimal(m / 1000000), Padded(m % 1000000, 6));
    MillionIsPow10();
    AppendDigits(Decimal(m / 1000000) + ".", m % 1000000, 6);
  }

  lemma {:induction false} MillionIsPow10()
    ensures IntPow10(6) == 1000000 && Pow10(6) == 1000000.0
  {
    assert IntPow10(3) == 1000 && Pow10(3) == 1000.0;
  }

  lemma {:induction false} StripZeros(s: string)
    requires Unsigned(s) && Dotted(s)
    ensures Unsigned(RStrip(s, '0')) && Dotted(RStrip(s, '0')) && Value(RStrip(s, '0')) == Value(s)
  {
    if s[|s| - 1] == '0' {
      var p := s[..|s| - 1];
      assert forall i :: 0 <= i < |p| ==> p[i] == s[i];
      var i :| 0 <= i < |s| && s[i] == '.';
      assert p[i] == '.';
      AppendDecimal(Mantissa(p) as real, Pow10(Decimals(p)), 0.0);
      StripZeros(p);
    }
  }

  lemma {:induction false} StripDot(s: string)
    requires Unsigned(s)
    ensures Unsigned(RStrip(s, '.')) && Value(RStrip(s, '.')) == Value(s)
  {
    if s != "" && s[|s| - 1] == '.' {
      var p := s[..|s| - 1];
      assert forall i :: 0 <= i < |p| ==> p[i] == s[i];
      StripDot(p);
    }
  }

  lemma {:induction false} StripSigned(s: string, c: char)
    requires c != '-'
    ensures RStrip("-" + s, c) == "-" + RStrip(s, c)
  {
    if s != "" {
      assert ("-" + s)[..|s|] == "-" + s[..|s| - 1];
      if s[|s| - 1] == c {
        StripSigned(s[..|s| - 1], c);
      }
    }
  }

  /** The digits `_number` prints after its sign. */
  function Stripped(x: real): string {
    RStrip(RStrip(Magnitude(x), '0'), '.')
  }

  lemma {:induction false} StrippedMeaning(x: real)
    ensures Unsigned(Stripped(x)) && Value(Stripped(x)) == Abs(Micro(x)) as real / 1000000.0
    ensures Decimal(Abs(Micro(x)) / 1000000) <= Stripped(x)
  {
    MagnitudeMeaning(x);
    StripZeros(Magnitude(x));
    StripDot(RStrip(Magnitude(x), '0'));
    var whole, zeros := Decimal(Abs(Micro(x)) / 1000000), RStrip(Magnitude(x), '0');
    assert whole + "." <= Magnitude(x);
    KeepsPrefix(whole + ".", Magnitude(x), '0');
    assert whole <= whole + "." <= zeros;
    KeepsPrefix(whole, zeros, '.');
  }

  /** Stripping never eats into a prefix that ends in another character. */
  lemma {:induction false} KeepsPrefix(p: string, s: string, c: char)
    requires p <= s && p != "" && p[|p| - 1] != c
    ensures p <= RStrip(s, c)
  {
    if p != s {
      assert s[..|s| - 1][..|p|] == s[..|p|];
      if s[|s| - 1] == c {
        KeepsPrefix(p, s[..|s| - 1], c);
      }
    }
  }

  lemma {:induction false} CanonicalSigned(m: string, negative: bool)
    requires var t := RStrip(RStrip(m, '0'), '.'); t != "" && IsDigit(t[0])
    ensures var t := RStrip(RStrip(m, '0'), '.');
            Canonical((if negative then "-" else "") + m) ==
              (if t == "0" then "0" else (if negative then "-" else "") + t)
  {
    hide RStrip;
    var z := RStrip(m, '0');
    var t := RStrip(z, '.');
    if negative {
      StripSigned(m, '0');
      StripSigned(z, '.');
      assert ("-" + t)[1..] == t && "-0"[1..] == "0";
    } else {
      assert "" + m == m && "" + t == t;
    }
  }

  lemma {:induction false} NumberShape(x: real)
    ensures Number(x) == (if Stripped(x) == "0" then "0" else (if x < 0.0 then "-" else "") + Stripped(x))
  {
    StrippedStarts(x);
    CanonicalSigned(Magnitude(x), x < 0.0);
  }

  lemma {:induction false} StrippedStarts(x: real)
    ensures Stripped(x) != "" && IsDigit(Stripped(x)[0])
  {
    StrippedMeaning(x);
    DecimalStarts(Abs(Micro(x)) / 1000000, Stripped(x));
  }

  lemma {:induction false} DecimalStarts(n: nat, t: string)
    requires Decimal(n) <= t
    ensures t != "" && IsDigit(t[0])
  {
    hide Decimal;
    assert t[0] == Decimal(n)[0];
  }

  lemma {:induction false} MicroSign(x: real)
    ensures x < 0.0 ==> Micro(x) <= 0
    ensures x >= 0.0 ==> Micro(x) >= 0
  {
    MicroOfInt(0);
    if x < 0.0 {
      RoundingIsMonotone(x, 0.0);
    } else {
      RoundingIsMonotone(0.0, x);
    }
  }

  lemma {:induction false} ParsedSigned(t: string, sign: string)
    requires Unsigned(t) && t != "" && IsDigit(t[0]) && (sign == "" || sign == "-")
    ensures Parsed(sign + t) == Some(if sign == "-" then -Value(t) else Value(t))
  {
    ScanMeaning(t);
    if sign == "" {
      assert sign + t == t;
    } else {
      assert (sign + t)[1..] == t && (sign + t)[0] == '-';
    }
  }

  lemma {:induction false} SignedMagnitude(x: real)
    ensures Rounded(x) == (if x < 0.0 then -(Abs(Micro(x)) as real / 1000000.0) else Abs(Micro(x)) as real / 1000000.0)
  {
    MicroSign(x);
  }

  /** Printing then parsing a number gives the number to six decimals, "-0" included. */
  lemma {:induction false} NumberRoundTrip(x: real)
    ensures Parsed(Number(x)) == Some(Rounded(x))
  {
    hide Number, Stripped, Parsed, Rounded, Unsigned, Value;
    var t, sign := Stripped(x), if x < 0.0 then "-" else "";
    StrippedMeaning(x);
    NumberShape(x);
    SignedMagnitude(x);
    StrippedStarts(x);
    if t == "0" {
      ZeroDigit();
      ParsedSigned("0", "");
      assert "" + "0" == "0";
    } else {
      ParsedSigned(t, sign);
    }
  }

  lemma {:induction false} ZeroDigit()
    ensures Value("0") == 0.0
  {
    AppendChar("", '0');
    assert "" + ['0'] == "0";
  }

  /** A printed number is non-empty and holds neither delimiter. */
  lemma {:induction false} NumberCharacters(x: real)
    ensures Number(x) != "" && ',' !in Number(x) && ':' !in Number(x)
  {
    hide Number, Stripped, Value;
    StrippedMeaning(x);
    StrippedStarts(x);
    NumberShape(x);
  }

  /** Two values print alike exactly when they agree to six decimals. */
  lemma {:induction false} NumberIsCanonical(x: real, y: real)
    ensures Number(x) == Number(y) <==> Micro(x) == Micro(y)
  {
    NumberRoundTrip(x);
    NumberRoundTrip(y);
    NumberShape(x);
    NumberShape(y);
    MicroSign(x);
    MicroSign(y);
    if Micro(x) == Micro(y) == 0 {
      ZeroPrintsAsZero(x);
      ZeroPrintsAsZero(y);
    }
  }

  lemma {:induction false} ZeroPrintsAsZero(x: real)
    requires Micro(x) == 0
    ensures Stripped(x) == "0"
  {
    hide Micro, RStrip;
    StrippedStarts(x);
    ZeroMagnitude(x);
    var zeros := RStrip(Magnitude(x), '0');
    assert |zeros| <= 2;
    assert forall i :: 0 <= i < |zeros| ==> zeros[i] == "0.000000"[i];
    assert |Stripped(x)| <= 1;
    assert |zeros| > 0 && zeros[0] == '0';
  }

  lemma {:induction false} ZeroMagnitude(x: real)
    requires Micro(x) == 0
    ensures Magnitude(x) == "0.000000"
  {
    hide Micro;
    assert Decimal(0) == "0";
    assert Padded(0, 3) == "000";
    assert Padded(0, 6) == "000000";
  }

  // Tokens longer than the controller's STRING[25].

  predicate Fits(x: real) {
    |Number(x)| <= TOKEN_LENGTH
  }

  /** Reading one more character never lowers the value, and raises it when that character counts. */
  lemma {:induction false} ValueGrows(p: string, c: char)
    requires IsDigit(c) || c == '.'
    ensures Value(p + [c]) >= Value(p)
    ensures IsDigit(c) && (if Dotted(p) then c != '0' else Mantissa(p) > 0) ==> Value(p + [c]) > Value(p)
  {
    AppendChar(p, c);
    if IsDigit(c) {
      var d := (c as int - '0' as int) as real;
      if Dotted(p) {
        AppendDecimal(Mantissa(p) as real, Pow10(Decimals(p)), d);
      } else {
        NoDecimals(p);
        NoDecimals(p + [c]);
      }
    }
  }

  lemma {:induction false} PrefixValue(s: string, k: nat)
    requires k <= |s| && Unsigned(s)
    ensures Value(s[..k]) <= Value(s) && Mantissa(s[..k]) <= Mantissa(s)
    decreases |s| - k
  {
    if k < |s| {
      var p, c := s[..|s| - 1], s[|s| - 1];
      assert p + [c] == s && p[..k] == s[..k];
      assert forall i :: 0 <= i < |p| ==> p[i] == s[i];
      PrefixValue(p, k);
      ValueGrows(p, c);
      AppendChar(p, c);
    } else {
      assert s[..k] == s;
    }
  }

  /** The last digit counts: a decimal other than zero, or a digit after another that is not zero. */
  predicate IsTight(t: string)
    requires t != ""
  {
    && IsDigit(t[|t| - 1])
    && if Dotted(t[..|t| - 1]) then t[|t| - 1] != '0' else Mantissa(t[..|t| - 1]) > 0
  }

  /** Cutting off a digit that counts lowers the value. */
  lemma {:induction false} CutLowers(t: string, k: nat)
    requires 0 < k < |t| && Unsigned(t) && IsTight(t)
    ensures Value(t[..k]) < Value(t) && Unsigned(t[..k])
  {
    var p, c := t[..|t| - 1], t[|t| - 1];
    assert p + [c] == t && p[..k] == t[..k];
    assert forall i :: 0 <= i < |p| ==> p[i] == t[i];
    PrefixValue(p, k);
    ValueGrows(p, c);
  }

  /** Without its last digit, a number of two or more digits is still positive. */
  lemma {:induction false} ShortenedDecimal(n: nat)
    requires |Decimal(n)| > 1
    ensures Decimal(n)[..|Decimal(n)| - 1] == Decimal(n / 10) && Mantissa(Decimal(n / 10)) > 0
  {
    DecimalMeaning(n / 10);
  }

  /** With a dot before its last character, a stripped text ends in a decimal other than zero. */
  lemma {:induction false} DottedIsTight(m: string)
    requires Unsigned(m)
    requires var t := RStrip(RStrip(m, '0'), '.'); |t| > 1 && Dotted(t[..|t| - 1])
    ensures var t := RStrip(RStrip(m, '0'), '.'); IsDigit(t[|t| - 1]) && t[|t| - 1] != '0'
  {
    var zeros := RStrip(m, '0');
    var t := RStrip(zeros, '.');
    var i :| 0 <= i < |t| - 1 && t[..|t| - 1][i] == '.';
    assert m[i] == '.' && zeros[i] == '.';
    assert t == zeros;
    assert t[|t| - 1] == m[|t| - 1];
  }

  /** Without one, it is all of the text before the dot. */
  lemma {:induction false} WholeIsLeft(whole: string, decimals: string)
    requires whole != "" && IsDigit(whole[|whole| - 1]) && Unsigned(whole + "." + decimals)
    requires var t := RStrip(RStrip(whole + "." + decimals, '0'), '.'); |t| > 1 && !Dotted(t[..|t| - 1])
    ensures RStrip(RStrip(whole + "." + decimals, '0'), '.') == whole
  {
    var m := whole + "." + decimals;
    KeepsPrefix(whole + ".", m, '0');
    var zeros := RStrip(m, '0');
    KeepsPrefix(whole, zeros, '.');
    var t := RStrip(zeros, '.');
    assert zeros[|whole|] == '.';
  }

  lemma {:induction false} DecimalIsTight(n: nat)
    requires |Decimal(n)| > 1 && !Dotted(Decimal(n)[..|Decimal(n)| - 1])
    ensures IsTight(Decimal(n))
  {
    hide Mantissa, Dotted;
    ShortenedDecimal(n);
  }

  /** A stripped number ends in a digit that counts. */
  lemma {:induction false} StrippedIsTight(x: real)
    requires |Stripped(x)| > 1
    ensures IsTight(Stripped(x))
  {
    MagnitudeMeaning(x);
    hide Unsigned, Dotted, Mantissa, Value, RStrip, Micro, Decimal, Padded;
    if Dotted(Stripped(x)[..|Stripped(x)| - 1]) {
      DottedIsTight(Magnitude(x));
    } else {
      hide IsTight;
      WholeIsLeft(Decimal(Abs(Micro(x)) / 1000000), Padded(Abs(Micro(x)) % 1000000, 6));
      DecimalIsTight(Abs(Micro(x)) / 1000000);
    }
  }

  /** A token cut inside a number that ends in a digit that counts reads as another number. */
  lemma {:induction false} CutTokenIsMisread(t: string, sign: string, k: nat)
    requires (sign == "" || sign == "-") && 0 < k < |t| && Unsigned(t) && IsDigit(t[0]) && IsTight(t)
    ensures Parsed(sign + t[..k]).Some?
    ensures Parsed(sign + t[..k]) != Some(if sign == "-" then -Value(t) else Value(t))
  {
    CutLowers(t, k);
    ParsedSigned(t[..k], sign);
  }

  /** A number too long for the token is still read as a number, but as another one. */
  lemma {:induction false} LongTokenIsMisread(x: real)
    requires !Fits(x)
    ensures Parsed(Number(x)[..TOKEN_LENGTH]).Some?
    ensures Parsed(Number(x)[..TOKEN_LENGTH]) != Some(Rounded(x))
  {
    var t, sign := Stripped(x), if x < 0.0 then "-" else "";
    var k := TOKEN_LENGTH - |sign|;
    hide Number, Stripped, Parsed, Rounded, Unsigned, Value, Mantissa, Dotted;
    StrippedMeaning(x);
    StrippedStarts(x);
    NumberShape(x);
    SignedMagnitude(x);
    StrippedIsTight(x);
    CutTokenIsMisread(t, sign, k);
    assert Number(x)[..TOKEN_LENGTH] == sign + t[..k];
  }

  /** The controller's 25-character token keeps the printed value exactly when the text fits in it. */
  lemma {:induction false} TokenRoundTrip(x: real)
    ensures Parsed(Bounded(Number(x), TOKEN_LENGTH)) == Some(Rounded(x)) <==> Fits(x)
  {
    NumberRoundTrip(x);
    if !Fits(x) {
      LongTokenIsMisread(x);
    }
  }

  /** Every value below 10^17 fits. */
  lemma {:induction false} ModerateValuesFit(x: real)
    requires -99999999999999999.0 <= x <= 99999999999999999.0
    ensures Fits(x)
  {
    var m := Abs(Micro(x));
    assert m <= 99999999999999999000000;
    assert IntPow10(17) == 100000000000000000 by {
      assert IntPow10(5) == 100000 && IntPow10(9) == 1000000000 && IntPow10(13) == 10000000000000;
    }
    DecimalLength(m / 1000000, 17);
    NumberShape(x);
    assert |Stripped(x)| <= |Magnitude(x)| <= 24;
  }

  // Whole commands.

  function RoundedAll(values: seq<real>): (r: seq<real>)
    ensures |r| == |values| && forall i :: 0 <= i < |r| ==> r[i] == Rounded(values[i])
  {
    seq(|values|, i requires 0 <= i < |values| => Rounded(values[i]))
  }

  predicate AllFit(values: seq<real>) {
    forall i :: 0 <= i < |values| ==> Fits(values[i])
  }

  lemma {:induction false} JoinSplits(values: seq<real>)
    requires |values| > 0
    ensures var t := Number(values[0]);
            && Join(values) != ""
            && Find(Join(values), ',') == |t| > 0
            && Join(values)[..|t|] == t
            && AfterToken(Join(values)) == Join(values[1..])
  {
    var t, tail := Number(values[0]), Join(values[1..]);
    NumberCharacters(values[0]);
    if |values| == 1 {
      FindNone(t, ',');
    } else {
      FindAfter(t, ',', tail);
      assert t + [','] + tail == Join(values);
    }
  }

  function Expected(values: seq<real>, room: nat): Params {
    if |values| <= room then Values(RoundedAll(values)) else TooMany
  }

  lemma {:induction false} ExpectedTail(values: seq<real>, room: nat)
    requires |values| > 0 && room > 0
    ensures Expected(values, room) == Prepend([Rounded(values[0])], Expected(values[1..], room - 1))
  {
    RoundedTail(values);
  }

  lemma {:induction false} JoinRoundTrip(values: seq<real>, room: nat)
    requires AllFit(values)
    ensures Tokens(Join(values), room) == Expected(values, room)
  {
    hide Tokens, Join, Expected, Fits;
    if |values| == 0 {
      NoValues(room);
    } else if room == 0 {
      NoRoom(values);
    } else {
      JoinRoundTrip(values[1..], room - 1);
      PrependRoundTrip(values, room);
    }
  }

  lemma {:induction false} NoValues(room: nat)
    ensures Tokens(Join([]), room) == Expected([], room)
  {
    assert RoundedAll([]) == [];
  }

  lemma {:induction false} PrependRoundTrip(values: seq<real>, room: nat)
    requires |values| > 0 && room > 0 && AllFit(values)
    requires Tokens(Join(values[1..]), room - 1) == Expected(values[1..], room - 1)
    ensures Tokens(Join(values), room) == Expected(values, room)
  {
    hide Tokens, Join, Expected, Fits;
    assert Fits(values[0]);
    FirstToken(values, room);
    ExpectedTail(values, room);
  }

  lemma {:induction false} RoundedTail(values: seq<real>)
    requires |values| > 0
    ensures RoundedAll(values) == [Rounded(values[0])] + RoundedAll(values[1..])
  {
  }

  lemma {:induction false} NoRoom(values: seq<real>)
    requires |values| > 0
    ensures Tokens(Join(values), 0) == Expected(values, 0)
  {
    JoinSplits(values);
  }

  lemma {:induction false} FirstToken(values: seq<real>, room: nat)
    requires |values| > 0 && room > 0 && Fits(values[0])
    ensures Tokens(Join(values), room) == Prepend([Rounded(values[0])], Tokens(Join(values[1..]), room - 1))
  {
    JoinSplits(values);
    TokenRoundTrip(values[0]);
  }

  /**
   * The controller reads back the name, the number of values and each value to six decimals; past its
   * 64 slots it reports too many parameters instead.
   */
  lemma {:induction false} CommandRoundTrip(name: string, values: seq<real>)
    requires ':' !in name && |name| <= TOKEN_LENGTH && AllFit(values)
    ensures ActionOf(CommandText(name, values)) == name
    ensures |values| <= PARAM_LENGTH ==> ParamsOf(CommandText(name, values)) == Values(RoundedAll(values))
    ensures |values| > PARAM_LENGTH ==> ParamsOf(CommandText(name, values)) == TooMany
  {
    var text := CommandText(name, values);
    assert text == name + [':'] + Join(values);
    FindAfter(name, ':', Join(values));
    assert text[..|name|] == name && text[|name| + 1..] == Join(values);
    JoinRoundTrip(values, PARAM_LENGTH);
  }

  lemma {:induction false} JoinLength(values: seq<real>)
    requires AllFit(values)
    ensures |Join(values)| <= (TOKEN_LENGTH + 1) * |values|
    ensures |values| > 0 ==> |Join(values)| < (TOKEN_LENGTH + 1) * |values|
  {
    if |values| > 1 {
      JoinLength(values[1..]);
    }
  }
}
