/** The controller's text parsing: ROS2_MOVEMENTS_1 `str_2_real`, `get_command`, `get_parameter`. */
module PdlText {
  import opened Wrappers
  import opened Strings
  import opened DecimalText

  const TOKEN_LENGTH: nat := 25
  const PARAM_LENGTH: nat := 64

  /** The variables of str_2_real's loop; Rejected stands for its early exits. */
  datatype Scan = Scanning(num: real, div: real, dot: bool, digit: bool) | Rejected

  function ScanStep(st: Scan, c: char): Scan {
    if st.Rejected? || st.div <= 0.0 then Rejected
    else if c == '.' then (if st.dot then Rejected else st.(dot := true))
    else if !IsDigit(c) then Rejected
    else
      var d := (c as int - '0' as int) as real;
      if st.dot then Scanning(st.num + d / (st.div * 10.0), st.div * 10.0, true, true)
      else Scanning(st.num * 10.0 + d, st.div, false, true)
  }

  function ScanOf(s: string): Scan {
    if s == "" then Scanning(0.0, 1.0, false, false) else ScanStep(ScanOf(s[..|s| - 1]), s[|s| - 1])
  }

  /** The value str_2_real returns when it sets parse_ok, else None. */
  function Parsed(s: string): Option<real> {
    if s == "" then None
    else
      var negative := s[0] == '-';
      var st := ScanOf(if negative then s[1..] else s);
      if st.Rejected? || !st.digit then None else Some(if negative then -st.num else st.num)
  }

  /** str_2_real. */
  method Str2Real(str: string) returns (value: real, parseOk: bool)
    ensures parseOk == Parsed(str).Some?
    ensures parseOk ==> value == Parsed(str).value
    ensures !parseOk ==> value == 0.0
  {
    var num, div, negative, dot, digit := 0.0, 1.0, false, false, false;
    if |str| == 0 {
      return 0.0, false;
    }
    var first := 0;
    if str[0] == '-' {
      negative, first := true, 1;
      if |str| == 1 {
        return 0.0, false;
      }
    }
    ghost var body := str[first..];
    var i := first;
    while i < |str|
      invariant first <= i <= |str| && div > 0.0
      invariant ScanOf(body[..i - first]) == Scanning(num, div, dot, digit)
    {
      var cur := str[i];
      assert body[..i + 1 - first][..i - first] == body[..i - first];
      assert ScanOf(body[..i + 1 - first]) == ScanStep(ScanOf(body[..i - first]), cur);
      if cur == '.' {
        if dot {
          RejectedStays(body, i + 1 - first);
          return 0.0, false;
        }
        dot := true;
      } else {
        if cur < '0' || cur > '9' {
          RejectedStays(body, i + 1 - first);
          return 0.0, false;
        }
        digit := true;
        var d := (cur as int - '0' as int) as real;
        if !dot {
          num := num * 10.0 + d;
        } else {
          div := div * 10.0;
          num := num + d / div;
        }
      }
      i := i + 1;
    }
    assert body[..i - first] == body;
    assert str[0..] == str;
    if !digit {
      return 0.0, false;
    }
    return if negative then -num else num, true;
  }

  lemma {:induction false} RejectedStays(s: string, k: nat)
    requires k <= |s| && ScanOf(s[..k]).Rejected?
    ensures ScanOf(s).Rejected?
    decreases |s| - k
  {
    if k == |s| {
      assert s[..k] == s;
    } else {
      assert s[..k + 1][..k] == s[..k];
      RejectedStays(s, k + 1);
    }
  }

  // What the scanner accepts, stated without the scanner.

  function Pow10(n: nat): (p: real)
    ensures p >= 1.0
  {
    if n == 0 then 1.0 else 10.0 * Pow10(n - 1)
  }

  predicate Dotted(s: string) {
    exists i :: 0 <= i < |s| && s[i] == '.'
  }

  predicate HasDigit(s: string) {
    exists i :: 0 <= i < |s| && IsDigit(s[i])
  }

  /** Digits with at most one dot among them. */
  predicate Unsigned(s: string) {
    && (forall i :: 0 <= i < |s| ==> IsDigit(s[i]) || s[i] == '.')
    && (forall i, j :: 0 <= i < j < |s| ==> s[i] != '.' || s[j] != '.')
  }

  /** The digits read as one integer, the dot skipped. */
  function Mantissa(s: string): nat {
    if s == "" then 0
    else
      var m := Mantissa(s[..|s| - 1]);
      if IsDigit(s[|s| - 1]) then 10 * m + (s[|s| - 1] as int - '0' as int) else m
  }

  /** How many digits follow the dot. */
  function Decimals(s: string): nat {
    if s == "" then 0
    else
      var k := Decimals(s[..|s| - 1]);
      if IsDigit(s[|s| - 1]) && Dotted(s[..|s| - 1]) then k + 1 else k
  }

  function Value(s: string): real {
    Mantissa(s) as real / Pow10(Decimals(s))
  }

  lemma {:induction false} AppendChar(p: string, c: char)
    ensures Mantissa(p + [c]) == (if IsDigit(c) then 10 * Mantissa(p) + (c as int - '0' as int) else Mantissa(p))
    ensures Decimals(p + [c]) == (if IsDigit(c) && Dotted(p) then Decimals(p) + 1 else Decimals(p))
    ensures Dotted(p + [c]) <==> Dotted(p) || c == '.'
  {
    var s := p + [c];
    assert s[..|s| - 1] == p;
    assert forall i :: 0 <= i < |p| ==> s[i] == p[i];
    assert s[|p|] == c;
    if Dotted(p) {
      var i :| 0 <= i < |p| && p[i] == '.';
      assert s[i] == '.';
    }
  }

  lemma {:induction false} NoDecimals(s: string)
    requires !Dotted(s)
    ensures Decimals(s) == 0
  {
    if s != "" {
      assert forall i :: 0 <= i < |s| - 1 ==> s[..|s| - 1][i] == s[i];
      NoDecimals(s[..|s| - 1]);
    }
  }

  lemma {:induction false} AppendDecimal(m: real, p: real, d: real)
    requires p >= 1.0
    ensures m / p + d / (p * 10.0) == (10.0 * m + d) / (10.0 * p)
  {
    var q := p * 10.0;
    assert m / p == (10.0 * m) / q by {
      assert (m / p) * q == 10.0 * ((m / p) * p);
      assert (m / p) * p == m;
    }
    assert (10.0 * m) / q + d / q == (10.0 * m + d) / q;
  }

  /** How one more character changes what a text is, and what the scanner makes of it. */
  lemma {:induction false} AppendUnsigned(p: string, c: char)
    ensures Unsigned(p + [c]) <==> Unsigned(p) && (IsDigit(c) || (c == '.' && !Dotted(p)))
    ensures HasDigit(p + [c]) <==> HasDigit(p) || IsDigit(c)
  {
    var s := p + [c];
    assert forall i :: 0 <= i < |p| ==> s[i] == p[i];
    assert s[|p|] == c;
  }

  lemma {:induction false} AppendValue(p: string, c: char)
    requires IsDigit(c)
    ensures var d := (c as int - '0' as int) as real;
            Value(p + [c]) ==
            if Dotted(p) then Value(p) + d / (Pow10(Decimals(p)) * 10.0) else Value(p) * 10.0 + d
    ensures Pow10(Decimals(p + [c])) == (if Dotted(p) then Pow10(Decimals(p)) * 10.0 else Pow10(Decimals(p)))
  {
    var d := (c as int - '0' as int) as real;
    AppendChar(p, c);
    if Dotted(p) {
      AppendDecimal(Mantissa(p) as real, Pow10(Decimals(p)), d);
    } else {
      NoDecimals(p);
      NoDecimals(p + [c]);
    }
  }

  /** The loop accepts exactly the unsigned decimal numbers and computes their value. */
  lemma {:induction false} ScanMeaning(s: string)
    ensures ScanOf(s).Rejected? <==> !Unsigned(s)
    ensures Unsigned(s) ==> ScanOf(s) == Scanning(Value(s), Pow10(Decimals(s)), Dotted(s), HasDigit(s))
  {
    if s != "" {
      var p, c := s[..|s| - 1], s[|s| - 1];
      assert s == p + [c];
      ScanMeaning(p);
      assert ScanOf(s) == ScanStep(ScanOf(p), c);
      AppendMeaning(p, c);
    }
  }

  lemma {:induction false} AppendMeaning(p: string, c: char)
    requires ScanOf(p).Rejected? <==> !Unsigned(p)
    requires Unsigned(p) ==> ScanOf(p) == Scanning(Value(p), Pow10(Decimals(p)), Dotted(p), HasDigit(p))
    ensures ScanStep(ScanOf(p), c).Rejected? <==> !Unsigned(p + [c])
    ensures Unsigned(p + [c]) ==>
              ScanStep(ScanOf(p), c) ==
              Scanning(Value(p + [c]), Pow10(Decimals(p + [c])), Dotted(p + [c]), HasDigit(p + [c]))
  {
    AppendUnsigned(p, c);
    AppendChar(p, c);
    hide Unsigned, HasDigit, Dotted, ScanOf;
    if IsDigit(c) {
      AppendValue(p, c);
      hide Value;
    }
  }

  // Commands.

  /** get_command: the text before the colon, or all of it, kept in a STRING[25]. */
  function ActionOf(command: string): string {
    Bounded(command[..Find(command, ':')], TOKEN_LENGTH)
  }

  /** A successful parse, an unreadable or empty token (-1), or text left after the last slot (-2). */
  datatype Params = Values(v: seq<real>) | BadToken | TooMany

  /** What follows the first comma; get_parameter deletes the token and that comma. */
  function AfterToken(rest: string): string {
    var delim := Find(rest, ',');
    if delim < |rest| then rest[delim + 1..] else ""
  }

  /** The first token's value; an empty token has none. */
  function TokenValue(rest: string): Option<real> {
    var delim := Find(rest, ',');
    if delim == 0 then None else Parsed(Bounded(rest[..delim], TOKEN_LENGTH))
  }

  function Tokens(rest: string, room: nat): (r: Params)
    ensures r.Values? ==> |r.v| <= room
    decreases |rest|
  {
    if rest == "" then Values([])
    else if room == 0 then TooMany
    else
      var value := TokenValue(rest);
      if value.None? then BadToken
      else
        var tail := Tokens(AfterToken(rest), room - 1);
        if tail.Values? then Values([value.value] + tail.v) else tail
  }

  function ParamsOf(command: string): Params {
    var delim := Find(command, ':');
    if delim == |command| then Values([]) else Tokens(command[delim + 1..], PARAM_LENGTH)
  }

  function Prepend(done: seq<real>, t: Params): Params {
    if t.Values? then Values(done + t.v) else t
  }

  lemma {:induction false} NextToken(done: seq<real>, rest: string, room: nat, value: real)
    requires rest != "" && room > 0 && TokenValue(rest) == Some(value)
    ensures Prepend(done, Tokens(rest, room)) == Prepend(done + [value], Tokens(AfterToken(rest), room - 1))
  {
    var t := Tokens(AfterToken(rest), room - 1);
    if t.Values? {
      assert done + ([value] + t.v) == done + [value] + t.v;
    }
  }

  method ReadToken(rest: string) returns (r: Option<real>)
    ensures r == TokenValue(rest)
  {
    var comma := Find(rest, ',');
    if comma == 0 {
      return None;
    }
    var value, ok := Str2Real(Bounded(rest[..comma], TOKEN_LENGTH));
    return if ok then Some(value) else None;
  }

  lemma {:induction false} PrependDone(done: seq<real>, t: Params)
    ensures Prepend([], t) == t
    ensures Prepend(done, Values([])) == Values(done)
  {
    if t.Values? {
      assert [] + t.v == t.v;
    }
    assert done + [] == done;
  }

  lemma {:induction false} NoToken(rest: string, room: nat)
    ensures rest == "" ==> Tokens(rest, room) == Values([])
    ensures rest != "" && room == 0 ==> Tokens(rest, room) == TooMany
    ensures rest != "" && room > 0 && TokenValue(rest).None? ==> Tokens(rest, room) == BadToken
  {
  }

  /** What get_parameter returns for each outcome. */
  predicate Reports(p: Params, code: int, param: seq<real>) {
    match p
    case Values(v) => param == v && code == |v|
    case BadToken => code == -1
    case TooMany => code == -2
  }

  method ReadTokens(text: string) returns (code: int, param: seq<real>)
    ensures Reports(Tokens(text, PARAM_LENGTH), code, param)
  {
    param := [];
    var rest := text;
    ghost var goal, room: nat := Tokens(text, PARAM_LENGTH), PARAM_LENGTH;
    PrependDone([], goal);
    for x := 0 to PARAM_LENGTH
      invariant |param| == x && room == PARAM_LENGTH - x
      invariant goal == Prepend(param, Tokens(rest, room))
    {
      NoToken(rest, room);
      PrependDone(param, goal);
      if rest == "" {
        return x, param;
      }
      var value := ReadToken(rest);
      if value.None? {
        return -1, param;
      }
      NextToken(param, rest, room, value.value);
      rest, param, room := AfterToken(rest), param + [value.value], room - 1;
    }
    NoToken(rest, room);
    PrependDone(param, goal);
    if rest != "" {
      return -2, param;
    }
    return PARAM_LENGTH, param;
  }

  /** get_parameter: the parsed values, or its negative return code. */
  method GetParameter(command: string) returns (code: int, param: seq<real>)
    ensures Reports(ParamsOf(command), code, param)
  {
    hide Tokens;
    var delim := Find(command, ':');
    if delim == |command| {
      return 0, [];
    }
    code, param := ReadTokens(command[delim + 1..]);
  }
}
