/**
 * JSON text: a parser with the grammar of `JSON.parse`, and the string and
 * integer forms `JSON.stringify` prints. A `char` is one Unicode scalar value.
 */
module JsonText {
  import opened Prelude

  datatype Json =
    | Null
    | Bool(b: bool)
    | Int(n: int)
    | Real(lexeme: string)   // a number not written as a plain integer
    | Str(s: string)
    | Arr(items: seq<Json>)
    | Obj(fields: map<string, Json>)

  /** A value and the position after it. */
  datatype Parsed<+T> = Fail | Ok(value: T, next: nat)

  predicate IsWs(c: char) {
    c == ' ' || c == '\t' || c == '\n' || c == '\r'
  }

  function SkipWs(s: string, i: nat): (j: nat)
    requires i <= |s|
    ensures i <= j <= |s|
    ensures j < |s| ==> !IsWs(s[j])
    ensures forall k :: i <= k < j ==> IsWs(s[k])
    decreases |s| - i
  {
    if i < |s| && IsWs(s[i]) then SkipWs(s, i + 1) else i
  }

  // ----- strings -----

  function HexDigit(n: nat): char
    requires n < 16
  {
    if n < 10 then ('0' as int + n) as char else ('a' as int + (n - 10)) as char
  }

  function HexValue(c: char): Option<nat> {
    if '0' <= c <= '9' then Some(c as int - '0' as int)
    else if 'a' <= c <= 'f' then Some(c as int - 'a' as int + 10)
    else if 'A' <= c <= 'F' then Some(c as int - 'A' as int + 10)
    else None
  }

  function Hex4(s: string, i: nat): Option<nat> {
    if i + 4 > |s| then None
    else
      match (HexValue(s[i]), HexValue(s[i + 1]), HexValue(s[i + 2]), HexValue(s[i + 3]))
      case (Some(a), Some(b), Some(c), Some(d)) => Some(((a * 16 + b) * 16 + c) * 16 + d)
      case _ => None
  }

  /** What follows the backslash in the escape of `c`, or nothing when `c` stands for itself. */
  function EscapeTail(c: char): string {
    if c == '"' then ['"']
    else if c == '\\' then ['\\']
    else if c as int >= 32 then []
    else if c as int == 8 then ['b']
    else if c as int == 9 then ['t']
    else if c as int == 10 then ['n']
    else if c as int == 12 then ['f']
    else if c as int == 13 then ['r']
    else ['u', '0', '0', HexDigit(c as int / 16), HexDigit(c as int % 16)]
  }

  function EscapeChar(c: char): string {
    if EscapeTail(c) == [] then [c] else ['\\'] + EscapeTail(c)
  }

  function Escape(s: string): string {
    if s == "" then "" else EscapeChar(s[0]) + Escape(s[1..])
  }

  function Quote(s: string): string {
    ['"'] + (Escape(s) + ['"'])
  }

  /** The character an escape stands for; `i` is just after the backslash. */
  function Unescape(s: string, i: nat): (p: Parsed<char>)
    requires i <= |s|
    ensures p.Ok? ==> i < p.next <= |s|
  {
    if i == |s| then Fail
    else if s[i] == '"' || s[i] == '\\' || s[i] == '/' then Ok(s[i], i + 1)
    else if s[i] == 'b' then Ok(8 as char, i + 1)
    else if s[i] == 't' then Ok(9 as char, i + 1)
    else if s[i] == 'n' then Ok(10 as char, i + 1)
    else if s[i] == 'f' then Ok(12 as char, i + 1)
    else if s[i] == 'r' then Ok(13 as char, i + 1)
    else if s[i] == 'u' then UnescapeUnit(s, i + 1)
    else Fail
  }

  /** `XXXX`: one code unit, or the first half of a surrogate pair. */
  function UnescapeUnit(s: string, i: nat): (p: Parsed<char>)
    requires i <= |s|
    ensures p.Ok? ==> i < p.next <= |s|
  {
    match Hex4(s, i)
    case None => Fail
    case Some(unit) =>
      if unit < 0xD800 || 0xE000 <= unit < 0x10000 then Ok(unit as char, i + 4)
      else if unit < 0xDC00 && i + 6 <= |s| && s[i + 4] == '\\' && s[i + 5] == 'u' then
        match Hex4(s, i + 6)
        case None => Fail
        case Some(low) =>
          if 0xDC00 <= low < 0xE000 then Ok((0x10000 + (unit - 0xD800) * 0x400 + (low - 0xDC00)) as char, i + 10) else Fail
      else Fail
  }

  /** A string's characters; `i` is just after the opening quote. */
  function ParseString(s: string, i: nat): (p: Parsed<string>)
    requires i <= |s|
    ensures p.Ok? ==> i < p.next <= |s|
    decreases |s| - i
  {
    if i == |s| || s[i] as int < 32 then Fail
    else if s[i] == '"' then Ok("", i + 1)
    else
      var first := if s[i] == '\\' then Unescape(s, i + 1) else Ok(s[i], i + 1);
      if first.Fail? then Fail
      else
        var more := ParseString(s, first.next);
        if more.Fail? then Fail else Ok([first.value] + more.value, more.next)
  }

  lemma {:induction false} UnescapeEscaped(s: string, i: nat, c: char)
    requires EscapeTail(c) != [] && OccursAt(s, EscapeTail(c), i)
    ensures Unescape(s, i) == Ok(c, i + |EscapeTail(c)|)
  {
    var e := EscapeTail(c);
    OccursChar(s, e, i, 0);
    if e[0] == 'u' {
      OccursChar(s, e, i, 1);
      OccursChar(s, e, i, 2);
      OccursChar(s, e, i, 3);
      OccursChar(s, e, i, 4);
      assert Hex4(s, i + 1) == Some(c as int);
    }
  }

  /** One character of a quoted string that stands for itself. */
  lemma {:induction false} PlainCharStep(s: string, i: nat, c: char)
    requires EscapeTail(c) == [] && OccursAt(s, [c], i)
    ensures var more := ParseString(s, i + 1);
            ParseString(s, i) == if more.Fail? then Fail else Ok([c] + more.value, more.next)
  {
    OccursChar(s, [c], i, 0);
    assert c as int >= 32 && c != '"' && c != '\\';
  }

  /** One escaped character of a quoted string. */
  lemma {:induction false} EscapedCharStep(s: string, i: nat, c: char)
    requires EscapeTail(c) != [] && i < |s| && s[i] == '\\' && OccursAt(s, EscapeTail(c), i + 1)
    ensures var more := ParseString(s, i + 1 + |EscapeTail(c)|);
            ParseString(s, i) == if more.Fail? then Fail else Ok([c] + more.value, more.next)
  {
    UnescapeEscaped(s, i + 1, c);
    UnescapedStep(s, i, c, i + 1 + |EscapeTail(c)|);
  }

  lemma {:induction false} UnescapedStep(s: string, i: nat, c: char, next: nat)
    requires i < |s| && s[i] == '\\' && Unescape(s, i + 1) == Ok(c, next)
    ensures next <= |s|
    ensures var more := ParseString(s, next);
            ParseString(s, i) == if more.Fail? then Fail else Ok([c] + more.value, more.next)
  {
  }

  /** One character of a quoted string, escaped or not. */
  lemma {:induction false} ParseStringStep(s: string, i: nat, c: char)
    requires OccursAt(s, EscapeChar(c), i)
    ensures var more := ParseString(s, i + |EscapeChar(c)|);
            ParseString(s, i) == if more.Fail? then Fail else Ok([c] + more.value, more.next)
  {
    if EscapeTail(c) == [] {
      PlainCharStep(s, i, c);
    } else {
      OccursSplit(s, ['\\'], EscapeTail(c), i);
      OccursChar(s, ['\\'], i, 0);
      EscapedCharStep(s, i, c);
    }
  }

  lemma {:induction false} QuotedHead(s: string, i: nat, v: string)
    requires v != "" && OccursAt(s, Escape(v) + ['"'], i)
    ensures OccursAt(s, EscapeChar(v[0]), i) && OccursAt(s, Escape(v[1..]) + ['"'], i + |EscapeChar(v[0])|)
    ensures |Escape(v)| == |EscapeChar(v[0])| + |Escape(v[1..])|
  {
    var e, tail := EscapeChar(v[0]), Escape(v[1..]) + ['"'];
    assert Escape(v) + ['"'] == e + tail;
    OccursSplit(s, e, tail, i);
  }

  lemma {:induction false} ParseStringEnd(s: string, i: nat)
    requires OccursAt(s, Escape("") + ['"'], i)
    ensures ParseString(s, i) == Ok("", i + 1)
  {
    assert Escape("") + ['"'] == ['"'];
    OccursChar(s, ['"'], i, 0);
  }

  lemma {:induction false} ParseStringGoesOn(s: string, i: nat, v: string, end: nat)
    requires v != "" && OccursAt(s, EscapeChar(v[0]), i) && ParseString(s, i + |EscapeChar(v[0])|) == Ok(v[1..], end)
    ensures ParseString(s, i) == Ok(v, end)
  {
    ParseStringStep(s, i, v[0]);
    assert [v[0]] + v[1..] == v;
  }

  lemma {:induction false} ParseStringQuoted(s: string, i: nat, v: string)
    requires OccursAt(s, Escape(v) + ['"'], i)
    ensures ParseString(s, i) == Ok(v, i + |Escape(v)| + 1)
    decreases |v|
  {
    if v == "" {
      ParseStringEnd(s, i);
    } else {
      QuotedHead(s, i, v);
      var k := i + |EscapeChar(v[0])|;
      ParseStringQuoted(s, k, v[1..]);
      ParseStringGoesOn(s, i, v, k + |Escape(v[1..])| + 1);
    }
  }

  lemma {:induction false} ParseStringExtends(s: string, t: string, i: nat)
    requires s <= t && i <= |s| && ParseString(s, i).Ok?
    ensures ParseString(t, i) == ParseString(s, i)
    decreases |s| - i
  {
    if s[i] != '"' {
      if s[i] == '\\' {
        assert Unescape(t, i + 1) == Unescape(s, i + 1);
        ParseStringExtends(s, t, Unescape(s, i + 1).next);
      } else {
        ParseStringExtends(s, t, i + 1);
      }
    }
  }

  // ----- numbers -----

  predicate IsDigit(c: char) {
    '0' <= c <= '9'
  }

  predicate AllDigits(s: string) {
    forall i :: 0 <= i < |s| ==> IsDigit(s[i])
  }

  predicate IsNumberChar(c: char) {
    IsDigit(c) || c == '-' || c == '+' || c == '.' || c == 'e' || c == 'E'
  }

  /** Where the run of number characters at `i` ends. */
  function NumberEnd(s: string, i: nat): (j: nat)
    requires i <= |s|
    ensures i <= j <= |s|
    ensures forall k :: i <= k < j ==> IsNumberChar(s[k])
    ensures j < |s| ==> !IsNumberChar(s[j])
    decreases |s| - i
  {
    if i < |s| && IsNumberChar(s[i]) then NumberEnd(s, i + 1) else i
  }

  function DigitsEnd(s: string, i: nat): (j: nat)
    requires i <= |s|
    ensures i <= j <= |s|
    ensures forall k :: i <= k < j ==> IsDigit(s[k])
    ensures j < |s| ==> !IsDigit(s[j])
    decreases |s| - i
  {
    if i < |s| && IsDigit(s[i]) then DigitsEnd(s, i + 1) else i
  }

  function DecimalValue(s: string): nat
    requires AllDigits(s)
  {
    if s == "" then 0 else DecimalValue(s[..|s| - 1]) * 10 + (s[|s| - 1] as int - '0' as int)
  }

  lemma {:induction false} DecimalRoundTrip(n: nat)
    ensures DecimalValue(Decimal(n)) == n
    ensures Decimal(n)[0] == '0' ==> |Decimal(n)| == 1
    ensures n > 0 ==> Decimal(n)[0] != '0'
  {
    if n >= 10 {
      DecimalRoundTrip(n / 10);
      assert Decimal(n)[..|Decimal(n)| - 1] == Decimal(n / 10);
    }
  }

  function IntText(n: int): string {
    if n < 0 then ['-'] + Decimal(-n) else Decimal(n)
  }

  /** Digits without a superfluous leading zero. */
  predicate PlainDigits(s: string) {
    s != "" && AllDigits(s) && (s[0] == '0' ==> |s| == 1)
  }

  predicate IsExponent(s: string) {
    s == "" || ((s[0] == 'e' || s[0] == 'E') &&
      var k := if |s| > 1 && (s[1] == '+' || s[1] == '-') then 2 else 1;
      k < |s| && DigitsEnd(s, k) == |s|)
  }

  predicate IsFraction(s: string) {
    IsExponent(s) || (s[0] == '.' && DigitsEnd(s, 1) > 1 && IsExponent(s[DigitsEnd(s, 1)..]))
  }

  /** The number that digits and what follows them are, if they are one. */
  function NumberBody(body: string, negative: bool, token: string): Option<Json> {
    var end := DigitsEnd(body, 0);
    var whole := body[..end];
    if !PlainDigits(whole) then None
    else if end == |body| then
      var n: int := DecimalValue(whole);
      Some(Int(if negative then -n else n))
    else if IsFraction(body[end..]) then Some(Real(token))
    else None
  }

  /** The number a token of number characters is, if it is one. */
  function NumberOf(token: string): Option<Json> {
    if token != "" && token[0] == '-' then NumberBody(token[1..], true, token) else NumberBody(token, false, token)
  }

  function ParseNumber(s: string, i: nat): (p: Parsed<Json>)
    requires i <= |s|
    ensures p.Ok? ==> i < p.next <= |s| && IsNumber(p.value)
  {
    var j := NumberEnd(s, i);
    match NumberOf(s[i..j])
    case None => Fail
    case Some(v) => Ok(v, j)
  }

  predicate IsNumber(v: Json) {
    v.Int? || v.Real?
  }

  lemma {:induction false} NumberOfDigits(n: nat, negative: bool, token: string)
    ensures var m: int := n; NumberBody(Decimal(n), negative, token) == Some(Int(if negative then -m else m))
    ensures Decimal(n)[0] != '-'
  {
    var digits := Decimal(n);
    DecimalRoundTrip(n);
    assert digits[..|digits|] == digits;
    assert DigitsEnd(digits, 0) == |digits|;
  }

  lemma {:induction false} NumberOfInt(n: int)
    ensures NumberOf(IntText(n)) == Some(Int(n))
  {
    var text := IntText(n);
    if n < 0 {
      NumberOfDigits(-n, true, text);
      assert text[1..] == Decimal(-n);
    } else {
      NumberOfDigits(n, false, text);
    }
  }

  lemma {:induction false} ParseIntText(s: string, i: nat, n: int)
    requires OccursAt(s, IntText(n), i)
    requires i + |IntText(n)| < |s| ==> !IsNumberChar(s[i + |IntText(n)|])
    ensures ParseNumber(s, i) == Ok(Int(n), i + |IntText(n)|)
  {
    var text := IntText(n);
    NumberOfInt(n);
    forall k | i <= k < i + |text| ensures IsNumberChar(s[k]) {
      OccursChar(s, text, i, k - i);
      assert n >= 0 ==> IsDigit(text[k - i]);
    }
    assert NumberEnd(s, i) == i + |text|;
    forall k | 0 <= k < |text| ensures s[i..i + |text|][k] == text[k] { OccursChar(s, text, i, k); }
    assert s[i..i + |text|] == text;
  }

  lemma {:induction false} ParseNumberExtends(s: string, t: string, i: nat)
    requires s <= t && i <= |s| && ParseNumber(s, i).Ok? && ParseNumber(s, i).next < |s|
    ensures ParseNumber(t, i) == ParseNumber(s, i)
  {
    var j := NumberEnd(s, i);
    assert t[j] == s[j];
    assert forall k :: i <= k < j ==> IsNumberChar(t[k]);
    assert NumberEnd(t, i) == j;
    assert s[i..j] == t[i..j];
  }

  // ----- values -----

  function ParseWord(s: string, i: nat, word: string, v: Json): (p: Parsed<Json>)
    requires i <= |s| && word != ""
    ensures p.Ok? ==> i < p.next <= |s| && p.value == v
  {
    if OccursAt(s, word, i) then Ok(v, i + |word|) else Fail
  }

  function ParseValue(s: string, i: nat): (p: Parsed<Json>)
    requires i <= |s|
    ensures p.Ok? ==> i < p.next <= |s|
    decreases |s| - i, 2
  {
    if i == |s| then Fail
    else if s[i] == '{' then ParseObject(s, i + 1)
    else if s[i] == '[' then ParseArray(s, i + 1)
    else if s[i] == '"' then
      match ParseString(s, i + 1)
      case Fail => Fail
      case Ok(text, next) => Ok(Str(text), next)
    else if s[i] == 't' then ParseWord(s, i, "true", Bool(true))
    else if s[i] == 'f' then ParseWord(s, i, "false", Bool(false))
    else if s[i] == 'n' then ParseWord(s, i, "null", Null)
    else ParseNumber(s, i)
  }

  /** An array after its opening bracket. */
  function ParseArray(s: string, i: nat): (p: Parsed<Json>)
    requires i <= |s|
    ensures p.Ok? ==> i < p.next <= |s| && p.value.Arr?
    decreases |s| - i, 4
  {
    var j := SkipWs(s, i);
    if j < |s| && s[j] == ']' then Ok(Arr([]), j + 1)
    else
      match ParseItems(s, j)
      case Fail => Fail
      case Ok(items, next) => Ok(Arr(items), next)
  }

  /** One or more items up to the closing bracket. */
  function ParseItems(s: string, i: nat): (p: Parsed<seq<Json>>)
    requires i <= |s|
    ensures p.Ok? ==> i < p.next <= |s|
    decreases |s| - i, 3
  {
    match ParseValue(s, i)
    case Fail => Fail
    case Ok(v, next) => ItemsAfter(s, next, v)
  }

  /** The items from the one just read. */
  function ItemsAfter(s: string, i: nat, v: Json): (p: Parsed<seq<Json>>)
    requires i <= |s|
    ensures p.Ok? ==> i < p.next <= |s|
    decreases |s| - i, 5
  {
    var j := SkipWs(s, i);
    if j == |s| then Fail
    else if s[j] == ']' then Ok([v], j + 1)
    else if s[j] != ',' then Fail
    else
      match ParseItems(s, SkipWs(s, j + 1))
      case Fail => Fail
      case Ok(more, end) => Ok([v] + more, end)
  }

  /** An object after its opening brace. */
  function ParseObject(s: string, i: nat): (p: Parsed<Json>)
    requires i <= |s|
    ensures p.Ok? ==> i < p.next <= |s| && p.value.Obj? && s[p.next - 1] == '}'
    decreases |s| - i, 4
  {
    var j := SkipWs(s, i);
    if j < |s| && s[j] == '}' then Ok(Obj(map[]), j + 1)
    else
      match ParseMembers(s, j, map[])
      case Fail => Fail
      case Ok(fields, next) => Ok(Obj(fields), next)
  }

  /** One member: its key and value. */
  function ParseMember(s: string, i: nat): (p: Parsed<(string, Json)>)
    requires i <= |s|
    ensures p.Ok? ==> i < p.next <= |s|
    decreases |s| - i, 0
  {
    if i == |s| || s[i] != '"' then Fail
    else
      match ParseString(s, i + 1)
      case Fail => Fail
      case Ok(key, next) =>
        var j := SkipWs(s, next);
        if j == |s| || s[j] != ':' then Fail
        else
          match ParseValue(s, SkipWs(s, j + 1))
          case Fail => Fail
          case Ok(v, end) => Ok((key, v), end)
  }

  /** One or more members up to the closing brace, added to `acc`; a repeated key keeps its last value. */
  function ParseMembers(s: string, i: nat, acc: map<string, Json>): (p: Parsed<map<string, Json>>)
    requires i <= |s|
    ensures p.Ok? ==> i < p.next <= |s| && s[p.next - 1] == '}'
    decreases |s| - i, 1
  {
    match ParseMember(s, i)
    case Fail => Fail
    case Ok((key, v), next) => MembersAfter(s, next, acc[key := v])
  }

  /** The members after those just read. */
  function MembersAfter(s: string, i: nat, acc: map<string, Json>): (p: Parsed<map<string, Json>>)
    requires i <= |s|
    ensures p.Ok? ==> i < p.next <= |s| && s[p.next - 1] == '}'
    decreases |s| - i, 5
  {
    var j := SkipWs(s, i);
    if j == |s| then Fail
    else if s[j] == '}' then Ok(acc, j + 1)
    else if s[j] != ',' then Fail
    else ParseMembers(s, SkipWs(s, j + 1), acc)
  }

  /** `JSON.parse` */
  function ParseDocument(s: string): Option<Json> {
    match ParseValue(s, SkipWs(s, 0))
    case Fail => None
    case Ok(v, next) => if SkipWs(s, next) == |s| then Some(v) else None
  }

  // ----- more text after a parsed value changes nothing -----

  lemma {:induction false} SkipWsExtends(s: string, t: string, i: nat)
    requires s <= t && i <= |s| && SkipWs(s, i) < |s|
    ensures SkipWs(t, i) == SkipWs(s, i)
  {
    assert t[SkipWs(s, i)] == s[SkipWs(s, i)];
    assert forall k :: i <= k < SkipWs(s, i) ==> IsWs(t[k]);
  }

  lemma {:induction false} ParseValueExtends(s: string, t: string, i: nat)
    requires s <= t && i <= |s| && ParseValue(s, i).Ok?
    requires ParseValue(s, i).next < |s| || !IsNumber(ParseValue(s, i).value)
    ensures ParseValue(t, i) == ParseValue(s, i)
    decreases |s| - i, 2
  {
    if s[i] == '{' {
      ParseObjectExtends(s, t, i + 1);
    } else if s[i] == '[' {
      ParseArrayExtends(s, t, i + 1);
    } else if s[i] == '"' {
      ParseStringExtends(s, t, i + 1);
    } else if s[i] == 't' {
    } else if s[i] == 'f' {
    } else if s[i] == 'n' {
    } else {
      ParseNumberExtends(s, t, i);
    }
  }

  lemma {:induction false} ParseArrayExtends(s: string, t: string, i: nat)
    requires s <= t && i <= |s| && ParseArray(s, i).Ok?
    ensures ParseArray(t, i) == ParseArray(s, i)
    decreases |s| - i, 4
  {
    SkipWsExtends(s, t, i);
    if s[SkipWs(s, i)] != ']' { ParseItemsExtends(s, t, SkipWs(s, i)); }
  }

  lemma {:induction false} ParseItemsExtends(s: string, t: string, i: nat)
    requires s <= t && i <= |s| && ParseItems(s, i).Ok?
    ensures ParseItems(t, i) == ParseItems(s, i)
    decreases |s| - i, 3
  {
    ParseValueExtends(s, t, i);
    ItemsAfterExtends(s, t, ParseValue(s, i).next, ParseValue(s, i).value);
  }

  lemma {:induction false} ItemsAfterComma(s: string, i: nat, v: Json)
    requires i <= |s| && SkipWs(s, i) < |s| && s[SkipWs(s, i)] == ','
    ensures var more := ParseItems(s, SkipWs(s, SkipWs(s, i) + 1));
            ItemsAfter(s, i, v) == if more.Fail? then Fail else Ok([v] + more.value, more.next)
  {
  }

  lemma {:induction false} ItemsAfterEnd(s: string, i: nat, v: Json)
    requires i <= |s| && ItemsAfter(s, i, v).Ok?
    ensures SkipWs(s, i) < |s| && (s[SkipWs(s, i)] == ',' || s[SkipWs(s, i)] == ']')
    ensures s[SkipWs(s, i)] == ']' ==> ItemsAfter(s, i, v) == Ok([v], SkipWs(s, i) + 1)
  {
  }

  lemma {:induction false} ItemsClosed(s: string, i: nat, v: Json)
    requires i <= |s| && SkipWs(s, i) < |s| && s[SkipWs(s, i)] == ']'
    ensures ItemsAfter(s, i, v) == Ok([v], SkipWs(s, i) + 1)
  {
  }

  lemma {:induction false} ItemsAfterExtends(s: string, t: string, i: nat, v: Json)
    requires s <= t && i <= |s| && ItemsAfter(s, i, v).Ok?
    ensures ItemsAfter(t, i, v) == ItemsAfter(s, i, v)
    decreases |s| - i, 5
  {
    ItemsAfterEnd(s, i, v);
    SkipWsExtends(s, t, i);
    var j := SkipWs(s, i);
    if s[j] == ',' {
      ItemsAfterComma(s, i, v);
      ItemsAfterComma(t, i, v);
      SkipWsExtends(s, t, j + 1);
      ParseItemsExtends(s, t, SkipWs(s, j + 1));
    } else {
      ItemsClosed(t, i, v);
    }
  }

  lemma {:induction false} ParseObjectExtends(s: string, t: string, i: nat)
    requires s <= t && i <= |s| && ParseObject(s, i).Ok?
    ensures ParseObject(t, i) == ParseObject(s, i)
    decreases |s| - i, 4
  {
    SkipWsExtends(s, t, i);
    if s[SkipWs(s, i)] != '}' { ParseMembersExtends(s, t, SkipWs(s, i), map[]); }
  }

  /** What a member is made of. */
  lemma {:induction false} MemberParts(s: string, i: nat)
    requires i <= |s| && ParseMember(s, i).Ok?
    ensures i < |s| && s[i] == '"' && ParseString(s, i + 1).Ok?
    ensures var next := ParseString(s, i + 1).next;
            && SkipWs(s, next) < |s| && s[SkipWs(s, next)] == ':'
            && ParseMember(s, i) == MemberFrom(ParseString(s, i + 1).value, ParseValue(s, SkipWs(s, SkipWs(s, next) + 1)))
  {
  }

  function MemberFrom(key: string, p: Parsed<Json>): Parsed<(string, Json)> {
    if p.Fail? then Fail else Ok((key, p.value), p.next)
  }

  lemma {:induction false} MemberOf(s: string, i: nat, key: string, next: nat)
    requires i < |s| && s[i] == '"' && ParseString(s, i + 1) == Ok(key, next) && SkipWs(s, next) < |s| && s[SkipWs(s, next)] == ':'
    ensures ParseMember(s, i) == MemberFrom(key, ParseValue(s, SkipWs(s, SkipWs(s, next) + 1)))
  {
  }

  lemma {:induction false} ParseMemberExtends(s: string, t: string, i: nat)
    requires s <= t && i <= |s| && ParseMember(s, i).Ok? && ParseMember(s, i).next < |s|
    ensures ParseMember(t, i) == ParseMember(s, i)
    decreases |s| - i, 0
  {
    MemberParts(s, i);
    ParseStringExtends(s, t, i + 1);
    var next := ParseString(s, i + 1).next;
    SkipWsExtends(s, t, next);
    var j := SkipWs(s, next);
    SkipWsExtends(s, t, j + 1);
    ParseValueExtends(s, t, SkipWs(s, j + 1));
    MemberOf(t, i, ParseString(s, i + 1).value, next);
  }

  lemma {:induction false} ParseMembersExtends(s: string, t: string, i: nat, acc: map<string, Json>)
    requires s <= t && i <= |s| && ParseMembers(s, i, acc).Ok?
    ensures ParseMembers(t, i, acc) == ParseMembers(s, i, acc)
    decreases |s| - i, 1
  {
    var member := ParseMember(s, i);
    ParseMemberExtends(s, t, i);
    MembersAfterExtends(s, t, member.next, acc[member.value.0 := member.value.1]);
  }

  lemma {:induction false} MembersAfterComma(s: string, i: nat, acc: map<string, Json>)
    requires i <= |s| && SkipWs(s, i) < |s| && s[SkipWs(s, i)] == ','
    ensures MembersAfter(s, i, acc) == ParseMembers(s, SkipWs(s, SkipWs(s, i) + 1), acc)
  {
  }

  lemma {:induction false} MembersAfterEnd(s: string, i: nat, acc: map<string, Json>)
    requires i <= |s| && MembersAfter(s, i, acc).Ok?
    ensures SkipWs(s, i) < |s| && (s[SkipWs(s, i)] == ',' || s[SkipWs(s, i)] == '}')
  {
  }

  lemma {:induction false} MembersClosed(s: string, i: nat, acc: map<string, Json>)
    requires i <= |s| && SkipWs(s, i) < |s| && s[SkipWs(s, i)] == '}'
    ensures MembersAfter(s, i, acc) == Ok(acc, SkipWs(s, i) + 1)
  {
  }

  lemma {:induction false} MembersAfterExtends(s: string, t: string, i: nat, acc: map<string, Json>)
    requires s <= t && i <= |s| && MembersAfter(s, i, acc).Ok?
    ensures MembersAfter(t, i, acc) == MembersAfter(s, i, acc)
    decreases |s| - i, 5
  {
    MembersAfterEnd(s, i, acc);
    SkipWsExtends(s, t, i);
    var j := SkipWs(s, i);
    if s[j] == ',' {
      MembersAfterComma(s, i, acc);
      MembersAfterComma(t, i, acc);
      SkipWsExtends(s, t, j + 1);
      ParseMembersExtends(s, t, SkipWs(s, j + 1), acc);
    } else {
      MembersClosed(s, i, acc);
      MembersClosed(t, i, acc);
    }
  }

  /** A document that is an object ends with a brace and blanks. */
  lemma {:induction false} ObjectEndsWithBrace(s: string)
    requires ParseDocument(s).Some? && ParseDocument(s).value.Obj?
    ensures exists n :: 0 <= n < |s| && s[n] == '}' && forall i :: n < i < |s| ==> IsWs(s[i])
  {
    var p := ParseValue(s, SkipWs(s, 0));
    assert s[p.next - 1] == '}';
    assert SkipWs(s, p.next) == |s|;
  }
}
