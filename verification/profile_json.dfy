/**
 * `JSON.stringify` and `JSON.parse` restricted to user profiles.
 *
 * Serialize writes a profile the way `JSON.stringify` writes an object whose
 * own properties are the present profile fields, in declaration order: no
 * whitespace, integer ids in decimal, strings with JSON escaping. Parse reads
 * the text `null` and objects whose members are profile fields (any order,
 * repetitions allowed, the last one wins, values may be `null`). Every other
 * text is a parse failure.
 */
module ProfileJson {
  import opened Wrappers
  import opened Profile

  /** Outcome of `JSON.parse`: a thrown exception, or the parsed value (`null` is `None`). */
  datatype ParseResult = ParseError | Parsed(value: Option<UserInfo>)

  // ---------------------------------------------------------------------------
  // Characters

  predicate IsDigit(c: char) {
    '0' <= c <= '9'
  }

  predicate IsHex(c: char) {
    IsDigit(c) || 'a' <= c <= 'f' || 'A' <= c <= 'F'
  }

  function DigitChar(d: nat): (c: char)
    requires d < 10
    ensures IsDigit(c) && c as int - '0' as int == d
  {
    ('0' as int + d) as char
  }

  function DigitValue(c: char): int {
    c as int - '0' as int
  }

  /** A lower-case hexadecimal digit, as `JSON.stringify` writes them. */
  function HexChar(d: nat): (c: char)
    requires d < 16
    ensures IsHex(c) && HexValue(c) == d
  {
    if d < 10 then DigitChar(d) else ('a' as int + d - 10) as char
  }

  function HexValue(c: char): (d: nat)
    requires IsHex(c)
    ensures d < 16
  {
    if IsDigit(c) then DigitValue(c)
    else if 'a' <= c <= 'f' then c as int - 'a' as int + 10
    else c as int - 'A' as int + 10
  }

  // ---------------------------------------------------------------------------
  // Strings

  /** How `JSON.stringify` writes one character inside a string literal. */
  function EscapeChar(c: char): (e: string)
    ensures 0 < |e|
  {
    if c == '"' then ['\\', '"']
    else if c == '\\' then ['\\', '\\']
    else if c as int == 0x08 then ['\\', 'b']
    else if c as int == 0x0C then ['\\', 'f']
    else if c == '\n' then ['\\', 'n']
    else if c == '\r' then ['\\', 'r']
    else if c == '\t' then ['\\', 't']
    else if c as int < 0x20 then ['\\', 'u', '0', '0', HexChar(c as int / 16), HexChar(c as int % 16)]
    else [c]
  }

  /** The body of a string literal, without its quotes. */
  function EscapeString(s: string): (e: string)
    ensures |s| <= |e|
  {
    if s == [] then [] else EscapeChar(s[0]) + EscapeString(s[1..])
  }

  /** Four hexadecimal digits at the start of s. */
  predicate StartsWithHex4(s: string) {
    4 <= |s| && IsHex(s[0]) && IsHex(s[1]) && IsHex(s[2]) && IsHex(s[3])
  }

  /** The UTF-16 code unit written by the four hexadecimal digits at the start of s. */
  function Hex4Value(s: string): (v: nat)
    requires StartsWithHex4(s)
    ensures v < 0x1_0000
  {
    HexValue(s[0]) * 4096 + HexValue(s[1]) * 256 + HexValue(s[2]) * 16 + HexValue(s[3])
  }

  /**
   * Decodes the code units of a `\u` escape whose `u` is already consumed: a
   * code unit outside the surrogate range is that character, and a high
   * surrogate followed by `\u` and a low surrogate is the character the pair
   * encodes in UTF-16.
   */
  function ParseUnicodeEscape(s: string): (r: Option<(char, string)>)
    ensures r.Some? ==> |r.value.1| < |s|
  {
    if !StartsWithHex4(s) then None
    else
      var high := Hex4Value(s);
      if high < 0xD800 || 0xE000 <= high then Some((high as char, s[4..]))
      else if high < 0xDC00 && 10 <= |s| && s[4] == '\\' && s[5] == 'u' && StartsWithHex4(s[6..]) then
        var low := Hex4Value(s[6..]);
        if 0xDC00 <= low < 0xE000 then
          Some(((0x1_0000 + (high - 0xD800) * 0x400 + (low - 0xDC00)) as char, s[10..]))
        else None
      // a lone UTF-16 surrogate is not a character of the model
      else None
  }

  /** Decodes the escape sequence that follows a backslash. */
  function ParseEscape(s: string): (r: Option<(char, string)>)
    ensures r.Some? ==> |r.value.1| < |s|
  {
    if s == [] then None
    else if s[0] == '"' || s[0] == '\\' || s[0] == '/' then Some((s[0], s[1..]))
    else if s[0] == 'b' then Some((0x08 as char, s[1..]))
    else if s[0] == 'f' then Some((0x0C as char, s[1..]))
    else if s[0] == 'n' then Some(('\n', s[1..]))
    else if s[0] == 'r' then Some(('\r', s[1..]))
    else if s[0] == 't' then Some(('\t', s[1..]))
    else if s[0] == 'u' then ParseUnicodeEscape(s[1..])
    else None
  }

  /** A byte as two lower-case hexadecimal digits. */
  function Hex2(b: nat): (s: string)
    requires b < 0x100
    ensures |s| == 2 && IsHex(s[0]) && IsHex(s[1]) && HexValue(s[0]) * 16 + HexValue(s[1]) == b
  {
    [HexChar(b / 16), HexChar(b % 16)]
  }

  /** A code unit as four lower-case hexadecimal digits. */
  function Hex4(v: nat): (s: string)
    requires v < 0x1_0000
    ensures StartsWithHex4(s) && |s| == 4 && Hex4Value(s) == v
  {
    var hi, lo := Hex2(v / 0x100), Hex2(v % 0x100);
    var a, b := HexValue(hi[0]), HexValue(hi[1]);
    assert a * 4096 + b * 256 == (a * 16 + b) * 256;
    hi + lo
  }

  /**
   * A character beyond the Basic Multilingual Plane written as the escapes of
   * its UTF-16 surrogate pair, as other JSON writers may store it.
   */
  function SurrogatePairEscape(c: char): string
    requires 0x1_0000 <= c as int
  {
    var v := c as int - 0x1_0000;
    ['\\', 'u'] + Hex4(0xD800 + v / 0x400) + ['\\', 'u'] + Hex4(0xDC00 + v % 0x400)
  }

  function PrependChar(c: char, r: Option<(string, string)>): Option<(string, string)> {
    match r
    case None => None
    case Some((t, rest)) => Some(([c] + t, rest))
  }

  /**
   * Reads the rest of a string literal whose opening quote is already consumed:
   * the decoded string and the text after the closing quote.
   */
  function ParseStringBody(s: string): (r: Option<(string, string)>)
    ensures r.Some? ==> |r.value.1| < |s|
    decreases |s|
  {
    if s == [] then None
    else if s[0] == '"' then Some(([], s[1..]))
    else if s[0] == '\\' then
      match ParseEscape(s[1..])
      case None => None
      case Some((c, rest)) => PrependChar(c, ParseStringBody(rest))
    else if s[0] as int < 0x20 then None   // raw control characters are not allowed
    else PrependChar(s[0], ParseStringBody(s[1..]))
  }

  // ---------------------------------------------------------------------------
  // Numbers

  predicate AllDigits(s: string) {
    forall i | 0 <= i < |s| :: IsDigit(s[i])
  }

  /** Decimal digits of a natural number, without leading zeros. */
  function NatText(n: nat): (t: string)
    ensures 0 < |t|
    decreases n
  {
    if n < 10 then [DigitChar(n)] else NatText(n / 10) + [DigitChar(n % 10)]
  }

  function IntText(i: int): string {
    if i < 0 then ['-'] + NatText(-i) else NatText(i)
  }

  /** Length of the run of digits at the start of s. */
  function DigitRun(s: string): (k: nat)
    ensures k <= |s|
  {
    if s != [] && IsDigit(s[0]) then 1 + DigitRun(s[1..]) else 0
  }

  /** The value of a string of decimal digits. */
  function DigitsValue(d: string): int {
    if d == [] then 0 else DigitsValue(d[..|d| - 1]) * 10 + DigitValue(d[|d| - 1])
  }

  /** Reads a run of digits without leading zeros. */
  function ParseNat(s: string): (r: Option<(int, string)>)
    ensures r.Some? ==> |r.value.1| < |s|
  {
    var k := DigitRun(s);
    if k == 0 || (1 < k && s[0] == '0') then None
    else Some((DigitsValue(s[..k]), s[k..]))
  }

  /** A JSON number without fraction or exponent: an optional minus, then ParseNat. */
  function ParseInt(s: string): (r: Option<(int, string)>)
    ensures r.Some? ==> |r.value.1| < |s|
  {
    if s != [] && s[0] == '-' then
      match ParseNat(s[1..])
      case None => None
      case Some((n, rest)) => Some((-n, rest))
    else ParseNat(s)
  }

  // ---------------------------------------------------------------------------
  // Profile objects

  /** One member of a profile object; `None` is a member whose value is `null`. */
  datatype Field =
    | IdField(id: Option<int>)
    | AccountField(account: Option<string>)
    | AvatarField(avatar: Option<string>)
    | NameField(name: Option<string>)

  function Key(f: Field): string {
    match f
    case IdField(_) => "id"
    case AccountField(_) => "userAccount"
    case AvatarField(_) => "userAvatar"
    case NameField(_) => "userName"
  }

  function Apply(u: UserInfo, f: Field): UserInfo {
    match f
    case IdField(v) => u.(id := v)
    case AccountField(v) => u.(userAccount := v)
    case AvatarField(v) => u.(userAvatar := v)
    case NameField(v) => u.(userName := v)
  }

  /** The profile obtained by assigning the members left to right (the last one wins). */
  function ApplyAll(u: UserInfo, fs: seq<Field>): UserInfo
    decreases |fs|
  {
    if fs == [] then u else ApplyAll(Apply(u, fs[0]), fs[1..])
  }

  /** The members `JSON.stringify` writes: the present fields, in declaration order. */
  function Fields(u: UserInfo): seq<Field> {
    (if u.id.Some? then [IdField(u.id)] else [])
    + (if u.userAccount.Some? then [AccountField(u.userAccount)] else [])
    + (if u.userAvatar.Some? then [AvatarField(u.userAvatar)] else [])
    + (if u.userName.Some? then [NameField(u.userName)] else [])
  }

  function StringText(v: Option<string>): string {
    if v.None? then "null" else "\"" + EscapeString(v.value) + "\""
  }

  function ValueText(f: Field): string {
    match f
    case IdField(v) => if v.None? then "null" else IntText(v.value)
    case AccountField(v) => StringText(v)
    case AvatarField(v) => StringText(v)
    case NameField(v) => StringText(v)
  }

  /** A member `"key":value` of an object. */
  function EncodeMember(key: string, value: string): string {
    "\"" + EscapeString(key) + "\":" + value
  }

  function EncodeField(f: Field): string {
    EncodeMember(Key(f), ValueText(f))
  }

  function JoinFields(fs: seq<Field>): string {
    if fs == [] then []
    else if |fs| == 1 then EncodeField(fs[0])
    else EncodeField(fs[0]) + "," + JoinFields(fs[1..])
  }

  /** `JSON.stringify(user)`: a JSON object text. */
  function Serialize(u: UserInfo): (text: string)
    ensures 2 <= |text| && text[0] == '{' && text[|text| - 1] == '}'
  {
    "{" + JoinFields(Fields(u)) + "}"
  }

  predicate StartsWithNull(s: string) {
    4 <= |s| && s[0] == 'n' && s[1] == 'u' && s[2] == 'l' && s[3] == 'l'
  }

  function ParseStringValue(s: string): (r: Option<(Option<string>, string)>)
    ensures r.Some? ==> |r.value.1| < |s|
  {
    if StartsWithNull(s) then Some((None, s[4..]))
    else if s != [] && s[0] == '"' then
      match ParseStringBody(s[1..])
      case None => None
      case Some((v, rest)) => Some((Some(v), rest))
    else None
  }

  function ParseIdValue(s: string): (r: Option<(Option<int>, string)>)
    ensures r.Some? ==> |r.value.1| < |s|
  {
    if StartsWithNull(s) then Some((None, s[4..]))
    else
      match ParseInt(s)
      case None => None
      case Some((n, rest)) => Some((Some(n), rest))
  }

  /** Reads the value of the member named key; a key that is not a profile field is rejected. */
  function ParseMemberValue(key: string, s: string): (r: Option<(Field, string)>)
    ensures r.Some? ==> |r.value.1| < |s| && Key(r.value.0) == key
  {
    if key == "id" then
      match ParseIdValue(s)
      case None => None
      case Some((v, rest)) => Some((IdField(v), rest))
    else if key == "userAccount" || key == "userAvatar" || key == "userName" then
      match ParseStringValue(s)
      case None => None
      case Some((v, rest)) =>
        Some((if key == "userAccount" then AccountField(v)
              else if key == "userAvatar" then AvatarField(v)
              else NameField(v), rest))
    else None
  }

  /** Reads one `"key":value` member. */
  function ParseField(s: string): (r: Option<(Field, string)>)
    ensures r.Some? ==> |r.value.1| < |s|
  {
    if s == [] || s[0] != '"' then None
    else
      match ParseStringBody(s[1..])
      case None => None
      case Some((key, rest)) =>
        if rest == [] || rest[0] != ':' then None else ParseMemberValue(key, rest[1..])
  }

  /**
   * Reads `member (, member)* }`, assigning each member to acc in turn; gives
   * the profile and the text after the closing brace.
   */
  function ParseMembers(s: string, acc: UserInfo): (r: Option<(UserInfo, string)>)
    decreases |s|
  {
    match ParseField(s)
    case None => None
    case Some((f, rest)) =>
      if rest == [] then None
      else if rest[0] == '}' then Some((Apply(acc, f), rest[1..]))
      else if rest[0] == ',' then ParseMembers(rest[1..], Apply(acc, f))
      else None
  }

  /** Reads an object whose opening brace is already consumed. */
  function ParseObject(s: string): Option<(UserInfo, string)> {
    if s != [] && s[0] == '}' then Some((EmptyProfile, s[1..])) else ParseMembers(s, EmptyProfile)
  }

  /** `JSON.parse(text)` for the texts the model accepts. */
  function Parse(text: string): (r: ParseResult)
    ensures r == Parsed(None) <==> text == "null"
    ensures r.Parsed? && r.value.Some? ==> text != [] && text[0] == '{'
  {
    if text == "null" then Parsed(None)
    else if text != [] && text[0] == '{' then
      match ParseObject(text[1..])
      case Some((u, trailing)) => if trailing == [] then Parsed(Some(u)) else ParseError
      case None => ParseError
    else ParseError
  }

  // ---------------------------------------------------------------------------
  // Parse undoes Serialize

  lemma CharRoundTrip(c: char, t: string)
    ensures ParseStringBody(EscapeChar(c) + t) == PrependChar(c, ParseStringBody(t))
  {
    var s := EscapeChar(c) + t;
    var n := c as int;
    if c == '"' || c == '\\' || n == 0x08 || n == 0x0C || c == '\n' || c == '\r' || c == '\t' {
      assert s[1..][1..] == t;
    } else if n < 0x20 {
      assert s[1..] == ['u', '0', '0', HexChar(n / 16), HexChar(n % 16)] + t;
      assert s[1..][5..] == t;
      assert ParseEscape(s[1..]) == Some((c, t));
    } else {
      assert s[1..] == t;
    }
  }

  lemma Hex4Prefix(h: string, rest: string)
    requires |h| == 4 && StartsWithHex4(h)
    ensures StartsWithHex4(h + rest) && Hex4Value(h + rest) == Hex4Value(h)
  {
    assert (h + rest)[..4] == h;
  }

  lemma PairEscapeDecodes(h: string, l: string, t: string)
    requires |h| == 4 && StartsWithHex4(h) && |l| == 4 && StartsWithHex4(l)
    requires 0xD800 <= Hex4Value(h) < 0xDC00 <= Hex4Value(l) < 0xE000
    ensures ParseUnicodeEscape(h + ['\\', 'u'] + l + t)
      == Some(((0x1_0000 + (Hex4Value(h) - 0xD800) * 0x400 + (Hex4Value(l) - 0xDC00)) as char, t))
  {
    var tail := ['\\', 'u'] + l + t;
    assert h + ['\\', 'u'] + l + t == h + tail;
    Hex4Prefix(h, tail);
    assert (h + tail)[4..] == tail;
    assert tail[2..] == l + t;
    Hex4Prefix(l, t);
    assert (l + t)[4..] == t;
  }

  /** The code point of a supplementary character from its UTF-16 surrogates. */
  lemma SurrogateArithmetic(c: char)
    requires 0x1_0000 <= c as int
    ensures var v := c as int - 0x1_0000;
      0xD800 <= 0xD800 + v / 0x400 < 0xDC00 && 0xDC00 <= 0xDC00 + v % 0x400 < 0xE000
      && 0x1_0000 + (v / 0x400) * 0x400 + v % 0x400 == c as int
  {
  }

  lemma EscapeStep(s: string, c: char, t: string)
    requires s != [] && s[0] == '\\' && ParseEscape(s[1..]) == Some((c, t))
    ensures ParseStringBody(s) == PrependChar(c, ParseStringBody(t))
  {
  }

  lemma UnicodeEscapeStep(units: string)
    ensures ParseEscape(['u'] + units) == ParseUnicodeEscape(units)
  {
    assert (['u'] + units)[1..] == units;
  }

  /** The surrogate-pair escape of a character reads back as that one character. */
  lemma SurrogatePairRoundTrip(c: char, t: string)
    requires 0x1_0000 <= c as int
    ensures ParseStringBody(SurrogatePairEscape(c) + t) == PrependChar(c, ParseStringBody(t))
  {
    var v := c as int - 0x1_0000;
    SurrogateArithmetic(c);
    var h, l := Hex4(0xD800 + v / 0x400), Hex4(0xDC00 + v % 0x400);
    var units := h + ['\\', 'u'] + l + t;
    var s := SurrogatePairEscape(c) + t;
    assert s == ['\\'] + (['u'] + units);
    assert s[1..] == ['u'] + units;
    PairEscapeDecodes(h, l, t);
    UnicodeEscapeStep(units);
    EscapeStep(s, c, t);
  }

  lemma {:induction false} StringRoundTrip(x: string, rest: string)
    ensures ParseStringBody(EscapeString(x) + "\"" + rest) == Some((x, rest))
  {
    if x == [] {
      assert EscapeString(x) + "\"" + rest == "\"" + rest;
    } else {
      var tail := EscapeString(x[1..]) + "\"" + rest;
      assert EscapeString(x) + "\"" + rest == EscapeChar(x[0]) + tail;
      StringRoundTrip(x[1..], rest);
      CharRoundTrip(x[0], tail);
      assert [x[0]] + x[1..] == x;
    }
  }

  /** NatText writes digits only, and a leading zero only for zero itself. */
  lemma {:induction false} NatTextShape(n: nat)
    ensures var t := NatText(n);
      AllDigits(t) && (|t| == 1) == (n < 10) && (t[0] == '0') == (n == 0)
    decreases n
  {
    if 10 <= n {
      NatTextShape(n / 10);
      var t := NatText(n);
      assert t[0] == NatText(n / 10)[0];
      assert forall i | 0 <= i < |t| - 1 :: t[i] == NatText(n / 10)[i];
    }
  }

  lemma {:induction false} NatTextValue(n: nat)
    ensures DigitsValue(NatText(n)) == n
    decreases n
  {
    var t := NatText(n);
    if n < 10 {
      assert t[..|t| - 1] == [];
    } else {
      NatTextValue(n / 10);
      assert t[..|t| - 1] == NatText(n / 10);
    }
  }

  lemma {:induction false} DigitRunPrefix(d: string, rest: string)
    requires AllDigits(d)
    requires rest == [] || !IsDigit(rest[0])
    ensures DigitRun(d + rest) == |d|
  {
    if d == [] {
      assert d + rest == rest;
    } else {
      assert (d + rest)[0] == d[0];
      assert (d + rest)[1..] == d[1..] + rest;
      DigitRunPrefix(d[1..], rest);
    }
  }

  lemma NatRoundTrip(n: nat, rest: string)
    requires rest == [] || !IsDigit(rest[0])
    ensures ParseNat(NatText(n) + rest) == Some((n, rest))
  {
    var d := NatText(n);
    var s := d + rest;
    NatTextShape(n);
    DigitRunPrefix(d, rest);
    assert s[..|d|] == d && s[|d|..] == rest;
    NatTextValue(n);
  }

  lemma IntRoundTrip(i: int, rest: string)
    requires rest == [] || !IsDigit(rest[0])
    ensures ParseInt(IntText(i) + rest) == Some((i, rest))
  {
    if i < 0 {
      NegIntRoundTrip(i, rest);
    } else {
      NonNegIntRoundTrip(i, rest);
    }
  }

  lemma NonNegIntRoundTrip(i: nat, rest: string)
    requires rest == [] || !IsDigit(rest[0])
    ensures ParseInt(NatText(i) + rest) == Some((i, rest))
  {
    var s := NatText(i) + rest;
    NatRoundTrip(i, rest);
    NatTextShape(i);
    assert IsDigit(s[0]);
  }

  lemma NegIntRoundTrip(i: int, rest: string)
    requires i < 0
    requires rest == [] || !IsDigit(rest[0])
    ensures ParseInt(IntText(i) + rest) == Some((i, rest))
  {
    var t := NatText(-i);
    NatRoundTrip(-i, rest);
    NegativeStep(t + rest, -i, rest);
    assert IntText(i) + rest == ['-'] + (t + rest);
  }

  lemma NegativeStep(digits: string, n: int, rest: string)
    requires ParseNat(digits) == Some((n, rest))
    ensures ParseInt(['-'] + digits) == Some((-n, rest))
  {
  }

  lemma StringValueRoundTrip(v: Option<string>, rest: string)
    ensures ParseStringValue(StringText(v) + rest) == Some((v, rest))
  {
    var s := StringText(v) + rest;
    if v.None? {
      assert s[..4] == "null" && s[4..] == rest;
    } else {
      var body := EscapeString(v.value) + "\"" + rest;
      assert s == ['"'] + body;
      assert s[0] == '"' && s[1..] == body;
      StringRoundTrip(v.value, rest);
    }
  }

  lemma IdValueRoundTrip(v: Option<int>, rest: string)
    requires rest == [] || !IsDigit(rest[0])
    ensures ParseIdValue(ValueText(IdField(v)) + rest) == Some((v, rest))
  {
    var s := ValueText(IdField(v)) + rest;
    if v.None? {
      assert s[..4] == "null" && s[4..] == rest;
    } else {
      var i := v.value;
      if i < 0 {
        assert s[0] == '-';
      } else {
        NatTextShape(i);
        assert s[0] == NatText(i)[0];
      }
      IntRoundTrip(i, rest);
    }
  }

  lemma FieldStep(s: string, key: string, value: string)
    requires s != [] && s[0] == '"' && ParseStringBody(s[1..]) == Some((key, [':'] + value))
    ensures ParseField(s) == ParseMemberValue(key, value)
  {
    assert ([':'] + value)[1..] == value;
  }

  /** Reading an encoded member comes down to reading its value under its key. */
  lemma MemberRoundTrip(key: string, value: string)
    ensures ParseField(EncodeMember(key, value)) == ParseMemberValue(key, value)
  {
    var s := EncodeMember(key, value);
    var body := EscapeString(key) + "\"" + ([':'] + value);
    assert s == ['"'] + body;
    assert s[1..] == body;
    StringRoundTrip(key, [':'] + value);
    FieldStep(s, key, value);
  }

  lemma ValueRoundTrip(f: Field, rest: string)
    requires rest == [] || !IsDigit(rest[0])
    ensures ParseMemberValue(Key(f), ValueText(f) + rest) == Some((f, rest))
  {
    match f
    case IdField(v) => IdValueRoundTrip(v, rest);
    case AccountField(v) => StringValueRoundTrip(v, rest);
    case AvatarField(v) => StringValueRoundTrip(v, rest);
    case NameField(v) => StringValueRoundTrip(v, rest);
  }

  lemma FieldRoundTrip(f: Field, rest: string)
    requires rest == [] || !IsDigit(rest[0])
    ensures ParseField(EncodeField(f) + rest) == Some((f, rest))
  {
    var value := ValueText(f) + rest;
    assert EncodeField(f) + rest == EncodeMember(Key(f), value);
    MemberRoundTrip(Key(f), value);
    ValueRoundTrip(f, rest);
  }

  lemma MembersStep(s: string, acc: UserInfo, f: Field, more: string)
    requires ParseField(s) == Some((f, [','] + more))
    ensures ParseMembers(s, acc) == ParseMembers(more, Apply(acc, f))
  {
  }

  lemma MembersLast(s: string, acc: UserInfo, f: Field)
    requires ParseField(s) == Some((f, ['}']))
    ensures ParseMembers(s, acc) == Some((Apply(acc, f), []))
  {
    assert ['}'][1..] == [];
  }

  lemma CommaAssoc(a: string, j: string)
    ensures (a + "," + j) + ['}'] == a + ([','] + (j + ['}']))
  {
  }

  lemma JoinFieldsSplit(fs: seq<Field>)
    requires 1 < |fs|
    ensures JoinFields(fs) + ['}'] == EncodeField(fs[0]) + ([','] + (JoinFields(fs[1..]) + ['}']))
  {
    var a, j := EncodeField(fs[0]), JoinFields(fs[1..]);
    assert JoinFields(fs) == a + "," + j;
    CommaAssoc(a, j);
  }

  lemma {:induction false} MembersRoundTrip(fs: seq<Field>, acc: UserInfo)
    requires fs != []
    ensures ParseMembers(JoinFields(fs) + ['}'], acc) == Some((ApplyAll(acc, fs), []))
    decreases |fs|
  {
    var next := Apply(acc, fs[0]);
    if |fs| == 1 {
      FieldRoundTrip(fs[0], ['}']);
      MembersLast(JoinFields(fs) + ['}'], acc, fs[0]);
      assert fs[1..] == [];
    } else {
      var more := JoinFields(fs[1..]) + ['}'];
      JoinFieldsSplit(fs);
      FieldRoundTrip(fs[0], [','] + more);
      MembersStep(JoinFields(fs) + ['}'], acc, fs[0], more);
      MembersRoundTrip(fs[1..], next);
    }
  }

  lemma {:induction false} ApplyAllAppend(u: UserInfo, a: seq<Field>, b: seq<Field>)
    ensures ApplyAll(u, a + b) == ApplyAll(ApplyAll(u, a), b)
    decreases |a|
  {
    if a == [] {
      assert a + b == b;
    } else {
      assert (a + b)[1..] == a[1..] + b;
      ApplyAllAppend(Apply(u, a[0]), a[1..], b);
    }
  }

  /** Assigning the serialized members to an empty object rebuilds the profile. */
  lemma FieldsRebuild(u: UserInfo)
    ensures ApplyAll(EmptyProfile, Fields(u)) == u
  {
    var a := if u.id.Some? then [IdField(u.id)] else [];
    var b := if u.userAccount.Some? then [AccountField(u.userAccount)] else [];
    var c := if u.userAvatar.Some? then [AvatarField(u.userAvatar)] else [];
    var d := if u.userName.Some? then [NameField(u.userName)] else [];
    assert Fields(u) == a + b + c + d;
    ApplyAllAppend(EmptyProfile, a + b + c, d);
    ApplyAllAppend(EmptyProfile, a + b, c);
    ApplyAllAppend(EmptyProfile, a, b);
  }

  lemma ParseObjectText(body: string)
    requires body != [] && body[0] != '}'
    ensures Parse(['{'] + body) == match ParseMembers(body, EmptyProfile)
      case Some((u, trailing)) => if trailing == [] then Parsed(Some(u)) else ParseError
      case None => ParseError
  {
  }

  /** An object text made of encoded members reads back as those members assigned in order. */
  lemma ObjectRoundTrip(fs: seq<Field>)
    ensures Parse("{" + JoinFields(fs) + "}") == Parsed(Some(ApplyAll(EmptyProfile, fs)))
  {
    var body := JoinFields(fs) + ['}'];
    assert "{" + JoinFields(fs) + "}" == ['{'] + body;
    if fs == [] {
      assert ['{'] + body == "{}";
    } else {
      assert body[0] == EncodeField(fs[0])[0] == '"';
      ParseObjectText(body);
      MembersRoundTrip(fs, EmptyProfile);
    }
  }

  /** `JSON.parse(JSON.stringify(user))` gives back the same profile. */
  lemma ParseSerialize(u: UserInfo)
    ensures Parse(Serialize(u)) == Parsed(Some(u))
  {
    ObjectRoundTrip(Fields(u));
    FieldsRebuild(u);
  }

  /** Distinct profiles are stored as distinct texts. */
  lemma SerializeInjective(u: UserInfo, v: UserInfo)
    requires Serialize(u) == Serialize(v)
    ensures u == v
  {
    ParseSerialize(u);
    ParseSerialize(v);
  }
}
