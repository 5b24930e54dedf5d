/** JSON values and their canonical text: a faithful name for the value. */
module Json {
  import opened Basics
  import opened Ordering

  predicate Digit(c: char) {
    '0' <= c <= '9'
  }

  predicate NumberChar(c: char) {
    Digit(c) || c == '-' || c == '+' || c == '.' || c == 'e' || c == 'E'
  }

  /** How many digits a text begins with. */
  function DigitRun(s: string): (n: nat)
    ensures n <= |s| && (forall i :: 0 <= i < n ==> Digit(s[i])) && (n < |s| ==> !Digit(s[n]))
  {
    if s == "" || !Digit(s[0]) then 0 else 1 + DigitRun(s[1..])
  }

  predicate IsExponent(s: string) {
    s == ""
    || ((s[0] == 'e' || s[0] == 'E')
        && var digits := if |s| > 1 && (s[1] == '+' || s[1] == '-') then s[2..] else s[1..];
           digits != "" && DigitRun(digits) == |digits|)
  }

  predicate IsFraction(s: string) {
    if s != "" && s[0] == '.' then
      var n := DigitRun(s[1..]);
      n > 0 && IsExponent(s[1..][n..])
    else IsExponent(s)
  }

  /** The grammar of section 6 of RFC 8259: an optional minus sign, digits without a leading zero, and
      an optional fraction and exponent. */
  predicate IsNumber(s: string) {
    var unsigned := if s != "" && s[0] == '-' then s[1..] else s;
    var n := DigitRun(unsigned);
    n > 0 && (unsigned[0] == '0' ==> n == 1) && IsFraction(unsigned[n..])
  }

  type NumberText = s: string | IsNumber(s) witness "0"

  predicate NumberChars(s: string) {
    forall i :: 0 <= i < |s| ==> NumberChar(s[i])
  }

  lemma {:induction false} MoreNumberChars(s: string, k: nat)
    requires k <= |s| && NumberChars(s[..k]) && NumberChars(s[k..])
    ensures NumberChars(s)
  {
    hide NumberChar;
    assert forall i :: 0 <= i < k ==> s[i] == s[..k][i];
    assert forall i :: k <= i < |s| ==> s[i] == s[k..][i - k];
  }

  lemma {:induction false} DigitsAreNumberChars(s: string)
    ensures NumberChars(s[..DigitRun(s)])
  {
  }

  lemma {:induction false} ExponentChars(s: string)
    requires IsExponent(s)
    ensures NumberChars(s)
  {
    if s != "" {
      var k := if |s| > 1 && (s[1] == '+' || s[1] == '-') then 2 else 1;
      assert NumberChars(s[..k]);
      DigitsAreNumberChars(s[k..]);
      assert s[k..][..|s[k..]|] == s[k..];
      hide NumberChars;
      MoreNumberChars(s, k);
    }
  }

  lemma {:induction false} FractionChars(s: string)
    requires IsFraction(s)
    ensures NumberChars(s)
  {
    if s != "" && s[0] == '.' {
      var digits := s[1..];
      assert NumberChars(s[..1]);
      DigitsAreNumberChars(digits);
      ExponentChars(digits[DigitRun(digits)..]);
      hide NumberChars, IsExponent, DigitRun;
      MoreNumberChars(digits, DigitRun(digits));
      MoreNumberChars(s, 1);
    } else {
      ExponentChars(s);
    }
  }

  lemma {:induction false} UnsignedChars(s: string)
    requires IsFraction(s[DigitRun(s)..])
    ensures NumberChars(s)
  {
    DigitsAreNumberChars(s);
    FractionChars(s[DigitRun(s)..]);
    hide *;
    MoreNumberChars(s, DigitRun(s));
  }

  /** A number text has number characters only and begins with a digit or a minus sign. */
  lemma {:induction false} NumberTextChars(s: string)
    requires IsNumber(s)
    ensures s != "" && (Digit(s[0]) || s[0] == '-') && NumberChars(s)
  {
    hide IsFraction;
    if s != "" && s[0] == '-' {
      UnsignedChars(s[1..]);
      assert NumberChars(s[..1]);
      hide NumberChars, DigitRun;
      MoreNumberChars(s, 1);
    } else {
      UnsignedChars(s);
    }
  }

  /** Objects are finite maps: neither the order nor the repetition of keys survives parsing. */
  datatype Value =
    | Null
    | Bool(b: bool)
    | Number(text: NumberText)
    | Str(s: string)
    | Array(items: seq<Value>)
    | Object(members: map<string, Value>)

  // ----- strings, escaped as section 7 of RFC 8259 asks

  function HexDigit(n: nat): char
    requires n < 16
  {
    "0123456789abcdef"[n]
  }

  function Escaped(c: char): string {
    if c == '"' then "\\\""
    else if c == '\\' then "\\\\"
    else if c == '\U{0008}' then "\\b"
    else if c == '\t' then "\\t"
    else if c == '\n' then "\\n"
    else if c == '\U{000C}' then "\\f"
    else if c == '\r' then "\\r"
    else if c < ' ' then "\\u00" + [HexDigit(c as int / 16), HexDigit(c as int % 16)]
    else [c]
  }

  /** Quote and backslash behind a backslash, five control characters by letter, the others as four lower-case
      hexadecimal digits; every other character stands for itself. */
  lemma {:induction false} EscapedMeans(c: char)
    ensures var code, e := c as int, Escaped(c);
      if code == 34 || code == 92 then e == ['\\', c]
      else if code == 8 then e == "\\b" else if code == 9 then e == "\\t" else if code == 10 then e == "\\n"
      else if code == 12 then e == "\\f" else if code == 13 then e == "\\r"
      else if code >= 32 then e == [c]
      else
        && |e| == 6 && e[..5] == (if code < 16 then "\\u000" else "\\u001")
        && e[5] as int == (if code % 16 < 10 then 48 + code % 16 else 87 + code % 16)
  {
    var code := c as int;
    if code < 32 {
      assert code / 16 < 2;
      assert HexDigit(0) == '0' && HexDigit(1) == '1';
      HexDigitIs(code % 16);
    }
  }

  lemma {:induction false} HexDigitIs(n: nat)
    requires n < 16
    ensures HexDigit(n) as int == if n < 10 then 48 + n else 87 + n
  {
    assert n == 0 || n == 1 || n == 2 || n == 3 || n == 4 || n == 5 || n == 6 || n == 7 || n == 8 || n == 9
      || n == 10 || n == 11 || n == 12 || n == 13 || n == 14 || n == 15;
  }

  /** The rest of a string literal: every remaining character escaped, then the closing quote. */
  function Tail(s: string): string {
    if s == "" then "\"" else Escaped(s[0]) + Tail(s[1..])
  }

  function Quoted(s: string): string {
    "\"" + Tail(s)
  }

  // ----- the canonical text

  function Width(v: Value): nat {
    match v
    case Array(items) => |items|
    case Object(members) => |members|
    case _ => 0
  }

  function Canon(v: Value): string
    decreases v, Width(v) + 1
  {
    match v
    case Null => "null"
    case Bool(b) => if b then "true" else "false"
    case Number(text) => text
    case Str(s) => Quoted(s)
    case Array(_) => "[" + ItemsFrom(v, 0)
    case Object(_) => "{" + MembersFrom(v, 0)
  }

  /** The items from position `i` on, with the separators and the closing bracket. */
  function ItemsFrom(v: Value, i: nat): string
    requires v.Array? && i <= |v.items|
    decreases v, |v.items| - i
  {
    if i == |v.items| then "]" else Comma(i) + (Canon(v.items[i]) + ItemsFrom(v, i + 1))
  }

  function Comma(i: nat): string {
    if i > 0 then "," else ""
  }

  function Keys(v: Value): (keys: seq<string>)
    requires v.Object?
    ensures Ascending(keys) && |keys| == |v.members| && forall k :: k in keys <==> k in v.members
  {
    assert |v.members.Keys| == |v.members|;
    Sorted(v.members.Keys)
  }

  /** The members from the `i`-th smallest key on. */
  function MembersFrom(v: Value, i: nat): string
    requires v.Object? && i <= |Keys(v)|
    decreases v, |Keys(v)| - i
  {
    if i == |Keys(v)| then "}"
    else
      var k := Keys(v)[i];
      assert k in Keys(v);
      Comma(i) + (Quoted(k) + (":" + (Canon(v.members[k]) + MembersFrom(v, i + 1))))
  }

  // ----- reading back

  /** A value read from the front of a text, and what follows it; nothing when the text has no such value. */
  datatype Read<T> = NotRead | Read(value: T, rest: string)

  predicate HexChar(c: char) {
    '0' <= c <= '9' || 'a' <= c <= 'f' || 'A' <= c <= 'F'
  }

  function HexValue(c: char): (n: nat)
    requires HexChar(c)
    ensures n < 16
  {
    if '0' <= c <= '9' then c as int - '0' as int
    else if 'a' <= c <= 'f' then c as int - 'a' as int + 10
    else c as int - 'A' as int + 10
  }

  /** The character an escape stands for, in section 7 of RFC 8259, without the surrogate pairs that
      the printer never makes; the text starts behind the backslash. */
  function ReadEscape(text: string): Read<char> {
    if text == "" then NotRead
    else if text[0] == '"' || text[0] == '\\' || text[0] == '/' then Read(text[0], text[1..])
    else if text[0] == 'b' then Read('\U{0008}', text[1..])
    else if text[0] == 'f' then Read('\U{000C}', text[1..])
    else if text[0] == 'n' then Read('\n', text[1..])
    else if text[0] == 'r' then Read('\r', text[1..])
    else if text[0] == 't' then Read('\t', text[1..])
    else if text[0] == 'u' && |text| >= 5 && forall i :: 1 <= i < 5 ==> HexChar(text[i]) then
      var code := 4096 * HexValue(text[1]) + 256 * HexValue(text[2]) + 16 * HexValue(text[3]) + HexValue(text[4]);
      if 0xD800 <= code < 0xE000 then NotRead else Read(code as char, text[5..])
    else NotRead
  }

  /** A string literal behind its opening quote. */
  function ReadString(text: string): (r: Read<string>)
    ensures r.Read? ==> |r.rest| < |text|
    decreases |text|
  {
    if text == "" || text[0] < ' ' then NotRead
    else if text[0] == '"' then Read("", text[1..])
    else if text[0] == '\\' then
      match ReadEscape(text[1..])
      case NotRead => NotRead
      case Read(c, rest) =>
        if |rest| >= |text| then NotRead
        else
          (match ReadString(rest)
           case NotRead => NotRead
           case Read(more, after) => Read([c] + more, after))
    else
      match ReadString(text[1..])
      case NotRead => NotRead
      case Read(more, after) => Read([text[0]] + more, after)
  }

  /** Length of the longest run of number characters at the front. */
  function NumberRun(text: string): (n: nat)
    ensures n <= |text| && (forall i :: 0 <= i < n ==> NumberChar(text[i])) && (n < |text| ==> !NumberChar(text[n]))
  {
    if text == "" || !NumberChar(text[0]) then 0 else 1 + NumberRun(text[1..])
  }

  function ReadWord(text: string, word: string, v: Value): (r: Read<Value>)
    requires word != ""
    ensures r.Read? ==> |r.rest| < |text|
  {
    if word <= text then Read(v, text[|word|..]) else NotRead
  }

  /** One JSON value in compact form. */
  function ReadValue(text: string): (r: Read<Value>)
    ensures r.Read? ==> |r.rest| < |text|
    decreases |text|, 1
  {
    if text == "" then NotRead
    else if text[0] == 'n' then ReadWord(text, "null", Null)
    else if text[0] == 't' then ReadWord(text, "true", Bool(true))
    else if text[0] == 'f' then ReadWord(text, "false", Bool(false))
    else if text[0] == '"' then
      (match ReadString(text[1..])
       case NotRead => NotRead
       case Read(s, rest) => Read(Str(s), rest))
    else if Digit(text[0]) || text[0] == '-' then
      var n := NumberRun(text);
      if IsNumber(text[..n]) then Read(Number(text[..n]), text[n..]) else NotRead
    else if text[0] == '[' then
      (match ReadItems(text[1..])
       case NotRead => NotRead
       case Read(items, rest) => Read(Array(items), rest))
    else if text[0] == '{' then
      (match ReadMembers(text[1..])
       case NotRead => NotRead
       case Read(members, rest) => Read(Object(members), rest))
    else NotRead
  }

  function ReadItems(text: string): (r: Read<seq<Value>>)
    ensures r.Read? ==> |r.rest| < |text|
    decreases |text|, 2
  {
    if text != "" && text[0] == ']' then Read([], text[1..])
    else
      match ReadValue(text)
      case NotRead => NotRead
      case Read(v, rest) => ReadMoreItems(rest, [v])
  }

  /** Behind an item: the end of the array, or a comma and another item. */
  function ReadMoreItems(text: string, before: seq<Value>): (r: Read<seq<Value>>)
    ensures r.Read? ==> |r.rest| < |text|
    decreases |text|, 0
  {
    if text == "" then NotRead
    else if text[0] == ']' then Read(before, text[1..])
    else if text[0] == ',' then
      match ReadValue(text[1..])
      case NotRead => NotRead
      case Read(v, rest) => ReadMoreItems(rest, before + [v])
    else NotRead
  }

  function ReadMembers(text: string): (r: Read<map<string, Value>>)
    ensures r.Read? ==> |r.rest| < |text|
    decreases |text|, 3
  {
    if text != "" && text[0] == '}' then Read(map[], text[1..]) else ReadMember(text, map[])
  }

  /** A key, a colon and a value; a repeated key keeps its last value. */
  function ReadMember(text: string, before: map<string, Value>): (r: Read<map<string, Value>>)
    ensures r.Read? ==> |r.rest| < |text|
    decreases |text|, 2
  {
    if text == "" || text[0] != '"' then NotRead
    else
      match ReadString(text[1..])
      case NotRead => NotRead
      case Read(k, rest) =>
        if rest == "" || rest[0] != ':' then NotRead
        else
          match ReadValue(rest[1..])
          case NotRead => NotRead
          case Read(v, after) => ReadMoreMembers(after, before[k := v])
  }

  function ReadMoreMembers(text: string, before: map<string, Value>): (r: Read<map<string, Value>>)
    ensures r.Read? ==> |r.rest| < |text|
    decreases |text|, 0
  {
    if text == "" then NotRead
    else if text[0] == '}' then Read(before, text[1..])
    else if text[0] == ',' then ReadMember(text[1..], before)
    else NotRead
  }

  // ----- the canonical text reads back as the value

  /** What can follow a value inside a document: nothing, a comma or a closing bracket. */
  predicate Ends(rest: string) {
    rest == "" || rest[0] == ',' || rest[0] == ']' || rest[0] == '}'
  }

  lemma {:induction false} Behind(a: string, b: string)
    ensures (a + b)[|a|..] == b && (a + b)[..|a|] == a
  {
  }

  lemma {:induction false} HexDigitReads(n: nat)
    requires n < 16
    ensures HexChar(HexDigit(n)) && HexValue(HexDigit(n)) == n
  {
  }

  lemma {:induction false} CodeReads(n: nat, r: string)
    requires n < 32
    ensures ReadEscape("u00" + [HexDigit(n / 16), HexDigit(n % 16)] + r) == Read(n as char, r)
  {
    var e := "u00" + [HexDigit(n / 16), HexDigit(n % 16)];
    Behind(e, r);
    HexDigitReads(n / 16);
    HexDigitReads(n % 16);
    HexDigitReads(0);
    var text := e + r;
    assert text[0] == 'u' && text[1] == '0' && text[2] == '0' && text[3] == HexDigit(n / 16) && text[4] == HexDigit(n % 16);
    assert 16 * (n / 16) + n % 16 == n;
    hide HexDigit, HexValue, HexChar;
  }

  /** Every escape of the printer stands for the character it escapes. */
  lemma {:induction false} EscapeReads(c: char, r: string)
    requires Escaped(c) != [c]
    ensures Escaped(c)[0] == '\\' && ReadEscape(Escaped(c)[1..] + r) == Read(c, r)
  {
    var e := Escaped(c)[1..];
    Behind(e, r);
    if |e| == 5 {
      CodeReads(c as int, r);
      assert e == "u00" + [HexDigit(c as int / 16), HexDigit(c as int % 16)];
      hide ReadEscape, HexDigit;
    } else {
      assert |e| == 1 && (e + r)[0] == e[0];
    }
  }

  lemma {:induction false} PlainStep(c: char, text: string)
    requires Escaped(c) == [c] && ReadString(text).Read?
    ensures ReadString([c] + text) == Read([c] + ReadString(text).value, ReadString(text).rest)
  {
    assert c != '"' && c != '\\' && c >= ' ';
    Behind([c], text);
    hide Escaped, ReadEscape;
  }

  lemma {:induction false} EscapedStep(c: char, text: string)
    requires Escaped(c) != [c] && ReadString(text).Read?
    ensures ReadString(Escaped(c) + text) == Read([c] + ReadString(text).value, ReadString(text).rest)
  {
    EscapeReads(c, text);
    assert (Escaped(c) + text)[1..] == Escaped(c)[1..] + text;
    hide Escaped, ReadEscape;
  }

  /** A printed string reads back as the string, whatever follows. */
  lemma {:induction false} StringReads(s: string, r: string)
    ensures ReadString(Tail(s) + r) == Read(s, r)
  {
    if s == "" {
      Behind("\"", r);
    } else {
      var c, more := s[0], Tail(s[1..]) + r;
      assert s == [c] + s[1..];
      hide Escaped, ReadString;
      StringReads(s[1..], r);
      Assoc(Escaped(c), Tail(s[1..]), r);
      if Escaped(c) == [c] {
        PlainStep(c, more);
      } else {
        EscapedStep(c, more);
      }
    }
  }

  /** Number tokens are not prefix-free: what follows a value is what delimits them. */
  lemma {:induction false} NumberReads(text: NumberText, r: string)
    requires Ends(r)
    ensures NumberRun(text + r) == |text|
  {
    var n := NumberRun(text + r);
    NumberTextChars(text);
    hide IsNumber;
    assert forall i :: 0 <= i < |text| ==> (text + r)[i] == text[i];
    assert r != "" ==> (text + r)[|text|] == r[0] && !NumberChar(r[0]);
  }

  lemma {:induction false} WordReads(word: string, r: string, v: Value)
    requires word != ""
    ensures ReadWord(word + r, word, v) == Read(v, r)
  {
    Behind(word, r);
  }

  lemma {:induction false} ScalarReads(v: Value, r: string)
    requires Ends(r) && !v.Array? && !v.Object?
    ensures ReadValue(Canon(v) + r) == Read(v, r)
  {
    hide ReadItems, ReadMembers, ReadString, ReadWord, Tail;
    match v
    case Null => WordReads("null", r, Null);
    case Bool(b) => WordReads(if b then "true" else "false", r, Bool(b));
    case Number(text) =>
      NumberTextChars(text);
      NumberReads(text, r);
      hide IsNumber;
      Behind(text, r);
      assert (text + r)[0] == text[0];
    case Str(s) =>
      Assoc("\"", Tail(s), r);
      Behind("\"", Tail(s) + r);
      StringReads(s, r);
  }

  /** No canonical text starts like the end of a list. */
  lemma {:induction false} CanonStarts(v: Value, r: string)
    ensures Canon(v) + r != "" && (Canon(v) + r)[0] == Canon(v)[0]
    ensures Canon(v)[0] != ']' && Canon(v)[0] != ',' && Canon(v)[0] != '}'
  {
    if v.Number? {
      NumberTextChars(v.text);
      hide IsNumber;
    }
  }

  lemma {:induction false} ItemsEnd(v: Value, i: nat, r: string)
    requires v.Array? && 0 < i <= |v.items|
    ensures Ends(ItemsFrom(v, i) + r)
  {
  }

  lemma {:induction false} MembersEnd(v: Value, i: nat, r: string)
    requires v.Object? && 0 < i <= |Keys(v)|
    ensures Ends(MembersFrom(v, i) + r)
  {
  }

  lemma {:induction false} ItemText(v: Value, i: nat, r: string)
    requires v.Array? && i < |v.items|
    ensures ItemsFrom(v, i) + r == Comma(i) + (Canon(v.items[i]) + (ItemsFrom(v, i + 1) + r))
  {
    hide Canon, Comma;
    var c, t := Canon(v.items[i]), ItemsFrom(v, i + 1);
    Assoc(Comma(i), c + t, r);
    Assoc(c, t, r);
  }

  lemma {:induction false} MemberText(v: Value, i: nat, k: string, r: string)
    requires v.Object? && i < |Keys(v)| && Keys(v)[i] == k && k in v.members
    ensures MembersFrom(v, i) + r == Comma(i) + (Quoted(k) + (":" + (Canon(v.members[k]) + (MembersFrom(v, i + 1) + r))))
  {
    hide Canon, Comma, Quoted, Keys;
    var c, t := Canon(v.members[k]), MembersFrom(v, i + 1);
    Assoc(Comma(i), Quoted(k) + (":" + (c + t)), r);
    Assoc(Quoted(k), ":" + (c + t), r);
    Assoc(":", c + t, r);
    Assoc(c, t, r);
  }

  /** The canonical text is a JSON document for the value: in front of anything that can follow a
      value, a reader of RFC 8259 gets the value back and stops where the text ends. */
  lemma {:induction false} CanonReads(v: Value, r: string)
    requires Ends(r)
    ensures ReadValue(Canon(v) + r) == Read(v, r)
    decreases v, Width(v) + 2
  {
    if v.Array? {
      Assoc("[", ItemsFrom(v, 0), r);
      Behind("[", ItemsFrom(v, 0) + r);
      hide ItemsFrom, ReadItems, ReadMembers, ReadString;
      ItemsRead(v, r);
    } else if v.Object? {
      Assoc("{", MembersFrom(v, 0), r);
      Behind("{", MembersFrom(v, 0) + r);
      hide MembersFrom, ReadItems, ReadMembers, ReadString;
      MembersRead(v, r);
    } else {
      ScalarReads(v, r);
    }
  }

  lemma {:induction false} FirstItemText(v: Value, r: string)
    requires v.Array? && v.items != []
    ensures var text := Canon(v.items[0]) + (ItemsFrom(v, 1) + r);
      ItemsFrom(v, 0) + r == text && text != "" && text[0] != ']' && Ends(ItemsFrom(v, 1) + r)
  {
    var item, more := v.items[0], ItemsFrom(v, 1) + r;
    ItemsEnd(v, 1, r);
    hide Canon, ItemsFrom, Ends;
    ItemText(v, 0, r);
    assert Comma(0) + (Canon(item) + more) == Canon(item) + more;
    CanonStarts(item, more);
  }

  lemma {:induction false} FirstItemStep(text: string)
    requires text != "" && text[0] != ']' && ReadValue(text).Read?
    ensures ReadItems(text) == ReadMoreItems(ReadValue(text).rest, [ReadValue(text).value])
  {
    hide ReadValue, ReadMoreItems;
  }

  lemma {:induction false} ItemsRead(v: Value, r: string)
    requires v.Array?
    ensures ReadItems(ItemsFrom(v, 0) + r) == Read(v.items, r)
    decreases v, Width(v) + 1
  {
    if v.items == [] {
      Behind("]", r);
    } else {
      hide *;
      var item, more := v.items[0], ItemsFrom(v, 1) + r;
      FirstItemText(v, r);
      CanonReads(item, more);
      FirstItemStep(Canon(item) + more);
      assert v.items[..1] == [item];
      MoreItemsRead(v, 1, r);
    }
  }

  lemma {:induction false} ItemStep(text: string, before: seq<Value>)
    requires ReadValue(text).Read?
    ensures ReadMoreItems("," + text, before) == ReadMoreItems(ReadValue(text).rest, before + [ReadValue(text).value])
  {
    hide ReadValue;
    Behind(",", text);
  }

  lemma {:induction false} MoreItemsRead(v: Value, i: nat, r: string)
    requires v.Array? && 0 < i <= |v.items|
    ensures ReadMoreItems(ItemsFrom(v, i) + r, v.items[..i]) == Read(v.items, r)
    decreases v, |v.items| - i
  {
    if i == |v.items| {
      Behind("]", r);
      assert v.items[..i] == v.items;
    } else {
      var item, more := v.items[i], ItemsFrom(v, i + 1) + r;
      ItemText(v, i, r);
      ItemsEnd(v, i + 1, r);
      assert Comma(i) == "," && v.items[..i] + [item] == v.items[..i + 1];
      hide *;
      CanonReads(item, more);
      ItemStep(Canon(item) + more, v.items[..i]);
      MoreItemsRead(v, i + 1, r);
    }
  }

  /** The members from the i-th smallest key on, added to what was there. */
  function Added(v: Value, i: nat, before: map<string, Value>): map<string, Value>
    requires v.Object? && i <= |Keys(v)|
    decreases |Keys(v)| - i
  {
    if i == |Keys(v)| then before
    else
      var k := Keys(v)[i];
      assert k in Keys(v);
      Added(v, i + 1, before[k := v.members[k]])
  }

  lemma {:induction false} AddedStep(v: Value, i: nat, before: map<string, Value>)
    requires v.Object? && i < |Keys(v)| && Keys(v)[i] in v.members
    ensures Added(v, i, before) == Added(v, i + 1, before[Keys(v)[i] := v.members[Keys(v)[i]]])
  {
  }

  lemma {:induction false} AddedMeaning(v: Value, i: nat, before: map<string, Value>)
    requires v.Object? && i <= |Keys(v)|
    requires forall k :: k in before ==> k in v.members && before[k] == v.members[k]
    requires forall n :: 0 <= n < i ==> Keys(v)[n] in before
    ensures Added(v, i, before) == v.members
    decreases |Keys(v)| - i
  {
    hide Keys, Ascending;
    if i < |Keys(v)| {
      assert Keys(v)[i] in Keys(v);
      AddedMeaning(v, i + 1, before[Keys(v)[i] := v.members[Keys(v)[i]]]);
    } else {
      forall k ensures k in before <==> k in v.members {
        if k in v.members {
          var n :| 0 <= n < i && Keys(v)[n] == k;
        }
      }
    }
  }

  lemma {:induction false} FirstMemberText(v: Value, r: string)
    requires v.Object? && Keys(v) != [] && Keys(v)[0] in v.members
    ensures var text := Quoted(Keys(v)[0]) + (":" + (Canon(v.members[Keys(v)[0]]) + (MembersFrom(v, 1) + r)));
      MembersFrom(v, 0) + r == text && text != "" && text[0] == '"'
  {
    hide Canon, Keys, Tail;
    MemberText(v, 0, Keys(v)[0], r);
  }

  lemma {:induction false} MembersRead(v: Value, r: string)
    requires v.Object?
    ensures ReadMembers(MembersFrom(v, 0) + r) == Read(v.members, r)
    decreases v, Width(v) + 1
  {
    AddedMeaning(v, 0, map[]);
    if Keys(v) == [] {
      Behind("}", r);
    } else {
      assert Keys(v)[0] in Keys(v);
      hide MembersFrom, Canon, Keys, Quoted, ReadMember, Added, Ascending;
      FirstMemberText(v, r);
      MemberReads(v, 0, map[], r);
    }
  }

  /** A printed key, a colon and a readable value make a member. */
  lemma {:induction false} MemberStep(k: string, value: string, before: map<string, Value>)
    requires ReadValue(value).Read?
    ensures ReadMember(Quoted(k) + (":" + value), before)
         == ReadMoreMembers(ReadValue(value).rest, before[k := ReadValue(value).value])
  {
    StringReads(k, ":" + value);
    hide ReadValue, ReadMoreMembers, ReadString, Tail;
    Assoc("\"", Tail(k), ":" + value);
    Behind("\"", Tail(k) + (":" + value));
    Behind(":", value);
  }

  /** One member and everything after it. */
  lemma {:induction false} MemberReads(v: Value, i: nat, before: map<string, Value>, r: string)
    requires v.Object? && i < |Keys(v)| && Keys(v)[i] in v.members
    ensures ReadMember(Quoted(Keys(v)[i]) + (":" + (Canon(v.members[Keys(v)[i]]) + (MembersFrom(v, i + 1) + r))), before)
         == Read(Added(v, i, before), r)
    decreases v, |Keys(v)| - i, 1
  {
    var k := Keys(v)[i];
    hide *;
    var more := MembersFrom(v, i + 1) + r;
    MembersEnd(v, i + 1, r);
    AddedStep(v, i, before);
    CanonReads(v.members[k], more);
    MemberStep(k, Canon(v.members[k]) + more, before);
    MoreMembersRead(v, i + 1, before[k := v.members[k]], r);
  }

  lemma {:induction false} MoreMembersRead(v: Value, i: nat, before: map<string, Value>, r: string)
    requires v.Object? && 0 < i <= |Keys(v)|
    ensures ReadMoreMembers(MembersFrom(v, i) + r, before) == Read(Added(v, i, before), r)
    decreases v, |Keys(v)| - i, 2
  {
    if i == |Keys(v)| {
      Behind("}", r);
    } else {
      var k := Keys(v)[i];
      assert k in Keys(v);
      MemberText(v, i, k, r);
      Behind(",", Quoted(k) + (":" + (Canon(v.members[k]) + (MembersFrom(v, i + 1) + r))));
      hide MembersFrom, Canon, Keys, Quoted, ReadMember, Added, Ascending;
      MemberReads(v, i, before, r);
    }
  }

  /** Unique reading: in front of anything that can follow a value, two canonical texts agree only
      when they name the same value. */
  lemma {:induction false} UniqueReading(a: Value, b: Value, r: string, q: string)
    requires Canon(a) + r == Canon(b) + q && Ends(r) && Ends(q)
    ensures a == b && r == q
  {
    hide Canon, Ends, ReadValue;
    CanonReads(a, r);
    CanonReads(b, q);
  }

  /** Faithful: two values have the same canonical text exactly when they are the same value. */
  lemma {:induction false} CanonFaithful(a: Value, b: Value)
    ensures Canon(a) == Canon(b) <==> a == b
  {
    if Canon(a) == Canon(b) {
      assert Canon(a) + "" == Canon(a) && Canon(b) + "" == Canon(b);
      UniqueReading(a, b, "", "");
    }
  }

  // ----- the printer

  /** The text being built. */
  class Buffer {
    var text: string

    constructor ()
      ensures text == ""
    {
      text := "";
    }

    method Push(s: string)
      modifies this
      ensures text == old(text) + s
    {
      text := text + s;
    }
  }

  method Canonicalize(v: Value) returns (text: string)
    ensures text == Canon(v)
  {
    var out := new Buffer();
    WriteCanonical(v, out);
    text := out.text;
  }

  method WriteCanonical(v: Value, out: Buffer)
    modifies out
    ensures out.text == old(out.text) + Canon(v)
    decreases v, 1
  {
    match v
    case Null => out.Push("null");
    case Bool(b) => out.Push(if b then "true" else "false");
    case Number(text) => out.Push(text);
    case Str(s) => out.Push(Quoted(s));
    case Array(_) => WriteItems(v, out);
    case Object(_) => WriteMembers(v, out);
  }

  method WriteItems(v: Value, out: Buffer)
    requires v.Array?
    modifies out
    ensures out.text == old(out.text) + Canon(v)
    decreases v, 0, 1
  {
    assert Canon(v) == "[" + ItemsFrom(v, 0);
    hide *;
    Assoc(out.text, "[", ItemsFrom(v, 0));
    out.Push("[");
    for i := 0 to |v.items|
      invariant out.text + ItemsFrom(v, i) == old(out.text) + Canon(v)
    {
      WriteItem(v, i, out);
    }
    NoMoreItems(v);
    out.Push("]");
  }

  lemma {:induction false} NoMoreItems(v: Value)
    requires v.Array?
    ensures ItemsFrom(v, |v.items|) == "]"
  {
  }

  /** One turn of the loop over the items. */
  method WriteItem(v: Value, i: nat, out: Buffer)
    requires v.Array? && i < |v.items|
    modifies out
    ensures out.text + ItemsFrom(v, i + 1) == old(out.text) + ItemsFrom(v, i)
    decreases v, 0, 0
  {
    hide Canon;
    ghost var was := out.text;
    if i > 0 {
      out.Push(",");
    }
    assert out.text == was + Comma(i);
    WriteCanonical(v.items[i], out);
    Assoc(was + Comma(i), Canon(v.items[i]), ItemsFrom(v, i + 1));
    Assoc(was, Comma(i), Canon(v.items[i]) + ItemsFrom(v, i + 1));
  }

  method WriteMembers(v: Value, out: Buffer)
    requires v.Object?
    modifies out
    ensures out.text == old(out.text) + Canon(v)
    decreases v, 0, 1
  {
    var sorted := Keys(v);
    assert Canon(v) == "{" + MembersFrom(v, 0);
    hide *;
    Assoc(out.text, "{", MembersFrom(v, 0));
    out.Push("{");
    for i := 0 to |sorted|
      invariant sorted == Keys(v) && out.text + MembersFrom(v, i) == old(out.text) + Canon(v)
    {
      WriteMember(v, i, sorted[i], out);
    }
    NoMoreMembers(v);
    out.Push("}");
  }

  lemma {:induction false} NoMoreMembers(v: Value)
    requires v.Object?
    ensures MembersFrom(v, |Keys(v)|) == "}"
  {
  }

  /** One turn of the loop over the sorted members. */
  method WriteMember(v: Value, i: nat, k: string, out: Buffer)
    requires v.Object? && i < |Keys(v)| && Keys(v)[i] == k
    modifies out
    ensures out.text + MembersFrom(v, i + 1) == old(out.text) + MembersFrom(v, i)
    decreases v, 0, 0
  {
    assert k in Keys(v);
    hide Canon, Keys, Quoted;
    ghost var was := out.text;
    if i > 0 {
      out.Push(",");
    }
    assert out.text == was + Comma(i);
    out.Push(Quoted(k));
    out.Push(":");
    WriteCanonical(v.members[k], out);
    assert out.text == was + Comma(i) + Quoted(k) + ":" + Canon(v.members[k]);
    FiveParts(was, Comma(i), Quoted(k), Canon(v.members[k]), MembersFrom(v, i + 1));
  }

  lemma {:induction false} FiveParts(was: string, comma: string, key: string, value: string, more: string)
    ensures was + comma + key + ":" + value + more == was + (comma + (key + (":" + (value + more))))
  {
    Assoc(was + comma + key + ":", value, more);
    Assoc(was + comma + key, ":", value + more);
    Assoc(was + comma, key, ":" + (value + more));
    Assoc(was, comma, key + (":" + (value + more)));
  }
}
