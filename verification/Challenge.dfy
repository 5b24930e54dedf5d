/** Reading the parameters of Bearer challenges out of a WWW-Authenticate field value. */
module Challenge {
  import opened Basics

  datatype AuthError = InvalidChallenge

  datatype Parameter = Parameter(name: string, value: string)

  // ----- characters

  predicate White(c: char) {
    ('\t' <= c <= '\r') || c == ' ' || c == '\U{0085}' || c == '\U{00A0}' || c == '\U{1680}'
    || ('\U{2000}' <= c <= '\U{200A}') || c == '\U{2028}' || c == '\U{2029}' || c == '\U{202F}'
    || c == '\U{205F}' || c == '\U{3000}'
  }

  predicate Control(c: char) {
    c < ' ' || ('\U{007F}' <= c <= '\U{009F}')
  }

  predicate Ascii(c: char) {
    c < '\U{0080}'
  }

  predicate AlphaNumeric(c: char) {
    ('a' <= c <= 'z') || ('A' <= c <= 'Z') || ('0' <= c <= '9')
  }

  predicate NameChar(c: char) {
    AlphaNumeric(c) || c == '-' || c == '_'
  }

  predicate SchemeChar(c: char) {
    NameChar(c) || c == '.'
  }

  /** Printable ASCII other than the separators of the grammar. */
  predicate BareChar(c: char) {
    '!' <= c <= '~' && c != ',' && c != '"'
  }

  /** The character classes by code point. */
  lemma {:induction false} ClassesAre(c: char)
    ensures White(c) <==>
      9 <= c as int <= 13 || 8192 <= c as int <= 8202
      || c as int in {32, 133, 160, 5760, 8232, 8233, 8239, 8287, 12288}
    ensures Control(c) <==> c as int < 32 || 127 <= c as int < 160
    ensures Ascii(c) <==> c as int < 128
    ensures NameChar(c) <==>
      48 <= c as int <= 57 || 65 <= c as int <= 90 || 97 <= c as int <= 122 || c as int in {45, 95}
    ensures SchemeChar(c) <==> NameChar(c) || c as int == 46
    ensures BareChar(c) <==> 33 <= c as int <= 126 && c as int != 34 && c as int != 44
  {
    assert c == (c as int) as char;
  }

  predicate AllOf(s: string, p: char -> bool) {
    forall i :: 0 <= i < |s| ==> p(s[i])
  }

  function TrimStart(s: string): string {
    if s != "" && White(s[0]) then TrimStart(s[1..]) else s
  }

  function TrimEnd(s: string): string {
    if s != "" && White(s[|s| - 1]) then TrimEnd(s[..|s| - 1]) else s
  }

  function Trim(s: string): string {
    TrimEnd(TrimStart(s))
  }

  // ----- quoting state and the cut at unquoted commas

  datatype Lex = Lex(quoted: bool, escaped: bool)

  const OPEN := Lex(false, false)

  function LexStep(l: Lex, c: char): Lex {
    if l.escaped then Lex(l.quoted, false)
    else if c == '\\' && l.quoted then Lex(true, true)
    else if c == '"' then Lex(!l.quoted, false)
    else l
  }

  function LexAfter(l: Lex, s: string): Lex {
    if s == "" then l else LexStep(LexAfter(l, s[..|s| - 1]), s[|s| - 1])
  }

  /** One more character: a comma in the open state starts a new piece. */
  function Extended(ps: seq<string>, before: Lex, c: char): (r: seq<string>)
    requires ps != []
    ensures r != []
  {
    if c == ',' && before == OPEN then ps + [""] else ps[..|ps| - 1] + [ps[|ps| - 1] + [c]]
  }

  /** The pieces between the commas that no quoted string encloses. */
  function Pieces(s: string): (ps: seq<string>)
    ensures ps != []
  {
    if s == "" then [""]
    else Extended(Pieces(s[..|s| - 1]), LexAfter(OPEN, s[..|s| - 1]), s[|s| - 1])
  }

  lemma {:induction false} Snoc(s: string, c: char)
    ensures LexAfter(OPEN, s + [c]) == LexStep(LexAfter(OPEN, s), c)
    ensures Pieces(s + [c]) == Extended(Pieces(s), LexAfter(OPEN, s), c)
  {
    assert (s + [c])[..|s|] == s;
  }

  lemma {:induction false} ExtendedConcat(x: seq<string>, y: seq<string>, before: Lex, c: char)
    requires y != []
    ensures Extended(x + y, before, c) == x + Extended(y, before, c)
  {
    assert (x + y)[..|x + y| - 1] == x + y[..|y| - 1];
  }

  /** One turn of the scan: what the next character does to the quoting state and the pieces. */
  lemma {:induction false} ScanStep(value: string, index: nat, start: nat, parts: seq<string>)
    requires start <= index < |value| && Pieces(value[..index]) == parts + [value[start..index]]
    ensures LexAfter(OPEN, value[..index + 1]) == LexStep(LexAfter(OPEN, value[..index]), value[index])
    ensures Pieces(value[..index + 1]) == (
      if value[index] == ',' && LexAfter(OPEN, value[..index]) == OPEN
      then parts + [value[start..index]] + [value[index + 1..index + 1]]
      else parts + [value[start..index + 1]])
  {
    hide Pieces, LexAfter, LexStep;
    var c, before := value[index], value[..index];
    assert value[..index + 1] == before + [c] && value[start..index + 1] == value[start..index] + [c];
    Snoc(before, c);
    ExtendedConcat(parts, [value[start..index]], LexAfter(OPEN, before), c);
    LastExtended(value[start..index], LexAfter(OPEN, before), c);
    assert value[index + 1..index + 1] == "";
    assert parts + [value[start..index], ""] == parts + [value[start..index]] + [""];
  }

  method SplitQuoted(value: string) returns (r: Result<seq<string>, AuthError>)
    ensures r == if LexAfter(OPEN, value) == OPEN then Ok(Pieces(value)) else Err(InvalidChallenge)
  {
    var parts: seq<string> := [];
    var start := 0;
    var quoted, escaped := false, false;
    assert value[..0] == "" && value[0..0] == "" && Pieces("") == [""] && LexAfter(OPEN, "") == OPEN;
    hide Pieces, LexAfter;
    for index := 0 to |value|
      invariant 0 <= start <= index
      invariant LexAfter(OPEN, value[..index]) == Lex(quoted, escaped) && (escaped ==> quoted)
      invariant Pieces(value[..index]) == parts + [value[start..index]]
    {
      var byte := value[index];
      ScanStep(value, index, start, parts);
      if escaped {
        escaped := false;
      } else if byte == '\\' && quoted {
        escaped := true;
      } else if byte == '"' {
        quoted := !quoted;
      } else if byte == ',' && !quoted {
        parts := parts + [value[start..index]];
        start := index + 1;
      }
    }
    assert value[..|value|] == value;
    if quoted || escaped {
      return Err(InvalidChallenge);
    }
    parts := parts + [value[start..]];
    r := Ok(parts);
  }

  lemma {:induction false} LastExtended(p: string, before: Lex, c: char)
    ensures Extended([p], before, c) == if c == ',' && before == OPEN then [p, ""] else [p + [c]]
  {
  }

  function Joined(ps: seq<string>): string {
    if ps == [] then ""
    else if |ps| == 1 then ps[0]
    else Joined(ps[..|ps| - 1]) + "," + ps[|ps| - 1]
  }

  /** No comma of the piece stands outside quotes. */
  predicate Uncut(p: string) {
    forall i :: 0 <= i < |p| && p[i] == ',' ==> LexAfter(OPEN, p[..i]) != OPEN
  }

  lemma {:induction false} LexConcat(l: Lex, a: string, b: string)
    ensures LexAfter(l, a + b) == LexAfter(LexAfter(l, a), b)
  {
    if b == "" {
      assert a + b == a;
    } else {
      assert (a + b)[..|a + b| - 1] == a + b[..|b| - 1];
      LexConcat(l, a, b[..|b| - 1]);
    }
  }

  lemma {:induction false} JoinedLonger(ps: seq<string>, c: char)
    requires ps != []
    ensures Joined(ps[..|ps| - 1] + [ps[|ps| - 1] + [c]]) == Joined(ps) + [c]
    ensures Joined(ps + [""]) == Joined(ps) + ","
  {
    var longer := ps[..|ps| - 1] + [ps[|ps| - 1] + [c]];
    assert longer[..|longer| - 1] == ps[..|ps| - 1];
    assert (ps + [""])[..|ps|] == ps;
  }

  lemma {:induction false} UncutGrows(p: string, c: char)
    requires Uncut(p) && !(c == ',' && LexAfter(OPEN, p) == OPEN)
    ensures Uncut(p + [c])
  {
    hide LexAfter;
    var grown := p + [c];
    assert grown[..|p|] == p;
    forall i | 0 <= i < |grown| && grown[i] == ',' ensures LexAfter(OPEN, grown[..i]) != OPEN {
      assert grown[..i] == p[..i];
    }
  }

  lemma {:induction false} ExtendedHas(ps: seq<string>, before: Lex, c: char, q: string)
    requires ps != [] && q in Extended(ps, before, c)
    ensures q in ps || (if c == ',' && before == OPEN then q == "" else q == ps[|ps| - 1] + [c])
  {
    var n := |ps| - 1;
    assert forall p :: p in ps[..n] ==> p in ps;
  }

  lemma {:induction false} UncutPieces(before: string, c: char, p: string)
    requires (forall q :: q in Pieces(before) ==> Uncut(q)) && p in Pieces(before + [c])
    requires LexAfter(OPEN, Pieces(before)[|Pieces(before)| - 1]) == LexAfter(OPEN, before)
    ensures Uncut(p)
  {
    assert Uncut("");
    hide Pieces, LexAfter, Uncut;
    var ps := Pieces(before);
    var last := ps[|ps| - 1];
    Snoc(before, c);
    ExtendedHas(ps, LexAfter(OPEN, before), c, p);
    assert last in ps;
    if p == last + [c] && !(c == ',' && LexAfter(OPEN, before) == OPEN) {
      UncutGrows(last, c);
    }
  }

  lemma {:induction false} RejoinedLonger(before: string, c: char)
    requires Joined(Pieces(before)) == before
    requires LexAfter(OPEN, Pieces(before)[|Pieces(before)| - 1]) == LexAfter(OPEN, before)
    ensures Joined(Pieces(before + [c])) == before + [c]
    ensures LexAfter(OPEN, Pieces(before + [c])[|Pieces(before + [c])| - 1]) == LexAfter(OPEN, before + [c])
  {
    assert LexAfter(OPEN, "") == OPEN;
    hide Pieces, LexAfter, Joined;
    var ps := Pieces(before);
    Snoc(before, c);
    JoinedLonger(ps, c);
    Snoc(ps[|ps| - 1], c);
  }

  /** The pieces rejoin to the input, and none of them hides an unquoted comma. */
  lemma {:induction false} PiecesRejoin(s: string)
    ensures Joined(Pieces(s)) == s
    ensures forall p :: p in Pieces(s) ==> Uncut(p)
    ensures LexAfter(OPEN, Pieces(s)[|Pieces(s)| - 1]) == LexAfter(OPEN, s)
  {
    if s != "" {
      hide *;
      var before, c := s[..|s| - 1], s[|s| - 1];
      assert s == before + [c];
      PiecesRejoin(before);
      RejoinedLonger(before, c);
      forall p | p in Pieces(s) ensures Uncut(p) {
        UncutPieces(before, c, p);
      }
    } else {
      assert Joined([""]) == "";
    }
  }

  lemma {:induction false} UncutIsOnePiece(p: string)
    requires Uncut(p)
    ensures Pieces(p) == [p]
  {
    if p != "" {
      var before := p[..|p| - 1];
      forall i | 0 <= i < |before| && before[i] == ',' ensures LexAfter(OPEN, before[..i]) != OPEN {
        assert before[..i] == p[..i];
      }
      UncutIsOnePiece(before);
      assert p == before + [p[|p| - 1]];
    }
  }

  /** A comma outside quotes separates what stands before it from what follows. */
  lemma {:induction false} PiecesAtComma(a: string, b: string)
    requires LexAfter(OPEN, a) == OPEN
    ensures Pieces(a + "," + b) == Pieces(a) + Pieces(b)
    ensures LexAfter(OPEN, a + "," + b) == LexAfter(OPEN, b)
  {
    if b == "" {
      assert a + "," + b == a + [','];
      Snoc(a, ',');
    } else {
      var shorter, c := b[..|b| - 1], b[|b| - 1];
      PiecesAtComma(a, shorter);
      hide Pieces, LexAfter, Extended;
      assert a + "," + b == (a + "," + shorter) + [c] && b == shorter + [c];
      Snoc(a + "," + shorter, c);
      Snoc(shorter, c);
      ExtendedConcat(Pieces(a), Pieces(shorter), LexAfter(OPEN, shorter), c);
    }
  }

  /** Exactly at unquoted commas: pieces without one, each with its quotes closed, come back as they
      were joined. */
  lemma {:induction false} JoinedSplits(ps: seq<string>)
    requires ps != [] && forall p :: p in ps ==> Uncut(p) && LexAfter(OPEN, p) == OPEN
    ensures Pieces(Joined(ps)) == ps && LexAfter(OPEN, Joined(ps)) == OPEN
  {
    var n := |ps| - 1;
    assert ps == ps[..n] + [ps[n]];
    UncutIsOnePiece(ps[n]);
    if n > 0 {
      JoinedSplits(ps[..n]);
      PiecesAtComma(Joined(ps[..n]), ps[n]);
    }
  }

  // ----- one parameter

  /** Position of the first character that satisfies `p`; the length when there is none. */
  function Find(s: string, p: char -> bool): (n: nat)
    ensures n <= |s| && (n < |s| ==> p(s[n])) && forall i :: 0 <= i < n ==> !p(s[i])
  {
    if s == "" || p(s[0]) then 0 else 1 + Find(s[1..], p)
  }

  function Unescaped(value: string): Result<string, AuthError> {
    if value == "" then Ok("")
    else if value[0] == '\\' then
      if |value| == 1 || !Ascii(value[1]) then Err(InvalidChallenge)
      else
        match Unescaped(value[2..])
        case Err(e) => Err(e)
        case Ok(rest) => Ok([value[1]] + rest)
    else if Control(value[0]) then Err(InvalidChallenge)
    else
      match Unescaped(value[1..])
      case Err(e) => Err(e)
      case Ok(rest) => Ok([value[0]] + rest)
  }

  function Prepended(done: string, r: Result<string, AuthError>): Result<string, AuthError> {
    if r.Err? then r else Ok(done + r.value)
  }

  method UnescapeQuoted(value: string) returns (r: Result<string, AuthError>)
    ensures r == Unescaped(value)
  {
    var result := "";
    var i := 0;
    assert value[0..] == value;
    PrependedNothing(Unescaped(value));
    while i < |value|
      invariant i <= |value| && Unescaped(value) == Prepended(result, Unescaped(value[i..]))
    {
      var character := value[i];
      assert value[i..][1..] == value[i + 1..];
      if character == '\\' {
        if i + 1 == |value| || !Ascii(value[i + 1]) {
          return Err(InvalidChallenge);
        }
        assert value[i..][2..] == value[i + 2..];
        PrependedTwice(result, value[i + 1], Unescaped(value[i + 2..]));
        result := result + [value[i + 1]];
        i := i + 2;
      } else if Control(character) {
        return Err(InvalidChallenge);
      } else {
        PrependedTwice(result, character, Unescaped(value[i + 1..]));
        result := result + [character];
        i := i + 1;
      }
    }
    assert value[i..] == "" && result + "" == result;
    r := Ok(result);
  }

  lemma {:induction false} PrependedNothing(r: Result<string, AuthError>)
    ensures Prepended("", r) == r
  {
    if r.Ok? {
      assert "" + r.value == r.value;
    }
  }

  lemma {:induction false} PrependedTwice(done: string, c: char, r: Result<string, AuthError>)
    ensures Prepended(done + [c], r) == Prepended(done, Prepended([c], r))
  {
    if r.Ok? {
      assert done + [c] + r.value == done + ([c] + r.value);
    }
  }

  function QuotedValue(raw: string): Result<string, AuthError>
    requires raw != "" && raw[0] == '"'
  {
    if |raw| < 2 || raw[|raw| - 1] != '"' then Err(InvalidChallenge) else Unescaped(raw[1..|raw| - 1])
  }

  function ParsedValue(raw: string): Result<string, AuthError> {
    if raw != "" && raw[0] == '"' then QuotedValue(raw)
    else if raw == "" || !AllOf(raw, BareChar) then Err(InvalidChallenge)
    else Ok(raw)
  }

  predicate IsEquals(c: char) {
    c == '='
  }

  function ParseParameter(segment: string): Result<Parameter, AuthError> {
    var n := Find(segment, IsEquals);
    if n == |segment| then Err(InvalidChallenge)
    else
      var name := Lower(Trim(segment[..n]));
      if name == "" || !AllOf(name, NameChar) then Err(InvalidChallenge)
      else
        match ParsedValue(Trim(segment[n + 1..]))
        case Err(e) => Err(e)
        case Ok(value) => Ok(Parameter(name, value))
  }

  // ----- one segment

  /** The scheme a segment opens, if it does, and what remains after it. */
  function PossibleScheme(segment: string): (Option<string>, string) {
    var end := Find(segment, White);
    var first := segment[..end];
    if '=' in first then (None, segment)
    else if AllOf(first, SchemeChar) then (Some(first), segment[end..])
    else (None, segment)
  }

  datatype Scan = Scan(bearer: bool, found: bool, parameters: seq<Parameter>)

  const BEFORE_ALL := Scan(false, false, [])

  function Added(st: Scan, segment: string): Result<Scan, AuthError> {
    match ParseParameter(segment)
    case Err(e) => Err(e)
    case Ok(p) => Ok(st.(parameters := st.parameters + [p]))
  }

  function ScanOne(st: Scan, raw: string): Result<Scan, AuthError> {
    var segment := Trim(raw);
    if segment == "" then Ok(st)
    else
      var (scheme, remainder) := PossibleScheme(segment);
      if scheme.Some? then
        if Lower(scheme.value) == "bearer" then
          var entered := st.(bearer := true, found := true);
          if Trim(remainder) == "" then Ok(entered) else Added(entered, Trim(remainder))
        else Ok(st.(bearer := false))
      else if st.bearer then Added(st, segment)
      else Ok(st)
  }

  function ScanAll(st: Scan, segments: seq<string>): Result<Scan, AuthError> {
    if segments == [] then Ok(st)
    else
      match ScanAll(st, segments[..|segments| - 1])
      case Err(e) => Err(e)
      case Ok(next) => ScanOne(next, segments[|segments| - 1])
  }

  /** The parameters of the Bearer challenges of one field value; nothing when there is no such challenge. */
  function BearerSpec(value: string): Result<Option<seq<Parameter>>, AuthError> {
    if LexAfter(OPEN, value) != OPEN then Err(InvalidChallenge)
    else
      match ScanAll(BEFORE_ALL, Pieces(value))
      case Err(e) => Err(e)
      case Ok(st) => Ok(if st.found then Some(st.parameters) else None)
  }

  method BearerParameters(value: string) returns (r: Result<Option<seq<Parameter>>, AuthError>)
    ensures r == BearerSpec(value)
  {
    hide Pieces, LexAfter, ScanOne;
    var split := SplitQuoted(value);
    if split.Err? {
      return Err(split.error);
    }
    var segments := split.value;
    var currentIsBearer, found := false, false;
    var parameters: seq<Parameter> := [];
    for i := 0 to |segments|
      invariant ScanAll(BEFORE_ALL, segments[..i]) == Ok(Scan(currentIsBearer, found, parameters))
    {
      ghost var st := Scan(currentIsBearer, found, parameters);
      ScanSnoc(segments, i);
      ScanCases(st, segments[i]);
      var segment := Trim(segments[i]);
      if segment != "" {
        var (scheme, remainder) := PossibleScheme(segment);
        if scheme.Some? {
          currentIsBearer := Lower(scheme.value) == "bearer";
          if currentIsBearer {
            found := true;
            if Trim(remainder) != "" {
              var parameter := ParseParameter(Trim(remainder));
              if parameter.Err? {
                FailureStays(segments, i + 1);
                return Err(parameter.error);
              }
              parameters := parameters + [parameter.value];
            }
          }
        } else if currentIsBearer {
          var parameter := ParseParameter(segment);
          if parameter.Err? {
            FailureStays(segments, i + 1);
            return Err(parameter.error);
          }
          parameters := parameters + [parameter.value];
        }
      }
    }
    assert segments[..|segments|] == segments;
    r := Ok(if found then Some(parameters) else None);
  }

  lemma {:induction false} ScanSnoc(segments: seq<string>, i: nat)
    requires i < |segments| && ScanAll(BEFORE_ALL, segments[..i]).Ok?
    ensures ScanAll(BEFORE_ALL, segments[..i + 1]) == ScanOne(ScanAll(BEFORE_ALL, segments[..i]).value, segments[i])
  {
    assert segments[..i + 1][..i] == segments[..i];
  }

  /** What one segment does, case by case. */
  lemma {:induction false} ScanCases(st: Scan, raw: string)
    ensures var segment := Trim(raw);
      var (scheme, remainder) := PossibleScheme(segment);
      ScanOne(st, raw) == (
        if segment == "" then Ok(st)
        else if scheme.Some? && Lower(scheme.value) == "bearer" then
          (if Trim(remainder) == "" then Ok(Scan(true, true, st.parameters))
           else Added(Scan(true, true, st.parameters), Trim(remainder)))
        else if scheme.Some? then Ok(Scan(false, st.found, st.parameters))
        else if st.bearer then Added(st, segment)
        else Ok(st))
  {
  }

  lemma {:induction false} FailureStays(segments: seq<string>, k: nat)
    requires k <= |segments| && ScanAll(BEFORE_ALL, segments[..k]).Err?
    ensures ScanAll(BEFORE_ALL, segments) == ScanAll(BEFORE_ALL, segments[..k])
  {
    if k == |segments| {
      assert segments[..k] == segments;
    } else {
      var shorter := segments[..|segments| - 1];
      assert shorter[..k] == segments[..k];
      FailureStays(shorter, k);
    }
  }

  // ----- printed challenges

  /** One character of a quoted string: as it is, or behind a backslash. */
  datatype Piece = Plain(c: char) | Pair(c: char)

  datatype Value = Bare(token: string) | Quoted(pieces: seq<Piece>)

  /** A parameter between optional white space; `before` and `after` are the white space around its
      equals sign. */
  datatype Param = Param(lead: string, name: string, before: string, after: string, value: Value, trail: string)

  /** White space, the scheme, its parameters; `token68`, with the white space before it, and `trail`
      follow a scheme that has none. */
  datatype Printed = Printed(lead: string, scheme: string, params: seq<Param>, token68: string, trail: string)

  /** The characters of a token, section 5.6.2 of RFC 9110. */
  predicate TokenChar(c: char) {
    AlphaNumeric(c) || c == '!' || ('#' <= c <= '\'') || c == '*' || c == '+' || c == '-' || c == '.'
    || ('^' <= c <= '`') || c == '|' || c == '~'
  }

  predicate Token(s: string) {
    s != "" && AllOf(s, TokenChar)
  }

  function PieceText(p: Piece): string {
    match p
    case Plain(c) => [c]
    case Pair(c) => ['\\', c]
  }

  function Raw(ps: seq<Piece>): string {
    if ps == [] then "" else PieceText(ps[0]) + Raw(ps[1..])
  }

  /** The value that a quoted string stands for. */
  function Meaning(ps: seq<Piece>): string {
    if ps == [] then "" else [ps[0].c] + Meaning(ps[1..])
  }

  function ValueText(v: Value): string {
    match v
    case Bare(token) => token
    case Quoted(pieces) => "\"" + Raw(pieces) + "\""
  }

  function Meant(p: Param): Parameter {
    Parameter(Lower(p.name), if p.value.Bare? then p.value.token else Meaning(p.value.pieces))
  }

  /** What follows the name. */
  function Assigned(p: Param): string {
    p.before + ("=" + (p.after + ValueText(p.value)))
  }

  function Body(p: Param): string {
    p.name + Assigned(p)
  }

  /** Quotes and backslashes only behind a backslash. */
  predicate Quotable(p: Piece) {
    p.Plain? ==> p.c != '"' && p.c != '\\'
  }

  predicate WellFormedValue(v: Value) {
    match v
    case Bare(token) => Token(token)
    case Quoted(pieces) => forall i :: 0 <= i < |pieces| ==> Quotable(pieces[i])
  }

  predicate WellFormed(p: Param) {
    && AllOf(p.lead, White) && AllOf(p.before, White) && AllOf(p.after, White) && AllOf(p.trail, White)
    && Token(p.name)
    && WellFormedValue(p.value)
  }

  /** Text without quotes or backslashes leaves the scan open and, without commas, uncut. */
  predicate Calm(s: string) {
    forall i :: 0 <= i < |s| ==> s[i] != '"' && s[i] != '\\' && s[i] != ','
  }

  predicate IsBearer(ch: Printed) {
    Lower(ch.scheme) == "bearer"
  }

  predicate WellFormedToken68(s: string)
    requires s != ""
  {
    White(s[0]) && !White(s[|s| - 1]) && Calm(s)
  }

  /** A challenge as section 11.3 of RFC 9110 writes it, with any white space where some is allowed; a Bearer
      challenge has parameters and no token68. */
  predicate WellPrinted(ch: Printed) {
    && AllOf(ch.lead, White) && AllOf(ch.trail, White)
    && Token(ch.scheme)
    && (forall i :: 0 <= i < |ch.params| ==> WellFormed(ch.params[i]))
    && (ch.params != [] ==> ch.params[0].lead != "")
    && (ch.token68 != "" ==> !IsBearer(ch) && WellFormedToken68(ch.token68))
  }

  function ParamSegment(p: Param): string {
    p.lead + (Body(p) + p.trail)
  }

  /** The list elements of one challenge: the scheme goes with the first parameter. */
  function Segments(ch: Printed): seq<string> {
    if ch.params == [] then [ch.lead + ((ch.scheme + ch.token68) + ch.trail)]
    else
      [ch.lead + ((ch.scheme + (ch.params[0].lead + Body(ch.params[0]))) + ch.params[0].trail)]
      + seq(|ch.params| - 1, i requires 0 <= i < |ch.params| - 1 => ParamSegment(ch.params[i + 1]))
  }

  function AllSegments(chs: seq<Printed>): seq<string> {
    if chs == [] then [] else AllSegments(chs[..|chs| - 1]) + Segments(chs[|chs| - 1])
  }

  /** The list elements that are not blank; a list may have blank ones anywhere. */
  function Filled(elements: seq<string>): seq<string> {
    if elements == [] then []
    else
      var last := elements[|elements| - 1];
      Filled(elements[..|elements| - 1]) + if AllOf(last, White) then [] else [last]
  }

  function Carried(params: seq<Param>): seq<Parameter> {
    if params == [] then [] else Carried(params[..|params| - 1]) + [Meant(params[|params| - 1])]
  }

  /** The parameters of all Bearer challenges, in order. */
  function BearerParams(chs: seq<Printed>): seq<Parameter> {
    if chs == [] then []
    else
      var last := chs[|chs| - 1];
      BearerParams(chs[..|chs| - 1]) + if IsBearer(last) then Carried(last.params) else []
  }

  // ----- what the parser makes of them

  /** No bare control character, and a backslash only before ASCII. */
  predicate Readable(ps: seq<Piece>) {
    forall i :: 0 <= i < |ps| ==> (if ps[i].Plain? then !Control(ps[i].c) else Ascii(ps[i].c))
  }

  /** The name has no token character beyond letters, digits, `-` and `_`, and the value is readable. */
  predicate Sound(p: Param) {
    AllOf(p.name, NameChar) && (p.value.Quoted? ==> Readable(p.value.pieces))
  }

  /** As a further parameter, this one is taken for a scheme and ends the challenge. */
  predicate Diverts(p: Param) {
    p.before != "" && AllOf(p.name, SchemeChar)
  }

  /** As a further parameter, this one is taken for a Bearer challenge without a parameter name. */
  predicate Fatal(p: Param) {
    p.before != "" && Lower(p.name) == "bearer"
  }

  /** How many of the first `k` parameters come before the first further one that is taken for a scheme. */
  function Reached(params: seq<Param>, k: nat): (n: nat)
    requires k <= |params|
    ensures n <= k
  {
    if k <= 1 then k
    else
      var n := Reached(params, k - 1);
      if n == k - 1 && !Diverts(params[k - 1]) then k else n
  }

  /** Among the first `k` parameters one makes the parser refuse the field. */
  predicate Spoiled(params: seq<Param>, k: nat, bearer: bool)
    requires k <= |params|
  {
    exists i :: 0 <= i < k && ((0 < i && Fatal(params[i])) || (bearer && i < Reached(params, k) && !Sound(params[i])))
  }

  /** The whole challenge is a Bearer challenge, and none of its parameters was taken for a scheme. */
  predicate BearerToTheEnd(ch: Printed) {
    IsBearer(ch) && Reached(ch.params, |ch.params|) == |ch.params|
  }

  /** The scheme has a token character that the parser does not expect in one. */
  predicate Unknown(ch: Printed) {
    !AllOf(ch.scheme, SchemeChar)
  }

  predicate RefusedAt(chs: seq<Printed>, k: nat)
    requires k < |chs|
  {
    || Spoiled(chs[k].params, |chs[k].params|, IsBearer(chs[k]))
    || (Unknown(chs[k]) && 0 < k && BearerToTheEnd(chs[k - 1]))
  }

  predicate Refused(chs: seq<Printed>) {
    exists k :: 0 <= k < |chs| && RefusedAt(chs, k)
  }

  /** The parameters the parser reaches in a challenge. */
  function ReadOf(ch: Printed): seq<Parameter> {
    if IsBearer(ch) then Carried(ch.params[..Reached(ch.params, |ch.params|)]) else []
  }

  function ReadParams(chs: seq<Printed>): seq<Parameter> {
    if chs == [] then [] else ReadParams(chs[..|chs| - 1]) + ReadOf(chs[|chs| - 1])
  }

  predicate SomeBearer(chs: seq<Printed>) {
    exists i :: 0 <= i < |chs| && IsBearer(chs[i])
  }

  // ----- trimming and finding

  lemma {:induction false} TrimStartDrops(lead: string, s: string)
    requires AllOf(lead, White) && s != "" && !White(s[0])
    ensures TrimStart(lead + s) == s
  {
    if lead == "" {
      assert lead + s == s;
    } else {
      assert (lead + s)[1..] == lead[1..] + s;
      TrimStartDrops(lead[1..], s);
    }
  }

  lemma {:induction false} TrimEndDrops(s: string, trail: string)
    requires AllOf(trail, White) && s != "" && !White(s[|s| - 1])
    ensures TrimEnd(s + trail) == s
  {
    if trail == "" {
      assert s + trail == s;
    } else {
      var shorter := trail[..|trail| - 1];
      assert (s + trail)[..|s + trail| - 1] == s + shorter;
      TrimEndDrops(s, shorter);
    }
  }

  lemma {:induction false} TrimOf(lead: string, s: string, trail: string)
    requires AllOf(lead, White) && AllOf(trail, White)
    requires s != "" && !White(s[0]) && !White(s[|s| - 1])
    ensures Trim(lead + (s + trail)) == s
  {
    assert (s + trail)[0] == s[0];
    TrimStartDrops(lead, s + trail);
    TrimEndDrops(s, trail);
  }

  /** White space on one side only. */
  lemma {:induction false} TrimSides(white: string, s: string)
    requires AllOf(white, White) && s != "" && !White(s[0]) && !White(s[|s| - 1])
    ensures Trim(white + s) == s && Trim(s + white) == s && Trim(s) == s
  {
    hide White;
    assert AllOf("", White);
    TrimOf(white, s, "");
    TrimOf("", s, white);
    TrimOf("", s, "");
    assert white + (s + "") == white + s && "" + (s + white) == s + white && "" + (s + "") == s;
  }

  lemma {:induction false} TrimEndKeeps(head: string, rest: string)
    requires head != "" && !White(head[|head| - 1])
    ensures head <= TrimEnd(head + rest)
  {
    var s := head + rest;
    if White(s[|s| - 1]) {
      assert rest != "";
      assert s[..|s| - 1] == head + rest[..|rest| - 1];
      TrimEndKeeps(head, rest[..|rest| - 1]);
    }
  }

  lemma {:induction false} TrimBlank(s: string)
    requires AllOf(s, White)
    ensures Trim(s) == ""
  {
    if s != "" {
      assert AllOf(s[1..], White);
      TrimBlank(s[1..]);
    }
  }

  predicate HasNo(s: string, p: char -> bool) {
    forall i :: 0 <= i < |s| ==> !p(s[i])
  }

  lemma {:induction false} FindAfter(a: string, b: string, p: char -> bool)
    requires b != "" && p(b[0]) && HasNo(a, p)
    ensures Find(a + b, p) == |a|
  {
    var n := Find(a + b, p);
    assert (a + b)[|a|] == b[0];
    assert forall i :: 0 <= i < |a| ==> (a + b)[i] == a[i];
  }

  lemma {:induction false} FindBeyond(a: string, b: string, p: char -> bool)
    requires HasNo(a, p)
    ensures |a| <= Find(a + b, p)
  {
    assert forall i :: 0 <= i < |a| ==> (a + b)[i] == a[i];
  }

  // ----- tokens

  lemma {:induction false} TokenChars(c: char)
    ensures TokenChar(c) ==> !White(c) && c != '=' && c != '"' && c != ',' && c != '\\' && BareChar(c)
    ensures NameChar(c) ==> SchemeChar(c)
    ensures NameChar(LowerChar(c)) <==> NameChar(c)
  {
  }

  lemma {:induction false} TokenIsCalm(s: string)
    requires AllOf(s, TokenChar)
    ensures Calm(s) && HasNo(s, White) && HasNo(s, IsEquals) && '=' !in s && AllOf(s, BareChar)
  {
    hide White, BareChar;
    forall i | 0 <= i < |s|
      ensures s[i] != '"' && s[i] != '\\' && s[i] != ',' && !White(s[i]) && s[i] != '=' && BareChar(s[i])
    {
      TokenChars(s[i]);
    }
  }

  lemma {:induction false} WhiteIsCalm(s: string)
    requires AllOf(s, White)
    ensures Calm(s) && HasNo(s, IsEquals)
  {
  }

  lemma {:induction false} NameIsScheme(s: string)
    requires AllOf(s, NameChar)
    ensures AllOf(s, SchemeChar)
  {
  }

  lemma {:induction false} LowerName(s: string)
    ensures AllOf(Lower(s), NameChar) <==> AllOf(s, NameChar)
  {
    hide NameChar;
    forall i | 0 <= i < |s| ensures NameChar(Lower(s)[i]) <==> NameChar(s[i]) {
      TokenChars(s[i]);
    }
    if AllOf(Lower(s), NameChar) {
      forall i | 0 <= i < |s| ensures NameChar(s[i]) {
        assert NameChar(Lower(s)[i]);
      }
    }
  }

  lemma {:induction false} QuoteNotWhite()
    ensures !White('"') && !White('=') && IsEquals('=')
  {
  }

  // ----- one parameter is parsed

  /** Undoing the escapes of a printed value gives the value, exactly when it is readable. */
  lemma {:induction false} UnescapedRaw(ps: seq<Piece>)
    requires forall i :: 0 <= i < |ps| && ps[i].Plain? ==> ps[i].c != '\\'
    ensures Unescaped(Raw(ps)) == if Readable(ps) then Ok(Meaning(ps)) else Err(InvalidChallenge)
    decreases |ps|
  {
    if ps != [] {
      var rest := ps[1..];
      assert forall i :: 0 <= i < |rest| ==> rest[i] == ps[i + 1];
      assert forall i :: 0 < i < |ps| ==> ps[i] == rest[i - 1];
      UnescapedRaw(rest);
      var raw := Raw(ps);
      assert raw == PieceText(ps[0]) + Raw(rest);
      if ps[0].Plain? {
        assert raw[0] == ps[0].c && raw[1..] == Raw(rest);
      } else {
        assert raw[0] == '\\' && raw[1] == ps[0].c && raw[2..] == Raw(rest);
      }
    }
  }

  lemma {:induction false} QuotedParses(inner: string)
    ensures var raw := "\"" + inner + "\"";
      raw != "" && !White(raw[0]) && !White(raw[|raw| - 1]) && ParsedValue(raw) == Unescaped(inner)
  {
    var raw := "\"" + inner + "\"";
    QuoteNotWhite();
    hide White, Unescaped;
    assert raw[0] == '"' && raw[|raw| - 1] == '"' && raw[1..|raw| - 1] == inner;
  }

  lemma {:induction false} TokenParses(token: string)
    requires Token(token)
    ensures !White(token[0]) && !White(token[|token| - 1]) && ParsedValue(token) == Ok(token)
  {
    TokenIsCalm(token);
    hide White, BareChar, TokenChar;
  }

  lemma {:induction false} ValueParses(p: Param)
    requires WellFormedValue(p.value)
    ensures var raw := ValueText(p.value);
      raw != "" && !White(raw[0]) && !White(raw[|raw| - 1])
      && ParsedValue(raw) ==
           if p.value.Quoted? && !Readable(p.value.pieces) then Err(InvalidChallenge) else Ok(Meant(p).value)
  {
    hide White, ParsedValue, Unescaped, Readable, Raw, Meaning, TokenChar, AllOf, Lower;
    match p.value
    case Bare(token) => TokenParses(token);
    case Quoted(pieces) =>
      UnescapedRaw(pieces);
      QuotedParses(Raw(pieces));
  }

  lemma {:induction false} ParsesAt(left: string, right: string)
    requires HasNo(left, IsEquals)
    ensures var name := Lower(Trim(left));
      ParseParameter(left + ("=" + right)) ==
        if name == "" || !AllOf(name, NameChar) then Err(InvalidChallenge)
        else match ParsedValue(Trim(right)) { case Err(e) => Err(e) case Ok(value) => Ok(Parameter(name, value)) }
  {
    hide Trim, ParsedValue, AllOf, NameChar;
    var segment := left + ("=" + right);
    QuoteNotWhite();
    FindAfter(left, "=" + right, IsEquals);
    assert segment[..|left|] == left && segment[|left| + 1..] == right;
  }

  // ----- everything the parser takes for a parameter

  /** The pieces of the text between two quotes; a bare quote is let through. */
  predicate Tolerated(ps: seq<Piece>) {
    forall i :: 0 <= i < |ps| ==> (if ps[i].Plain? then ps[i].c != '\\' && !Control(ps[i].c) else Ascii(ps[i].c))
  }

  /** The text of a value: bare, or the pieces between two quotes. */
  ghost predicate Spelled(raw: string, value: string) {
    || (raw != "" && AllOf(raw, BareChar) && value == raw)
    || exists ps :: Tolerated(ps) && raw == "\"" + Raw(ps) + "\"" && value == Meaning(ps)
  }

  lemma {:induction false} UnescapedHas(v: string) returns (ps: seq<Piece>)
    requires Unescaped(v).Ok?
    ensures Tolerated(ps) && Raw(ps) == v && Meaning(ps) == Unescaped(v).value
  {
    if v == "" {
      ps := [];
    } else {
      var escaped := v[0] == '\\';
      var more := UnescapedHas(if escaped then v[2..] else v[1..]);
      ps := [if escaped then Pair(v[1]) else Plain(v[0])] + more;
      assert ps[1..] == more;
    }
  }

  lemma {:induction false} ParsedIff(raw: string, value: string)
    ensures ParsedValue(raw) == Ok(value) <==> Spelled(raw, value)
  {
    if raw != "" && raw[0] == '"' {
      assert !BareChar(raw[0]);
      hide BareChar, Tolerated, Control;
      if |raw| >= 2 && raw[|raw| - 1] == '"' {
        var inner := raw[1..|raw| - 1];
        assert raw == "\"" + inner + "\"";
        if Unescaped(inner) == Ok(value) {
          var ps := UnescapedHas(inner);
        }
      }
      if ps :| Tolerated(ps) && raw == "\"" + Raw(ps) + "\"" && value == Meaning(ps) {
        ToleratedReads(ps);
        assert raw[1..|raw| - 1] == Raw(ps);
      }
    } else {
      hide BareChar, Tolerated, Raw;
      forall ps: seq<Piece> ensures ("\"" + Raw(ps) + "\"")[0] == '"' {
      }
    }
  }

  lemma {:induction false} ToleratedReads(ps: seq<Piece>)
    requires Tolerated(ps)
    ensures Unescaped(Raw(ps)) == Ok(Meaning(ps))
  {
    UnescapedRaw(ps);
  }

  /** A text without white space at its ends, between two runs of white space. */
  predicate Padded(s: string, lead: string, core: string, trail: string) {
    && s == lead + (core + trail) && AllOf(lead, White) && AllOf(trail, White)
    && (core != "" ==> !White(core[0]) && !White(core[|core| - 1]))
  }

  lemma {:induction false} TrimStartIs(s: string) returns (lead: string)
    ensures s == lead + TrimStart(s) && AllOf(lead, White) && (TrimStart(s) != "" ==> !White(TrimStart(s)[0]))
  {
    hide White;
    lead := "";
    if s != "" && White(s[0]) {
      lead := TrimStartIs(s[1..]);
      lead := [s[0]] + lead;
      assert s == [s[0]] + s[1..];
    }
  }

  lemma {:induction false} TrimEndIs(s: string) returns (trail: string)
    ensures s == TrimEnd(s) + trail && AllOf(trail, White)
    ensures TrimEnd(s) != "" ==> !White(TrimEnd(s)[|TrimEnd(s)| - 1]) && TrimEnd(s)[0] == s[0]
  {
    hide White;
    trail := "";
    if s != "" && White(s[|s| - 1]) {
      trail := TrimEndIs(s[..|s| - 1]);
      trail := trail + [s[|s| - 1]];
      assert s == s[..|s| - 1] + [s[|s| - 1]];
    }
  }

  lemma {:induction false} TrimIs(s: string) returns (lead: string, trail: string)
    ensures Padded(s, lead, Trim(s), trail)
  {
    lead := TrimStartIs(s);
    trail := TrimEndIs(TrimStart(s));
    hide White, TrimStart, TrimEnd;
  }

  lemma {:induction false} PaddedTrims(s: string, lead: string, core: string, trail: string)
    requires Padded(s, lead, core, trail) && core != ""
    ensures Trim(s) == core
  {
    TrimOf(lead, core, trail);
  }

  /** A segment cut at its first equals sign: a padded name of name characters before it, a padded value
      behind it. */
  ghost predicate Written(segment: string, p: Parameter, left: string, name: string, right: string, raw: string) {
    && segment == left + ("=" + right) && '=' !in left
    && (exists lead, trail :: Padded(left, lead, name, trail)) && name != "" && AllOf(name, NameChar)
    && (exists lead, trail :: Padded(right, lead, raw, trail))
    && p.name == Lower(name) && Spelled(raw, p.value)
  }

  lemma {:induction false} SpelledCore(raw: string, value: string)
    requires Spelled(raw, value)
    ensures raw != ""
  {
  }

  lemma {:induction false} ParameterFrom(segment: string, p: Parameter, left: string, name: string, right: string, raw: string)
    requires Written(segment, p, left, name, right, raw)
    ensures ParseParameter(segment) == Ok(p)
  {
    SpelledCore(raw, p.value);
    var a, b :| Padded(left, a, name, b);
    var c, d :| Padded(right, c, raw, d);
    assert HasNo(left, IsEquals) by {
      assert forall i :: 0 <= i < |left| ==> left[i] in left;
    }
    LowerName(name);
    ParsedIff(raw, p.value);
    hide White, NameChar, Trim, ParsedValue, Padded, Spelled, AllOf, Lower, HasNo;
    PaddedTrims(left, a, name, b);
    PaddedTrims(right, c, raw, d);
    ParsesAt(left, right);
    assert |Lower(name)| == |name|;
  }

  /** Exactly these texts are parameters, whatever else the field may hold. */
  lemma {:induction false} ParameterIff(segment: string, p: Parameter)
    ensures ParseParameter(segment) == Ok(p) <==>
      exists left, name, right, raw :: Written(segment, p, left, name, right, raw)
  {
    if ParseParameter(segment) == Ok(p) {
      var n := Find(segment, IsEquals);
      var left, right := segment[..n], segment[n + 1..];
      assert segment == left + ("=" + right);
      LowerName(Trim(left));
      ParsedIff(Trim(right), p.value);
      hide White, NameChar, Trim, ParsedValue, Spelled, AllOf, Padded, Lower;
      var a, b := TrimIs(left);
      var c, d := TrimIs(right);
      assert |Lower(Trim(left))| == |Trim(left)|;
      assert Written(segment, p, left, Trim(left), right, Trim(right));
    }
    if left, name, right, raw :| Written(segment, p, left, name, right, raw) {
      ParameterFrom(segment, p, left, name, right, raw);
    }
  }

  /** A printed parameter is parsed, white space around its equals sign included, exactly when it is
      sound: the name in lower case, the value as meant. */
  lemma {:induction false} BodyParses(p: Param)
    requires WellFormed(p)
    ensures ParseParameter(Body(p)) == if Sound(p) then Ok(Meant(p)) else Err(InvalidChallenge)
  {
    var left, right := p.name + p.before, p.after + ValueText(p.value);
    TokenIsCalm(p.name);
    WhiteIsCalm(p.before);
    ValueParses(p);
    LowerName(p.name);
    Assoc(p.name, p.before, "=" + right);
    hide White, NameChar, TokenChar, BareChar, Trim, ParsedValue, ParseParameter, ValueText, Readable, Meaning,
      WellFormedValue, Lower;
    TrimSides(p.before, p.name);
    TrimSides(p.after, ValueText(p.value));
    ParsesAt(left, right);
    assert |Lower(p.name)| == |p.name|;
  }

  /** Text that begins with a token which is no parameter name is not parsed. */
  lemma {:induction false} OddStartFails(head: string, rest: string)
    requires Token(head) && !AllOf(head, NameChar)
    ensures ParseParameter(head + rest) == Err(InvalidChallenge)
  {
    var segment := head + rest;
    var n := Find(segment, IsEquals);
    TokenIsCalm(head);
    hide White, NameChar, TokenChar, BareChar;
    if n < |segment| {
      FindBeyond(head, rest, IsEquals);
      var more := segment[|head|..n];
      assert segment[..n] == head + more && (head + more)[0] == head[0];
      TrimEndKeeps(head, more);
      var name := Trim(segment[..n]);
      assert head <= name;
      var i :| 0 <= i < |head| && !NameChar(head[i]);
      assert name[i] == head[i];
      LowerName(name);
    }
  }

  // ----- one list element is scanned

  lemma {:induction false} SchemeFound(head: string, rest: string)
    requires Token(head) && (rest == "" || White(rest[0]))
    ensures PossibleScheme(head + rest) == if AllOf(head, SchemeChar) then (Some(head), rest) else (None, head + rest)
  {
    TokenIsCalm(head);
    hide White, SchemeChar, TokenChar, BareChar;
    var s := head + rest;
    if rest == "" {
      assert s == head && Find(head, White) == |head|;
    } else {
      FindAfter(head, rest, White);
    }
    assert s[..|head|] == head && s[|head|..] == rest;
  }

  /** Nothing before the equals sign is white space, so no scheme is opened. */
  lemma {:induction false} NoScheme(name: string, rest: string)
    requires Token(name) && rest != "" && rest[0] == '='
    ensures PossibleScheme(name + rest) == (None, name + rest)
  {
    TokenIsCalm(name);
    QuoteNotWhite();
    hide White, SchemeChar, TokenChar, BareChar;
    var s := name + rest;
    var end := Find(s, White);
    assert s[|name|] == '=' && forall i :: 0 <= i < |name| ==> s[i] == name[i];
    assert forall i :: 0 <= i <= |name| ==> !White(s[i]);
    assert s[..end][|name|] == '=';
  }

  /** An element that begins with a token no scheme may be: refused within a Bearer challenge, passed
      over otherwise. */
  lemma {:induction false} OddIsScanned(st: Scan, raw: string, head: string, rest: string)
    requires Token(head) && !AllOf(head, SchemeChar) && (rest == "" || White(rest[0])) && Trim(raw) == head + rest
    ensures ScanOne(st, raw) == if st.bearer then Err(InvalidChallenge) else Ok(st)
  {
    hide Trim, White, SchemeChar, TokenChar, PossibleScheme, ParseParameter;
    SchemeFound(head, rest);
    if AllOf(head, NameChar) {
      NameIsScheme(head);
    } else {
      OddStartFails(head, rest);
    }
  }

  lemma {:induction false} BodyEnds(p: Param)
    requires WellFormed(p)
    ensures Body(p) != "" && !White(Body(p)[0]) && !White(Body(p)[|Body(p)| - 1])
    ensures Trim(ParamSegment(p)) == Body(p)
    ensures Assigned(p) != "" && Assigned(p)[0] == (if p.before == "" then '=' else p.before[0])
  {
    TokenIsCalm(p.name);
    ValueParses(p);
    hide White, TokenChar, BareChar, ValueText, ParsedValue, Meant, Readable, WellFormedValue, Trim;
    assert Body(p)[0] == p.name[0];
    assert Body(p)[|Body(p)| - 1] == ValueText(p.value)[|ValueText(p.value)| - 1];
    TrimOf(p.lead, Body(p), p.trail);
  }

  /** What remains after a parameter named like the scheme has no parameter name. */
  lemma {:induction false} NamelessFails(p: Param)
    requires WellFormed(p)
    ensures Trim(Assigned(p)) != "" && ParseParameter(Trim(Assigned(p))) == Err(InvalidChallenge)
  {
    ValueParses(p);
    QuoteNotWhite();
    TrimBlank("");
    var right := p.after + ValueText(p.value);
    var rest := "=" + right;
    hide White, ValueText, ParsedValue, Meant, Readable, WellFormedValue, ParseParameter, Token, Trim;
    assert rest[0] == '=' && rest[|rest| - 1] == ValueText(p.value)[|ValueText(p.value)| - 1];
    TrimSides(p.before, rest);
    ParsesAt("", right);
    assert "" + ("=" + right) == rest;
  }

  /** The fate of a further parameter. Without white space before its equals sign it is read under a
      Bearer scheme, or refused when it is not sound, and passed over under any other. With white space
      there its name is taken for a scheme: the field is refused if that is `bearer`, and otherwise the
      challenge ends, so that all its later parameters are lost too. */
  lemma {:induction false} FurtherParam(st: Scan, p: Param)
    requires WellFormed(p)
    ensures ScanOne(st, ParamSegment(p)) == (
      if Fatal(p) then Err(InvalidChallenge)
      else if Diverts(p) then Ok(st.(bearer := false))
      else if !st.bearer then Ok(st)
      else if Sound(p) then Ok(st.(parameters := st.parameters + [Meant(p)]))
      else Err(InvalidChallenge))
  {
    assert Body(p) == p.name + Assigned(p) && Token(p.name) && AllOf(p.before, White);
    BodyEnds(p);
    BodyParses(p);
    hide Trim, White, Body, Meant, ParseParameter, Lower, Readable, WellFormedValue, TokenChar, SchemeChar, NameChar,
      Assigned, ParamSegment, PossibleScheme;
    if p.before == "" {
      NoScheme(p.name, Assigned(p));
    } else if AllOf(p.name, SchemeChar) {
      SchemeFound(p.name, Assigned(p));
      NamelessFails(p);
    } else {
      OddIsScanned(st, ParamSegment(p), p.name, Assigned(p));
      if Lower(p.name) == "bearer" {
        BearerIsScheme(p.name);
      }
      if Sound(p) {
        SoundIsScheme(p);
      }
    }
  }

  lemma {:induction false} BearerIsScheme(s: string)
    requires Lower(s) == "bearer"
    ensures AllOf(s, SchemeChar)
  {
    LowerName(s);
    NameIsScheme(s);
  }

  lemma {:induction false} SoundIsScheme(p: Param)
    requires Sound(p)
    ensures AllOf(p.name, SchemeChar)
  {
    NameIsScheme(p.name);
  }

  // ----- one challenge is scanned

  function Opened(st: Scan, ch: Printed): Scan {
    Scan(IsBearer(ch), st.found || IsBearer(ch), st.parameters)
  }

  /** What the first `k` parameters of a challenge make of the scan. */
  function Fate(st: Scan, ch: Printed, k: nat): Result<Scan, AuthError>
    requires k <= |ch.params|
  {
    if (Unknown(ch) && st.bearer) || Spoiled(ch.params, k, IsBearer(ch)) then Err(InvalidChallenge)
    else
      var n := Reached(ch.params, k);
      Ok(Scan(IsBearer(ch) && n == k, st.found || IsBearer(ch),
              st.parameters + if IsBearer(ch) then Carried(ch.params[..n]) else []))
  }

  lemma {:induction false} FateOfNone(st: Scan, ch: Printed)
    ensures Fate(st, ch, 0) == if Unknown(ch) && st.bearer then Err(InvalidChallenge) else Ok(Opened(st, ch))
  {
    hide Unknown, IsBearer;
    assert ch.params[..0] == [] && st.parameters + [] == st.parameters;
  }

  lemma {:induction false} ScanSingle(st: Scan, segment: string)
    ensures ScanAll(st, [segment]) == ScanOne(st, segment)
  {
    assert [segment][..0] == [];
  }

  /** A list element that begins with a scheme. */
  lemma {:induction false} SchemeIsScanned(st: Scan, ch: Printed, raw: string, rest: string)
    requires Token(ch.scheme) && (rest == "" || White(rest[0])) && Trim(raw) == ch.scheme + rest
    ensures ScanOne(st, raw) == (
      if Unknown(ch) then (if st.bearer then Err(InvalidChallenge) else Ok(st))
      else if IsBearer(ch) && Trim(rest) != "" then Added(Opened(st, ch), Trim(rest))
      else Ok(Opened(st, ch)))
  {
    if Unknown(ch) {
      OddIsScanned(st, raw, ch.scheme, rest);
    } else {
      SchemeFound(ch.scheme, rest);
      hide Trim, White, Lower, PossibleScheme, Added;
    }
  }

  lemma {:induction false} UnknownIsNoBearer(st: Scan, ch: Printed)
    requires Unknown(ch)
    ensures !IsBearer(ch) && (!st.bearer ==> Opened(st, ch) == st)
  {
    if IsBearer(ch) {
      BearerIsScheme(ch.scheme);
    }
  }

  lemma {:induction false} SchemeAlone(st: Scan, ch: Printed)
    requires WellPrinted(ch) && ch.params == []
    ensures ScanAll(st, Segments(ch)) == Fate(st, ch, 0)
  {
    TokenIsCalm(ch.scheme);
    FateOfNone(st, ch);
    TrimBlank("");
    if Unknown(ch) {
      UnknownIsNoBearer(st, ch);
    }
    var whole := ch.scheme + ch.token68;
    var raw := ch.lead + (whole + ch.trail);
    hide Trim, White, Unknown, Fate, ScanOne, IsBearer, TokenChar, BareChar, AllOf, Calm;
    assert Segments(ch) == [raw] && whole[0] == ch.scheme[0];
    assert whole[|whole| - 1] == if ch.token68 == "" then ch.scheme[|ch.scheme| - 1] else ch.token68[|ch.token68| - 1];
    TrimOf(ch.lead, whole, ch.trail);
    SchemeIsScanned(st, ch, raw, ch.token68);
    ScanSingle(st, raw);
  }

  /** The scheme and its first parameter share one list element. */
  lemma {:induction false} FirstIsScanned(st: Scan, ch: Printed)
    requires WellPrinted(ch) && ch.params != []
    ensures ScanOne(st, Segments(ch)[0]) == (
      if Unknown(ch) then (if st.bearer then Err(InvalidChallenge) else Ok(st))
      else if !IsBearer(ch) then Ok(Opened(st, ch))
      else if Sound(ch.params[0]) then Ok(Opened(st, ch).(parameters := st.parameters + [Meant(ch.params[0])]))
      else Err(InvalidChallenge))
  {
    var p := ch.params[0];
    var rest := p.lead + Body(p);
    assert WellFormed(p) && White(rest[0]);
    TokenIsCalm(ch.scheme);
    BodyEnds(p);
    BodyParses(p);
    hide Trim, White, Unknown, ScanOne, IsBearer, TokenChar, BareChar, Body, Sound, ParseParameter, Meant;
    assert (ch.scheme + rest)[0] == ch.scheme[0];
    assert (ch.scheme + rest)[|ch.scheme + rest| - 1] == Body(p)[|Body(p)| - 1];
    TrimOf(ch.lead, ch.scheme + rest, p.trail);
    TrimSides(p.lead, Body(p));
    SchemeIsScanned(st, ch, Segments(ch)[0], rest);
  }

  /** A fate after one more parameter. */
  lemma {:induction false} OneMore(st: Scan, ch: Printed, k: nat)
    requires 0 < k < |ch.params|
    ensures var p := ch.params[k];
      Fate(st, ch, k + 1) == (
      if Fate(st, ch, k).Err? || Fatal(p) then Err(InvalidChallenge)
      else
        var now := Fate(st, ch, k).value;
        if Diverts(p) then Ok(now.(bearer := false))
        else if !now.bearer then Ok(now)
        else if Sound(p) then Ok(now.(parameters := now.parameters + [Meant(p)]))
        else Err(InvalidChallenge))
  {
    var p, bearer := ch.params[k], IsBearer(ch);
    SpoiledSnoc(ch.params, k, bearer);
    var n := Reached(ch.params, k);
    if Lower(p.name) == "bearer" {
      BearerIsScheme(p.name);
    }
    assert Reached(ch.params, k + 1) == if n == k && !Diverts(p) then k + 1 else n;
    hide Spoiled, Reached, IsBearer, Unknown, Sound, AllOf, Lower, Meant;
    assert ch.params[..k + 1][..k] == ch.params[..k];
    if bearer && n == k && !Diverts(p) {
      var got := Carried(ch.params[..k]);
      assert st.parameters + (got + [Meant(p)]) == st.parameters + got + [Meant(p)];
    }
  }

  lemma {:induction false} SpoiledSnoc(params: seq<Param>, k: nat, bearer: bool)
    requires 0 < k < |params|
    ensures Spoiled(params, k + 1, bearer) <==> (
      || Spoiled(params, k, bearer) || Fatal(params[k])
      || (bearer && Reached(params, k) == k && !Diverts(params[k]) && !Sound(params[k])))
  {
    hide Fatal, Sound, Diverts;
    var n := Reached(params, k);
    assert Reached(params, k + 1) == if n == k && !Diverts(params[k]) then k + 1 else n;
    if Spoiled(params, k + 1, bearer) {
      var i :| 0 <= i < k + 1
        && ((0 < i && Fatal(params[i])) || (bearer && i < Reached(params, k + 1) && !Sound(params[i])));
    }
    if Spoiled(params, k, bearer) {
      var i :| 0 <= i < k && ((0 < i && Fatal(params[i])) || (bearer && i < Reached(params, k) && !Sound(params[i])));
      assert Fatal(params[i]) || !Sound(params[i]);
    }
  }

  lemma {:induction false} FateOfFirst(st: Scan, ch: Printed)
    requires WellPrinted(ch) && ch.params != []
    ensures ScanOne(st, Segments(ch)[0]) == Fate(st, ch, 1)
  {
    FirstIsScanned(st, ch);
    if Unknown(ch) {
      UnknownIsNoBearer(st, ch);
    }
    SpoiledFirst(ch.params, IsBearer(ch));
    hide *;
    FateOfOne(st, ch);
  }

  lemma {:induction false} SpoiledFirst(params: seq<Param>, bearer: bool)
    requires params != []
    ensures Spoiled(params, 1, bearer) <==> bearer && !Sound(params[0])
  {
    hide Sound, Fatal;
    assert Reached(params, 1) == 1;
  }

  lemma {:induction false} FateOfOne(st: Scan, ch: Printed)
    requires ch.params != []
    ensures Fate(st, ch, 1) == (
      if (Unknown(ch) && st.bearer) || Spoiled(ch.params, 1, IsBearer(ch)) then Err(InvalidChallenge)
      else if IsBearer(ch) then Ok(Opened(st, ch).(parameters := st.parameters + [Meant(ch.params[0])]))
      else Ok(Opened(st, ch)))
  {
    hide Unknown, IsBearer, Spoiled, Meant;
    assert ch.params[..1] == [ch.params[0]] && ch.params[..1][..0] == [];
    assert Carried(ch.params[..1]) == [Meant(ch.params[0])];
    assert st.parameters + [] == st.parameters;
  }

  lemma {:induction false} SegmentAt(ch: Printed, k: nat)
    requires 0 < k < |ch.params|
    ensures k < |Segments(ch)| && Segments(ch)[k] == ParamSegment(ch.params[k])
    ensures Segments(ch)[..k + 1][..k] == Segments(ch)[..k]
  {
    hide ParamSegment, Body;
    assert Segments(ch)[k] == ParamSegment(ch.params[(k - 1) + 1]);
  }

  lemma {:induction false} WellPrintedParam(ch: Printed, k: nat)
    requires WellPrinted(ch) && k < |ch.params|
    ensures WellFormed(ch.params[k]) && |Segments(ch)| == |ch.params|
  {
    hide White, Calm, Token, WellFormed, AllOf, IsBearer;
  }

  lemma {:induction false} OneMoreScanned(st: Scan, ch: Printed, k: nat)
    requires WellPrinted(ch) && 0 < k < |ch.params|
    ensures k < |Segments(ch)|
    ensures (if Fate(st, ch, k).Err? then Fate(st, ch, k) else ScanOne(Fate(st, ch, k).value, Segments(ch)[k]))
      == Fate(st, ch, k + 1)
  {
    hide *;
    WellPrintedParam(ch, k);
    SegmentAt(ch, k);
    OneMore(st, ch, k);
    if Fate(st, ch, k).Ok? {
      FurtherParam(Fate(st, ch, k).value, ch.params[k]);
    } else {
      assert Fate(st, ch, k).error == InvalidChallenge;
    }
  }

  lemma {:induction false} ParamsAreScanned(st: Scan, ch: Printed, k: nat)
    requires WellPrinted(ch) && 0 < k <= |ch.params|
    ensures k <= |Segments(ch)| && ScanAll(st, Segments(ch)[..k]) == Fate(st, ch, k)
  {
    WellPrintedParam(ch, 0);
    if k == 1 {
      FateOfFirst(st, ch);
      hide ScanOne, Segments, Fate, WellPrinted;
      assert Segments(ch)[..1] == [Segments(ch)[0]];
      ScanSingle(st, Segments(ch)[0]);
    } else {
      hide ScanOne, Segments, Fate, WellPrinted;
      ParamsAreScanned(st, ch, k - 1);
      SegmentAt(ch, k - 1);
      OneMoreScanned(st, ch, k - 1);
    }
  }

  /** One printed challenge, from any state of the scan. */
  lemma {:induction false} ChallengeIsScanned(st: Scan, ch: Printed)
    requires WellPrinted(ch)
    ensures ScanAll(st, Segments(ch)) == Fate(st, ch, |ch.params|)
  {
    if ch.params == [] {
      SchemeAlone(st, ch);
    } else {
      ParamsAreScanned(st, ch, |ch.params|);
      assert |Segments(ch)| == |ch.params| && Segments(ch)[..|ch.params|] == Segments(ch);
    }
  }

  // ----- a list of challenges is scanned

  lemma {:induction false} ScanConcat(st: Scan, a: seq<string>, b: seq<string>)
    ensures ScanAll(st, a + b) == if ScanAll(st, a).Err? then ScanAll(st, a) else ScanAll(ScanAll(st, a).value, b)
  {
    if b == [] {
      assert a + b == a;
    } else {
      assert (a + b)[..|a + b| - 1] == a + b[..|b| - 1];
      ScanConcat(st, a, b[..|b| - 1]);
      hide ScanOne;
    }
  }

  lemma {:induction false} SomeBearerSnoc(chs: seq<Printed>)
    requires chs != []
    ensures SomeBearer(chs) <==> SomeBearer(chs[..|chs| - 1]) || IsBearer(chs[|chs| - 1])
  {
    hide IsBearer;
    var n := |chs| - 1;
    assert forall i :: 0 <= i < n ==> chs[..n][i] == chs[i];
    if SomeBearer(chs[..n]) {
      var i :| 0 <= i < n && IsBearer(chs[..n][i]);
      assert IsBearer(chs[i]);
    }
  }

  lemma {:induction false} RefusedSnoc(chs: seq<Printed>)
    requires chs != []
    ensures Refused(chs) <==> Refused(chs[..|chs| - 1]) || RefusedAt(chs, |chs| - 1)
  {
    hide Spoiled, Unknown, BearerToTheEnd, IsBearer;
    var n := |chs| - 1;
    forall k | 0 <= k < n ensures RefusedAt(chs[..n], k) <==> RefusedAt(chs, k) {
      assert chs[..n][k] == chs[k] && (0 < k ==> chs[..n][k - 1] == chs[k - 1]);
    }
    hide RefusedAt;
    if Refused(chs[..n]) {
      var k :| 0 <= k < n && RefusedAt(chs[..n], k);
      assert RefusedAt(chs, k);
    }
    if Refused(chs) && !RefusedAt(chs, n) {
      var k :| 0 <= k < |chs| && RefusedAt(chs, k);
      assert RefusedAt(chs[..n], k);
    }
  }

  predicate EndsBearer(chs: seq<Printed>) {
    chs != [] && BearerToTheEnd(chs[|chs| - 1])
  }

  function Summary(chs: seq<Printed>): Result<Scan, AuthError> {
    if Refused(chs) then Err(InvalidChallenge) else Ok(Scan(EndsBearer(chs), SomeBearer(chs), ReadParams(chs)))
  }

  /** A summary after one more challenge. */
  lemma {:induction false} SummarySnoc(chs: seq<Printed>)
    requires chs != []
    ensures var before, ch := Summary(chs[..|chs| - 1]), chs[|chs| - 1];
      Summary(chs) == if before.Err? then before else Fate(before.value, ch, |ch.params|)
  {
    hide IsBearer, ReadOf, SomeBearer, Spoiled, Refused, Fate, BearerToTheEnd, Unknown;
    var n := |chs| - 1;
    RefusedSnoc(chs);
    SomeBearerSnoc(chs);
    assert n > 0 ==> chs[..n][n - 1] == chs[n - 1];
    if !Refused(chs[..n]) {
      FateOfAll(Summary(chs[..n]).value, chs[n]);
    }
  }

  lemma {:induction false} AllAreScanned(chs: seq<Printed>)
    requires forall i :: 0 <= i < |chs| ==> WellPrinted(chs[i])
    ensures ScanAll(BEFORE_ALL, AllSegments(chs)) == Summary(chs)
  {
    if chs != [] {
      var n := |chs| - 1;
      hide WellPrinted, Segments, Summary, ScanAll, Fate;
      assert forall i :: 0 <= i < n ==> chs[..n][i] == chs[i];
      AllAreScanned(chs[..n]);
      SummarySnoc(chs);
      ScanConcat(BEFORE_ALL, AllSegments(chs[..n]), Segments(chs[n]));
      if Summary(chs[..n]).Ok? {
        ChallengeIsScanned(Summary(chs[..n]).value, chs[n]);
      }
    }
  }

  lemma {:induction false} FateOfAll(st: Scan, ch: Printed)
    ensures Fate(st, ch, |ch.params|) ==
      if (Unknown(ch) && st.bearer) || Spoiled(ch.params, |ch.params|, IsBearer(ch)) then Err(InvalidChallenge)
      else Ok(Scan(BearerToTheEnd(ch), st.found || IsBearer(ch), st.parameters + ReadOf(ch)))
  {
  }

  // ----- the printed field as a whole

  lemma {:induction false} BlankIsPassed(st: Scan, element: string)
    requires AllOf(element, White)
    ensures ScanOne(st, element) == Ok(st)
  {
    TrimBlank(element);
  }

  lemma {:induction false} FilledIsScanned(st: Scan, elements: seq<string>)
    ensures ScanAll(st, elements) == ScanAll(st, Filled(elements))
  {
    if elements != [] {
      var n := |elements| - 1;
      FilledIsScanned(st, elements[..n]);
      ScanConcat(st, Filled(elements[..n]), [elements[n]]);
      hide ScanOne, White;
      assert Filled(elements[..n]) + [] == Filled(elements[..n]);
      if ScanAll(st, elements[..n]).Ok? {
        ScanSingle(ScanAll(st, elements[..n]).value, elements[n]);
        if AllOf(elements[n], White) {
          BlankIsPassed(ScanAll(st, elements[..n]).value, elements[n]);
        }
      }
    }
  }

  /** Inside a printed value the scan stays between the quotes, and is not left escaped at its end. */
  lemma {:induction false} StaysQuoted(ps: seq<Piece>, i: nat)
    requires forall k :: 0 <= k < |ps| ==> Quotable(ps[k])
    requires i <= |Raw(ps)|
    ensures LexAfter(Lex(true, false), Raw(ps)[..i]).quoted
    ensures LexAfter(Lex(true, false), Raw(ps)) == Lex(true, false)
    decreases |ps|
  {
    if ps != [] {
      var head, rest := PieceText(ps[0]), Raw(ps[1..]);
      var raw := Raw(ps);
      assert raw == head + rest;
      assert Quotable(ps[0]);
      assert forall k :: 0 <= k < |ps[1..]| ==> ps[1..][k] == ps[k + 1];
      PieceStays(ps[0]);
      StaysQuoted(ps[1..], if i < |head| then 0 else i - |head|);
      LexConcat(Lex(true, false), head, rest);
      hide LexAfter, Raw;
      if i < |head| {
        assert raw[..i] == head[..i];
      } else {
        assert raw[..i] == head + rest[..i - |head|];
        LexConcat(Lex(true, false), head, rest[..i - |head|]);
      }
    }
  }

  lemma {:induction false} PieceStays(p: Piece)
    requires Quotable(p)
    ensures LexAfter(Lex(true, false), PieceText(p)) == Lex(true, false)
    ensures forall i :: 0 <= i < |PieceText(p)| ==> LexAfter(Lex(true, false), PieceText(p)[..i]).quoted
  {
    var s := PieceText(p);
    assert s[..0] == "" && LexAfter(Lex(true, false), "") == Lex(true, false);
    assert s[..1] == [s[0]] && [s[0]][..0] == "";
    assert LexAfter(Lex(true, false), [s[0]]) == LexStep(Lex(true, false), s[0]);
    if p.Plain? {
      assert s == [s[0]];
    }
  }

  lemma {:induction false} CalmStays(l: Lex, s: string)
    requires Calm(s) && !l.escaped
    ensures LexAfter(l, s) == l
  {
    if s != "" {
      CalmStays(l, s[..|s| - 1]);
    }
  }

  lemma {:induction false} CommaIsInside(head: string, raw: string, tail: string, i: nat)
    requires Calm(head) && Calm(tail)
    requires var s := head + "\"" + raw + "\"" + tail; i < |s| && s[i] == ','
    ensures |head| + 1 <= i < |head| + 1 + |raw|
  {
    var s := head + "\"" + raw + "\"" + tail;
    assert s[|head|] == '"' && s[|head| + 1 + |raw|] == '"';
    assert forall j :: 0 <= j < |head| ==> s[j] == head[j];
    assert forall j :: |head| + |raw| + 2 <= j < |s| ==> s[j] == tail[j - |head| - |raw| - 2];
  }

  /** One piece of a field, with its quotes closed. */
  predicate Whole(s: string) {
    Uncut(s) && LexAfter(OPEN, s) == OPEN
  }

  /** A list element around one quoted string is whole. */
  lemma {:induction false} QuotedIsWhole(head: string, ps: seq<Piece>, tail: string)
    requires Calm(head) && Calm(tail) && forall k :: 0 <= k < |ps| ==> Quotable(ps[k])
    ensures Whole(head + "\"" + Raw(ps) + "\"" + tail)
  {
    var front, raw, back := head + "\"", Raw(ps), "\"" + tail;
    var s := head + "\"" + raw + "\"" + tail;
    assert s == front + raw + back;
    CalmStays(OPEN, head);
    LexQuote(OPEN);
    LexQuote(Lex(true, false));
    LexConcat(OPEN, head, "\"");
    StaysQuoted(ps, 0);
    LexConcat(OPEN, front, raw);
    LexConcat(OPEN, front + raw, back);
    LexConcat(Lex(true, false), "\"", tail);
    CalmStays(OPEN, tail);
    hide LexAfter, Raw, Calm;
    forall i | 0 <= i < |s| && s[i] == ',' ensures LexAfter(OPEN, s[..i]) != OPEN {
      CommaIsInside(head, raw, tail, i);
      var k := i - |front|;
      assert s[..i] == front + raw[..k];
      LexConcat(OPEN, front, raw[..k]);
      StaysQuoted(ps, k);
    }
  }

  lemma {:induction false} LexQuote(l: Lex)
    ensures LexAfter(l, "\"") == LexStep(l, '"')
  {
    assert "\""[..0] == "" && LexAfter(l, "") == l;
  }

  lemma {:induction false} CalmIsWhole(s: string)
    requires Calm(s)
    ensures Whole(s)
  {
    CalmStays(OPEN, s);
    hide LexAfter;
  }

  lemma {:induction false} BodyText(lead: string, p: Param)
    ensures lead + (Body(p) + p.trail) == lead + p.name + p.before + "=" + p.after + ValueText(p.value) + p.trail
  {
    hide ValueText;
    assert lead + (p.name + (p.before + ("=" + (p.after + ValueText(p.value)))) + p.trail)
        == lead + p.name + p.before + "=" + p.after + ValueText(p.value) + p.trail;
  }

  /** Whatever calm text precedes it, a printed parameter is whole. */
  lemma {:induction false} BodyIsWhole(lead: string, p: Param)
    requires Calm(lead) && WellFormed(p)
    ensures Whole(lead + (Body(p) + p.trail))
  {
    TokenIsCalm(p.name);
    WhiteIsCalm(p.before);
    WhiteIsCalm(p.after);
    WhiteIsCalm(p.trail);
    BodyText(lead, p);
    hide White, TokenChar, BareChar, Body, Whole, Quotable;
    var head := lead + p.name + p.before + "=" + p.after;
    assert Calm(head);
    match p.value
    case Bare(token) =>
      TokenIsCalm(token);
      CalmIsWhole(head + token + p.trail);
    case Quoted(pieces) =>
      QuotedIsWhole(head, pieces, p.trail);
      var raw := Raw(pieces);
      assert head + ("\"" + raw + "\"") + p.trail == head + "\"" + raw + "\"" + p.trail;
  }

  lemma {:induction false} FirstIsWhole(ch: Printed)
    requires WellPrinted(ch) && ch.params != []
    ensures Whole(Segments(ch)[0])
  {
    var p := ch.params[0];
    assert WellFormed(p);
    var lead := ch.lead + (ch.scheme + p.lead);
    TokenIsCalm(ch.scheme);
    WhiteIsCalm(ch.lead);
    WhiteIsCalm(p.lead);
    assert Segments(ch)[0] == ch.lead + ((ch.scheme + (p.lead + Body(p))) + p.trail);
    hide White, TokenChar, BareChar, Whole, Body, WellFormed, WellPrinted, Segments;
    assert Calm(lead);
    BodyIsWhole(lead, p);
    Regroup(ch.lead, ch.scheme, p.lead, Body(p), p.trail);
  }

  lemma {:induction false} Regroup(a: string, b: string, c: string, d: string, e: string)
    ensures (a + (b + c)) + (d + e) == a + ((b + (c + d)) + e)
  {
  }

  lemma {:induction false} SegmentsAreWhole(ch: Printed, i: nat)
    requires WellPrinted(ch) && i < |Segments(ch)|
    ensures Whole(Segments(ch)[i])
  {
    if ch.params == [] {
      TokenIsCalm(ch.scheme);
      WhiteIsCalm(ch.lead);
      WhiteIsCalm(ch.trail);
      hide White, TokenChar, BareChar, Whole;
      CalmIsWhole(ch.lead + ((ch.scheme + ch.token68) + ch.trail));
    } else if i == 0 {
      FirstIsWhole(ch);
    } else {
      var p := ch.params[i];
      assert WellFormed(p);
      WhiteIsCalm(p.lead);
      hide White, Whole, Body, WellFormed;
      assert Segments(ch)[i] == ParamSegment(ch.params[(i - 1) + 1]);
      BodyIsWhole(p.lead, p);
    }
  }

  lemma {:induction false} AllAreWhole(chs: seq<Printed>)
    requires forall i :: 0 <= i < |chs| ==> WellPrinted(chs[i])
    ensures forall s :: s in AllSegments(chs) ==> Whole(s)
  {
    if chs != [] {
      var n := |chs| - 1;
      assert forall i :: 0 <= i < n ==> chs[..n][i] == chs[i];
      hide WellPrinted, Segments, Whole;
      AllAreWhole(chs[..n]);
      forall s | s in Segments(chs[n]) ensures Whole(s) {
        var i :| 0 <= i < |Segments(chs[n])| && Segments(chs[n])[i] == s;
        SegmentsAreWhole(chs[n], i);
      }
    }
  }

  lemma {:induction false} FilledHas(elements: seq<string>, s: string)
    requires s in elements
    ensures AllOf(s, White) || s in Filled(elements)
  {
    hide White;
    var n := |elements| - 1;
    if s != elements[n] {
      assert s in elements[..n];
      FilledHas(elements[..n], s);
    }
  }

  function Outcome(chs: seq<Printed>): Result<Option<seq<Parameter>>, AuthError> {
    if Refused(chs) then Err(InvalidChallenge) else Ok(if SomeBearer(chs) then Some(ReadParams(chs)) else None)
  }

  /** What the parser returns for any list of challenges, with any white space around their elements and
      blank elements among them. It refuses the field exactly if some Bearer challenge has an unsound
      parameter before the first one that is taken for a scheme, a further parameter named `bearer` has
      white space before its equals sign, or an unexpected scheme follows a Bearer challenge; otherwise it
      returns the parameters it reaches. */
  lemma {:induction false} PrintedOutcome(chs: seq<Printed>, elements: seq<string>)
    requires (forall i :: 0 <= i < |chs| ==> WellPrinted(chs[i])) && Filled(elements) == AllSegments(chs)
    ensures BearerSpec(Joined(elements)) == Outcome(chs)
  {
    AllAreScanned(chs);
    if elements == [] {
      assert Pieces("") == [""] && LexAfter(OPEN, "") == OPEN;
      ScanSingle(BEFORE_ALL, "");
      BlankIsPassed(BEFORE_ALL, "");
    } else {
      AllAreWhole(chs);
      FilledIsScanned(BEFORE_ALL, elements);
      hide WellPrinted, LexAfter, Pieces, Uncut, Joined, AllSegments, ScanAll, Filled, White, Refused;
      forall s | s in elements ensures Whole(s) {
        FilledHas(elements, s);
        if AllOf(s, White) {
          WhiteIsCalm(s);
          CalmIsWhole(s);
        }
      }
      JoinedSplits(elements);
    }
  }

  // ----- when everything is read

  /** The parser meets nothing in this challenge that it reads differently from section 11 of RFC 9110. */
  predicate Plainly(chs: seq<Printed>, k: nat)
    requires k < |chs|
  {
    && (Unknown(chs[k]) && 0 < k ==> !IsBearer(chs[k - 1]))
    && (IsBearer(chs[k]) ==> forall i :: 0 <= i < |chs[k].params| ==>
          Sound(chs[k].params[i]) && (0 < i ==> chs[k].params[i].before == ""))
    && (!IsBearer(chs[k]) ==> forall i :: 0 < i < |chs[k].params| ==> !Fatal(chs[k].params[i]))
  }

  lemma {:induction false} ReachedAll(params: seq<Param>, k: nat)
    requires k <= |params|
    ensures Reached(params, k) == k <==> forall i :: 0 < i < k ==> !Diverts(params[i])
  {
    hide Diverts;
    if k > 1 {
      ReachedAll(params, k - 1);
    }
  }

  /** Challenge `k` is neither refused nor cut short. */
  predicate NeitherAt(chs: seq<Printed>, k: nat)
    requires k < |chs|
  {
    && !Spoiled(chs[k].params, |chs[k].params|, IsBearer(chs[k]))
    && (IsBearer(chs[k]) ==> BearerToTheEnd(chs[k]))
    && (Unknown(chs[k]) && 0 < k ==> !IsBearer(chs[k - 1]))
  }

  /** A challenge that is neither refused nor cut short is a plain one, and conversely. */
  lemma {:induction false} PlainChallenge(ch: Printed)
    ensures var n := |ch.params|;
      !Spoiled(ch.params, n, IsBearer(ch)) && (IsBearer(ch) ==> Reached(ch.params, n) == n) <==> (
      if IsBearer(ch) then forall i :: 0 <= i < n ==> Sound(ch.params[i]) && (0 < i ==> ch.params[i].before == "")
      else forall i :: 0 < i < n ==> !Fatal(ch.params[i]))
  {
    var n := |ch.params|;
    ReachedAll(ch.params, n);
    hide Reached, IsBearer, NameChar, SchemeChar, Lower, Readable;
    if IsBearer(ch) {
      forall i | 0 <= i < n && Sound(ch.params[i]) ensures !Diverts(ch.params[i]) ==> ch.params[i].before == "" {
        SoundIsScheme(ch.params[i]);
      }
    }
  }

  lemma {:induction false} CarriedSize(params: seq<Param>)
    ensures |Carried(params)| == |params|
  {
    if params != [] {
      CarriedSize(params[..|params| - 1]);
    }
  }

  predicate AllReached(chs: seq<Printed>) {
    forall k :: 0 <= k < |chs| && IsBearer(chs[k]) ==> BearerToTheEnd(chs[k])
  }

  lemma {:induction false} AllReachedSnoc(chs: seq<Printed>)
    requires chs != []
    ensures AllReached(chs) <==>
      AllReached(chs[..|chs| - 1]) && (IsBearer(chs[|chs| - 1]) ==> BearerToTheEnd(chs[|chs| - 1]))
  {
    hide IsBearer, BearerToTheEnd;
    var n := |chs| - 1;
    assert forall k :: 0 <= k < n ==> chs[..n][k] == chs[k];
  }

  lemma {:induction false} ReadOfSize(ch: Printed)
    ensures IsBearer(ch) ==> |ReadOf(ch)| <= |Carried(ch.params)|
    ensures IsBearer(ch) ==> (|ReadOf(ch)| == |Carried(ch.params)| <==> BearerToTheEnd(ch))
    ensures BearerToTheEnd(ch) ==> ReadOf(ch) == Carried(ch.params)
  {
    hide IsBearer, Reached, Carried;
    CarriedSize(ch.params);
    CarriedSize(ch.params[..Reached(ch.params, |ch.params|)]);
    assert ch.params[..|ch.params|] == ch.params;
  }

  /** Every parameter is returned exactly when no Bearer challenge is cut short. */
  lemma {:induction false} ReadAllIff(chs: seq<Printed>)
    ensures |ReadParams(chs)| <= |BearerParams(chs)|
    ensures ReadParams(chs) == BearerParams(chs) <==> AllReached(chs)
    ensures |ReadParams(chs)| == |BearerParams(chs)| <==> AllReached(chs)
  {
    if chs != [] {
      var ch := chs[|chs| - 1];
      if !IsBearer(ch) {
        assert ReadOf(ch) == [];
      }
      hide IsBearer, ReadOf, Carried, AllReached, BearerToTheEnd;
      ReadAllIff(chs[..|chs| - 1]);
      AllReachedSnoc(chs);
      ReadOfSize(ch);
    }
  }

  /** Round trip: whatever challenges a field lists, with quoted commas, escapes and any legal white space,
      the parser returns exactly the parameters of the Bearer ones, in order and with their original values
      (nothing without a Bearer challenge) if and only if every parameter of a Bearer challenge is sound, no
      further one has white space before its equals sign, no further parameter of another challenge named
      `bearer` has it, and no scheme that the parser does not expect follows a Bearer challenge. */
  lemma {:induction false} PrintedIsReadIff(chs: seq<Printed>, elements: seq<string>)
    requires (forall i :: 0 <= i < |chs| ==> WellPrinted(chs[i])) && Filled(elements) == AllSegments(chs)
    ensures BearerSpec(Joined(elements)) == Ok(if SomeBearer(chs) then Some(BearerParams(chs)) else None)
      <==> forall k :: 0 <= k < |chs| ==> Plainly(chs, k)
  {
    PrintedOutcome(chs, elements);
    ReadAllIff(chs);
    PlainlyIff(chs);
    hide WellPrinted, BearerSpec, Joined, Filled, AllSegments, Plainly, Refused, AllReached;
    if !SomeBearer(chs) {
      NoBearerParams(chs);
    }
  }

  lemma {:induction false} PlainlyIff(chs: seq<Printed>)
    ensures !Refused(chs) && AllReached(chs) <==> forall k :: 0 <= k < |chs| ==> Plainly(chs, k)
  {
    forall k | 0 <= k < |chs| ensures Plainly(chs, k) <==> NeitherAt(chs, k) {
      PlainChallenge(chs[k]);
    }
    hide Plainly, Spoiled, Reached, Unknown, IsBearer;
    if !Refused(chs) && AllReached(chs) {
      forall k | 0 <= k < |chs| ensures NeitherAt(chs, k) {
        assert !RefusedAt(chs, k);
      }
    } else if Refused(chs) {
      var k :| 0 <= k < |chs| && RefusedAt(chs, k);
      assert !NeitherAt(chs, k);
    } else {
      var k :| 0 <= k < |chs| && IsBearer(chs[k]) && !BearerToTheEnd(chs[k]);
      assert !NeitherAt(chs, k);
    }
  }

  lemma {:induction false} NoBearerParams(chs: seq<Printed>)
    requires forall i :: 0 <= i < |chs| ==> !IsBearer(chs[i])
    ensures BearerParams(chs) == []
  {
    hide IsBearer;
    if chs != [] {
      assert forall i :: 0 <= i < |chs| - 1 ==> chs[..|chs| - 1][i] == chs[i];
      NoBearerParams(chs[..|chs| - 1]);
    }
  }

  // ----- several Bearer challenges

  /** After the `i`-th challenge no Bearer challenge carries parameters. */
  predicate OthersEmpty(chs: seq<Printed>, i: nat) {
    forall j :: i < j < |chs| && IsBearer(chs[j]) ==> chs[j].params == []
  }

  lemma {:induction false} OthersEmptySnoc(chs: seq<Printed>, i: nat)
    requires i < |chs| - 1
    ensures OthersEmpty(chs, i) <==>
      OthersEmpty(chs[..|chs| - 1], i) && (IsBearer(chs[|chs| - 1]) ==> chs[|chs| - 1].params == [])
  {
    hide IsBearer;
    var shorter := chs[..|chs| - 1];
    assert forall j :: 0 <= j < |shorter| ==> shorter[j] == chs[j];
  }

  lemma {:induction false} ReachedFirst(params: seq<Param>, k: nat)
    requires 0 < k <= |params|
    ensures Reached(params, k) > 0
  {
    if k > 1 {
      ReachedFirst(params, k - 1);
    }
  }

  /** The first parameter of a Bearer challenge is always reached. */
  lemma {:induction false} ReadNothingIff(ch: Printed)
    ensures ReadOf(ch) == [] <==> !IsBearer(ch) || ch.params == []
  {
    var n := |ch.params|;
    if n > 0 {
      ReachedFirst(ch.params, n);
    }
    hide IsBearer, Reached;
    CarriedSize(ch.params[..Reached(ch.params, n)]);
  }

  lemma {:induction false} NothingRead(chs: seq<Printed>)
    requires forall i :: 0 <= i < |chs| ==> !IsBearer(chs[i])
    ensures ReadParams(chs) == []
  {
    if chs != [] {
      ReadNothingIff(chs[|chs| - 1]);
      hide IsBearer, ReadOf;
      assert forall i :: 0 <= i < |chs| - 1 ==> chs[..|chs| - 1][i] == chs[i];
      NothingRead(chs[..|chs| - 1]);
    }
  }

  lemma {:induction false} FirstReadIff(chs: seq<Printed>, i: nat)
    requires i < |chs| && IsBearer(chs[i]) && forall j :: 0 <= j < i ==> !IsBearer(chs[j])
    ensures |ReadOf(chs[i])| <= |ReadParams(chs)|
    ensures ReadParams(chs) == ReadOf(chs[i]) <==> OthersEmpty(chs, i)
  {
    var n := |chs| - 1;
    var shorter, last := chs[..n], chs[n];
    hide IsBearer, ReadOf;
    assert forall j :: 0 <= j < n ==> shorter[j] == chs[j];
    assert ReadParams(chs) == ReadParams(shorter) + ReadOf(last);
    hide ReadParams;
    if i == n {
      NothingRead(shorter);
      assert ReadParams(shorter) + ReadOf(last) == ReadOf(last);
    } else {
      FirstReadIff(shorter, i);
      OthersEmptySnoc(chs, i);
      ReadNothingIff(last);
      hide OthersEmpty;
      NothingAdded(ReadParams(shorter), ReadOf(last), ReadOf(chs[i]));
    }
  }

  lemma {:induction false} NothingAdded<T>(a: seq<T>, b: seq<T>, c: seq<T>)
    requires |c| <= |a|
    ensures a + b == c <==> a == c && b == []
  {
  }

  /** A field with several Bearer challenges yields the parameters of all of them. The parser returns what
      it reads of the first one exactly if it does not refuse the field and the others carry none; when
      every challenge is a plain one, that is all its parameters exactly if the others carry none. */
  lemma {:induction false} FirstOnlyIff(chs: seq<Printed>, elements: seq<string>, i: nat)
    requires (forall k :: 0 <= k < |chs| ==> WellPrinted(chs[k])) && Filled(elements) == AllSegments(chs)
    requires i < |chs| && IsBearer(chs[i]) && forall j :: 0 <= j < i ==> !IsBearer(chs[j])
    ensures BearerSpec(Joined(elements)) == Ok(Some(ReadOf(chs[i]))) <==> !Refused(chs) && OthersEmpty(chs, i)
    ensures (forall k :: 0 <= k < |chs| ==> Plainly(chs, k)) ==>
      (BearerSpec(Joined(elements)) == Ok(Some(Carried(chs[i].params))) <==> OthersEmpty(chs, i))
  {
    hide WellPrinted, BearerSpec, Joined, Filled, AllSegments, Plainly, Refused, ReadOf, BearerToTheEnd, OthersEmpty, IsBearer;
    PrintedOutcome(chs, elements);
    assert SomeBearer(chs);
    FirstReadIff(chs, i);
    PlainlyIff(chs);
    if forall k :: 0 <= k < |chs| ==> Plainly(chs, k) {
      assert BearerToTheEnd(chs[i]);
      ReadOfSize(chs[i]);
    }
  }

  // ----- inputs that section 11 of RFC 9110 allows and the parser reads differently

  lemma {:induction false} FilledSegments(chs: seq<Printed>)
    requires forall i :: 0 <= i < |chs| ==> WellPrinted(chs[i])
    ensures Filled(AllSegments(chs)) == AllSegments(chs)
  {
    if chs != [] {
      var n := |chs| - 1;
      assert forall i :: 0 <= i < n ==> chs[..n][i] == chs[i];
      FilledSegments(chs[..n]);
      assert WellPrinted(chs[n]);
      hide WellPrinted, Segments, White;
      forall s | s in Segments(chs[n]) ensures !AllOf(s, White) {
        SegmentIsFilled(chs[n], s);
      }
      FilledConcat(AllSegments(chs[..n]), Segments(chs[n]));
    }
  }

  lemma {:induction false} FilledConcat(a: seq<string>, b: seq<string>)
    requires forall s :: s in b ==> !AllOf(s, White)
    ensures Filled(a + b) == Filled(a) + b
  {
    hide White;
    if b == [] {
      assert a + b == a;
    } else {
      var n := |b| - 1;
      assert (a + b)[..|a + b| - 1] == a + b[..n] && b == b[..n] + [b[n]];
      FilledConcat(a, b[..n]);
    }
  }

  lemma {:induction false} SegmentIsFilled(ch: Printed, s: string)
    requires WellPrinted(ch) && s in Segments(ch)
    ensures !AllOf(s, White)
  {
    hide White, Calm, WellFormed, Body, TokenChar;
    var i :| 0 <= i < |Segments(ch)| && Segments(ch)[i] == s;
    if i == 0 {
      TokenIsFilled(ch.lead, ch.scheme, s);
    } else {
      var p := ch.params[i];
      WellPrintedParam(ch, i);
      SegmentAt(ch, i);
      hide Segments, WellPrinted;
      ParamIsFilled(p);
    }
  }

  lemma {:induction false} ParamIsFilled(p: Param)
    requires WellFormed(p)
    ensures !AllOf(ParamSegment(p), White)
  {
    hide White, TokenChar, Assigned;
    TokenIsFilled(p.lead, p.name, ParamSegment(p));
  }

  lemma {:induction false} TokenIsFilled(lead: string, token: string, s: string)
    requires Token(token) && |lead| < |s| && s[|lead|] == token[0]
    ensures !AllOf(s, White)
  {
    TokenIsCalm(token);
  }

  /** A field with one challenge. */
  lemma {:induction false} OneChallenge(ch: Printed)
    requires WellPrinted(ch)
    ensures BearerSpec(Joined(Segments(ch))) == (
      if Spoiled(ch.params, |ch.params|, IsBearer(ch)) then Err(InvalidChallenge)
      else Ok(if IsBearer(ch) then Some(ReadOf(ch)) else None))
  {
    var chs := [ch];
    OneOutcome(ch);
    hide WellPrinted, BearerSpec, Joined, Outcome, AllSegments, Spoiled, ReadOf, IsBearer;
    FilledSegments(chs);
    PrintedOutcome(chs, AllSegments(chs));
  }

  lemma {:induction false} OneOutcome(ch: Printed)
    ensures AllSegments([ch]) == Segments(ch)
    ensures Outcome([ch]) == (
      if Spoiled(ch.params, |ch.params|, IsBearer(ch)) then Err(InvalidChallenge)
      else Ok(if IsBearer(ch) then Some(ReadOf(ch)) else None))
  {
    var chs := [ch];
    hide Segments, Spoiled, ReadOf, Unknown, IsBearer;
    assert chs[..0] == [] && chs[0] == ch;
    assert RefusedAt(chs, 0) <==> Spoiled(ch.params, |ch.params|, IsBearer(ch));
    assert IsBearer(chs[0]) == IsBearer(ch);
    assert ReadParams(chs) == ReadOf(ch);
  }

  /** A parameter after one space, without white space at its end. */
  function Simple(name: string, before: string, value: Value): Param {
    Param(" ", name, before, "", value, "")
  }

  predicate IsSimple(p: Param) {
    p.lead == " " && p.trail == ""
  }

  function Of(scheme: string, params: seq<Param>): Printed {
    Printed("", scheme, params, "", "")
  }

  lemma {:induction false} SegmentsListed(scheme: string, params: seq<Param>)
    requires params != [] && forall i :: 0 <= i < |params| ==> IsSimple(params[i])
    ensures var segments := Segments(Of(scheme, params));
      && |segments| == |params| && segments[0] == scheme + " " + Body(params[0])
      && forall i :: 0 < i < |params| ==> segments[i] == " " + Body(params[i])
  {
    hide Body;
    var segments := Segments(Of(scheme, params));
    assert IsSimple(params[0]);
    assert "" + ((scheme + (" " + Body(params[0]))) + "") == scheme + " " + Body(params[0]);
    forall i | 0 < i < |params| ensures segments[i] == " " + Body(params[i]) {
      assert segments[i] == ParamSegment(params[(i - 1) + 1]) && IsSimple(params[i]);
      assert " " + (Body(params[i]) + "") == " " + Body(params[i]);
    }
  }

  lemma {:induction false} TextOfOne(scheme: string, p: Param)
    requires IsSimple(p)
    ensures Joined(Segments(Of(scheme, [p]))) == scheme + " " + Body(p)
  {
    SegmentsListed(scheme, [p]);
    hide Segments, Body;
  }

  lemma {:induction false} TextOfTwo(scheme: string, p: Param, q: Param)
    requires IsSimple(p) && IsSimple(q)
    ensures Joined(Segments(Of(scheme, [p, q]))) == scheme + " " + Body(p) + "," + " " + Body(q)
  {
    SegmentsListed(scheme, [p, q]);
    var a, b := scheme + " " + Body(p), " " + Body(q);
    JoinedThree(a, b, "");
    hide Segments, Body, Joined;
    assert Segments(Of(scheme, [p, q])) == [a, b];
  }

  lemma {:induction false} TextOfThree(scheme: string, p: Param, q: Param, r: Param)
    requires IsSimple(p) && IsSimple(q) && IsSimple(r)
    ensures Joined(Segments(Of(scheme, [p, q, r])))
      == scheme + " " + Body(p) + "," + (" " + Body(q)) + "," + (" " + Body(r))
  {
    SegmentsListed(scheme, [p, q, r]);
    var a, b, c := scheme + " " + Body(p), " " + Body(q), " " + Body(r);
    JoinedThree(a, b, c);
    hide Segments, Body, Joined;
    assert Segments(Of(scheme, [p, q, r])) == [a, b, c];
  }

  lemma {:induction false} JoinedThree(a: string, b: string, c: string)
    ensures Joined([a, b]) == a + "," + b && Joined([a, b, c]) == a + "," + b + "," + c
  {
    assert [a, b][..1] == [a] && [a, b, c][..2] == [a, b];
  }

  lemma {:induction false} ExampleSchemes()
    ensures Lower("Bearer") == "bearer" && AllOf("Bearer", SchemeChar) && Token("Bearer")
    ensures Lower("Basic") != "bearer" && AllOf("Basic", SchemeChar) && Token("Basic")
    ensures Lower("bearer") == "bearer" && AllOf("bearer", SchemeChar) && Token("bearer")
  {
    assert "Bearer" == ['B', 'e', 'a', 'r', 'e', 'r'];
    assert "Basic" == ['B', 'a', 's', 'i', 'c'];
    assert "bearer" == ['b', 'e', 'a', 'r', 'e', 'r'];
    assert |Lower("Basic")| == 5;
  }

  lemma {:induction false} ThreeRead(ch: Printed, p: Param, q: Param, r: Param)
    requires IsBearer(ch) && ch.params == [p, q, r]
    requires Diverts(q) && Sound(p) && !Fatal(q) && !Fatal(r)
    ensures !Spoiled(ch.params, 3, true) && ReadOf(ch) == [Meant(p)]
  {
    hide Diverts, Sound, Fatal, Meant, IsBearer;
    assert Reached(ch.params, 1) == 1;
    assert Reached(ch.params, 2) == 1;
    assert Reached(ch.params, 3) == 1;
    assert ch.params[..1] == [p] && [p][..0] == [];
    assert Carried([p]) == [Meant(p)];
  }

  lemma {:induction false} ExampleParams()
    ensures var p, q, r := Simple("a", "", Bare("1")), Simple("b", " ", Bare("2")), Simple("c", "", Bare("3"));
      && WellFormed(p) && WellFormed(q) && WellFormed(r)
      && Diverts(q) && Sound(p) && !Fatal(q) && !Fatal(r) && Meant(p) == Parameter("a", "1")
      && Body(p) == "a=1" && Body(q) == "b =2" && Body(r) == "c=3"
  {
    assert Lower("a") == "a" && Lower("b") == "b" && Lower("c") == "c";
  }

  lemma {:induction false} ExampleText()
    ensures "Bearer" + " " + "a=1" + "," + (" " + "b =2") + "," + (" " + "c=3") == "Bearer a=1, b =2, c=3"
  {
  }

  /** White space before the second equals sign: that parameter and the third one are lost. */
  lemma {:induction false} LaterParametersLost()
    ensures BearerSpec("Bearer a=1, b =2, c=3") == Ok(Some([Parameter("a", "1")]))
  {
    var p, q, r := Simple("a", "", Bare("1")), Simple("b", " ", Bare("2")), Simple("c", "", Bare("3"));
    var ch := Of("Bearer", [p, q, r]);
    ExampleParams();
    ExampleSchemes();
    hide BearerSpec, Joined, Segments, WellFormed, Reached, Spoiled, Body, Diverts, Sound, Fatal, Meant, Token, ReadOf;
    assert IsBearer(ch) && WellPrinted(ch);
    hide *;
    ExampleText();
    TextOfThree("Bearer", p, q, r);
    ThreeRead(ch, p, q, r);
    OneChallenge(ch);
  }

  lemma {:induction false} FatalSecond(scheme: string)
    requires Token(scheme)
    ensures BearerSpec(scheme + " " + "a=1" + "," + " " + "bearer =2") == Err(InvalidChallenge)
  {
    var p, q := Simple("a", "", Bare("1")), Simple("bearer", " ", Bare("2"));
    var ch := Of(scheme, [p, q]);
    ExampleParams();
    ExampleSchemes();
    assert Body(q) == "bearer =2" && Fatal(q) && WellFormed(q);
    hide BearerSpec, Joined, Segments, WellFormed, Reached, Body, Sound, Fatal, Token, IsBearer;
    TextOfTwo(scheme, p, q);
    assert Fatal(ch.params[1]);
    assert WellPrinted(ch);
    OneChallenge(ch);
  }

  /** A further parameter named like the scheme, with that white space: the whole field is refused, even
      without a Bearer challenge in it. */
  lemma {:induction false} NamedLikeTheScheme()
    ensures BearerSpec("Bearer a=1, bearer =2") == Err(InvalidChallenge)
    ensures BearerSpec("Basic a=1, bearer =2") == Err(InvalidChallenge)
  {
    hide BearerSpec;
    ExampleSchemes();
    FatalSecond("Bearer");
    FatalSecond("Basic");
    assert "Bearer" + " " + "a=1" + "," + " " + "bearer =2" == "Bearer a=1, bearer =2";
    assert "Basic" + " " + "a=1" + "," + " " + "bearer =2" == "Basic a=1, bearer =2";
  }

  lemma {:induction false} UnsoundFirst(p: Param)
    requires IsSimple(p) && WellFormed(p) && !Sound(p)
    ensures BearerSpec("Bearer" + " " + Body(p)) == Err(InvalidChallenge)
  {
    var ch := Of("Bearer", [p]);
    ExampleSchemes();
    hide BearerSpec, Joined, Segments, WellFormed, Body, Sound, Token;
    TextOfOne("Bearer", p);
    assert WellPrinted(ch) && IsBearer(ch);
    OneChallenge(ch);
    SpoiledFirst(ch.params, true);
  }

  /** A bare tab in a quoted string, a backslash before a character beyond ASCII, a name with a dot: the
      field is refused. */
  lemma {:induction false} UnsoundRefused()
    ensures BearerSpec("Bearer a=\"\t\"") == Err(InvalidChallenge)
    ensures BearerSpec("Bearer a=\"\\\U{00E9}\"") == Err(InvalidChallenge)
    ensures BearerSpec("Bearer a.b=1") == Err(InvalidChallenge)
  {
    var tab, far := Simple("a", "", Quoted([Plain('\t')])), Simple("a", "", Quoted([Pair('\U{00E9}')]));
    var dot := Simple("a.b", "", Bare("1"));
    assert Raw([Plain('\t')]) == "\t" && Raw([Pair('\U{00E9}')]) == "\\\U{00E9}";
    assert "Bearer" + " " + Body(tab) == "Bearer a=\"\t\"";
    assert "Bearer" + " " + Body(far) == "Bearer a=\"\\\U{00E9}\"";
    assert "Bearer" + " " + Body(dot) == "Bearer a.b=1";
    assert !NameChar(dot.name[1]);
    hide BearerSpec, Body;
    UnsoundFirst(tab);
    UnsoundFirst(far);
    UnsoundFirst(dot);
  }

  lemma {:induction false} AllSegmentsOfTwo(a: Printed, b: Printed)
    ensures AllSegments([a, b]) == Segments(a) + Segments(b)
  {
    hide Segments;
    assert [a, b][..1] == [a] && [a][..0] == [];
    assert AllSegments([a]) == Segments(a);
  }

  lemma {:induction false} SchemesAlone()
    ensures var first, second := Of("Bearer", []), Of("A!", []);
      && WellPrinted(first) && WellPrinted(second) && Unknown(second) && BearerToTheEnd(first)
      && Segments(first) == ["Bearer"] && Segments(second) == ["A!"]
  {
    ExampleSchemes();
    assert "" + (("Bearer" + "") + "") == "Bearer" && "" + (("A!" + "") + "") == "A!";
    hide White, Calm;
    assert !SchemeChar("A!"[1]) && Token("A!");
  }

  /** A scheme with an unexpected character after a Bearer challenge: the field is refused. */
  lemma {:induction false} UnknownRefused()
    ensures BearerSpec("Bearer,A!") == Err(InvalidChallenge)
  {
    var first, second := Of("Bearer", []), Of("A!", []);
    var chs := [first, second];
    SchemesAlone();
    AllSegmentsOfTwo(first, second);
    JoinedThree("Bearer", "A!", "");
    assert "Bearer" + "," + "A!" == "Bearer,A!";
    hide BearerSpec, Joined, Segments, Token, Unknown, BearerToTheEnd, AllSegments, WellPrinted;
    FilledSegments(chs);
    assert RefusedAt(chs, 1);
    PrintedOutcome(chs, AllSegments(chs));
  }

  lemma {:induction false} TwoBearers()
    ensures var p, q := Simple("a", "", Bare("1")), Simple("b", "", Bare("2"));
      var first, second := Of("Bearer", [p]), Of("Bearer", [q]).(lead := " ");
      && WellPrinted(first) && WellPrinted(second) && IsBearer(first) && IsBearer(second)
      && Segments(first) == ["Bearer a=1"] && Segments(second) == [" Bearer b=2"]
      && Sound(p) && Sound(q) && Meant(p) == Parameter("a", "1") && Meant(q) == Parameter("b", "2")
  {
    var p, q := Simple("a", "", Bare("1")), Simple("b", "", Bare("2"));
    ExampleSchemes();
    assert Lower("a") == "a" && Lower("b") == "b";
    assert Body(p) == "a=1" && Body(q) == "b=2";
    assert "" + (("Bearer" + (" " + "a=1")) + "") == "Bearer a=1";
    assert " " + (("Bearer" + (" " + "b=2")) + "") == " Bearer b=2";
    hide Calm, Body, Meant, Sound;
  }

  lemma {:induction false} OneRead(ch: Printed, p: Param)
    requires IsBearer(ch) && ch.params == [p]
    ensures ReadOf(ch) == [Meant(p)] && (Sound(p) ==> !Spoiled(ch.params, 1, true)) && BearerToTheEnd(ch)
  {
    hide Sound, Fatal, Meant, IsBearer;
    SpoiledFirst(ch.params, true);
    assert ch.params[..1] == [p] && [p][..0] == [];
    assert Carried([p]) == [Meant(p)];
  }

  /** Two Bearer challenges: the parameters of both are returned. */
  lemma {:induction false} SecondBearerReturned()
    ensures BearerSpec("Bearer a=1, Bearer b=2") == Ok(Some([Parameter("a", "1"), Parameter("b", "2")]))
  {
    var p, q := Simple("a", "", Bare("1")), Simple("b", "", Bare("2"));
    var first, second := Of("Bearer", [p]), Of("Bearer", [q]).(lead := " ");
    var chs := [first, second];
    TwoBearers();
    OneRead(first, p);
    OneRead(second, q);
    ExampleSchemes();
    assert !Unknown(second);
    hide *;
    assert first.params == [p] && second.params == [q];
    FieldOfTwo(first, second, "Bearer a=1", " Bearer b=2");
    assert "Bearer a=1" + "," + " Bearer b=2" == "Bearer a=1, Bearer b=2";
    assert ReadOf(first) + ReadOf(second) == [Meant(p), Meant(q)];
  }

  lemma {:induction false} FieldOfTwo(a: Printed, b: Printed, x: string, y: string)
    requires WellPrinted(a) && WellPrinted(b) && Segments(a) == [x] && Segments(b) == [y]
    requires IsBearer(a) && IsBearer(b) && !Unknown(b)
    requires !Spoiled(a.params, |a.params|, true) && !Spoiled(b.params, |b.params|, true)
    ensures BearerSpec(x + "," + y) == Ok(Some(ReadOf(a) + ReadOf(b)))
  {
    hide *;
    AllSegmentsOfTwo(a, b);
    assert [x] + [y] == [x, y];
    JoinedThree(x, y, "");
    OutcomeOfTwo(a, b);
    FilledSegments([a, b]);
    PrintedOutcome([a, b], [x, y]);
  }

  lemma {:induction false} OutcomeOfTwo(a: Printed, b: Printed)
    requires IsBearer(a) && IsBearer(b) && !Unknown(b)
    requires !Spoiled(a.params, |a.params|, true) && !Spoiled(b.params, |b.params|, true)
    ensures Outcome([a, b]) == Ok(Some(ReadOf(a) + ReadOf(b)))
  {
    var chs := [a, b];
    hide Spoiled, Unknown, ReadOf, BearerToTheEnd, IsBearer;
    assert chs[..1] == [a] && [a][..0] == [];
    assert ReadParams([a]) == ReadOf(a);
    assert !RefusedAt(chs, 0) && !RefusedAt(chs, 1);
    assert IsBearer(chs[0]);
  }
}
