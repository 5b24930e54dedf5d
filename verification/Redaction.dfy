/** Hiding the values under sensitive keys of a recorded request. */
module Redaction {
  import opened Basics
  import opened Ordering
  import opened Json

  const REDACTED := "[REDACTED]"

  const MARKERS: seq<string> := ["secret", "token", "password", "api_key", "apikey", "authorization"]

  predicate OccursAt(s: string, part: string, i: nat) {
    i + |part| <= |s| && s[i..i + |part|] == part
  }

  predicate Contains(s: string, part: string) {
    exists i: nat :: i <= |s| && OccursAt(s, part, i)
  }

  /** The key contains one of the markers, ignoring ASCII case. */
  predicate Sensitive(key: string) {
    exists m :: m in MARKERS && Contains(Lower(key), m)
  }

  function Redacted(v: Value): Value
    decreases v
  {
    match v
    case Object(members) =>
      Object(map k | k in members :: if Sensitive(k) then Str(REDACTED) else Redacted(members[k]))
    case Array(items) => Array(seq(|items|, i requires 0 <= i < |items| => Redacted(items[i])))
    case _ => v
  }

  /** Some object inside, at any depth, has a sensitive key. */
  predicate HasSecret(v: Value)
    decreases v
  {
    match v
    case Object(members) => exists k :: k in members && (Sensitive(k) || HasSecret(members[k]))
    case Array(items) => exists i :: 0 <= i < |items| && HasSecret(items[i])
    case _ => false
  }

  // ----- which keys are sensitive

  /** One of the six words, each letter small or capital. */
  predicate SensitiveWord(w: string) {
    Spells(w, "secret") || Spells(w, "token") || Spells(w, "password")
    || Spells(w, "api_key") || Spells(w, "apikey") || Spells(w, "authorization")
  }

  ghost predicate NamesSecret(key: string) {
    exists before, w, after :: key == before + w + after && SensitiveWord(w)
  }

  predicate Small(s: string) {
    forall i :: 0 <= i < |s| ==> !('A' <= s[i] <= 'Z')
  }

  lemma {:induction false} MarkersAre(w: string)
    ensures forall m :: m in MARKERS ==> Small(m)
    ensures Lower(w) in MARKERS <==> SensitiveWord(w)
  {
    var words := ["secret", "token", "password", "api_key", "apikey", "authorization"];
    assert MARKERS == words;
    forall m | m in words ensures Small(m) {
      assert m == "secret" || m == "token" || m == "password" || m == "api_key" || m == "apikey" || m == "authorization";
    }
    forall m | m in words ensures Lower(w) == m <==> Spells(w, m) {
      LowerSpells(w, m);
    }
    assert words[0] == "secret" && words[1] == "token" && words[2] == "password";
    assert words[3] == "api_key" && words[4] == "apikey" && words[5] == "authorization";
    hide Spells, Lower;
  }

  lemma {:induction false} LowerPart(key: string, i: nat, j: nat)
    requires i <= j <= |key|
    ensures Lower(key)[i..j] == Lower(key[i..j])
  {
  }

  lemma {:induction false} MarkerNamed(key: string, m: string, i: nat)
    requires m in MARKERS && i <= |key| && OccursAt(Lower(key), m, i)
    ensures NamesSecret(key)
  {
    hide SensitiveWord, Lower, Small;
    var w := key[i..i + |m|];
    LowerPart(key, i, i + |m|);
    MarkersAre(w);
    assert key == key[..i] + w + key[i + |m|..];
  }

  lemma {:induction false} NamedMarker(before: string, w: string, more: string)
    requires SensitiveWord(w)
    ensures Sensitive(before + w + more)
  {
    hide SensitiveWord, Lower, Small;
    var key, i := before + w + more, |before|;
    MarkersAre(w);
    assert key[i..i + |w|] == w;
    LowerPart(key, i, i + |w|);
    assert OccursAt(Lower(key), Lower(w), i);
    assert Contains(Lower(key), Lower(w));
  }

  /** A key is sensitive exactly when one of the six words occurs in it, in whatever case. */
  lemma {:induction false} SensitiveIff(key: string)
    ensures Sensitive(key) <==> NamesSecret(key)
  {
    hide SensitiveWord, Lower, OccursAt;
    if Sensitive(key) {
      var m :| m in MARKERS && Contains(Lower(key), m);
      var i: nat :| i <= |Lower(key)| && OccursAt(Lower(key), m, i);
      hide NamesSecret, Sensitive, Contains;
      MarkerNamed(key, m, i);
    }
    if NamesSecret(key) {
      var before, w, more :| key == before + w + more && SensitiveWord(w);
      hide NamesSecret, Sensitive, Contains;
      NamedMarker(before, w, more);
    }
  }

  /** Under a key that contains one of the words the marker text is left, under any other key the redacted
      value; the keys stay, and so does what is no object or array. */
  lemma {:induction false} RedactedEntries(v: Value, k: string)
    ensures v.Object? ==> Redacted(v).Object? && Redacted(v).members.Keys == v.members.Keys
    ensures v.Object? && k in v.members && NamesSecret(k) ==> Redacted(v).members[k] == Str("[REDACTED]")
    ensures v.Object? && k in v.members && !NamesSecret(k) ==> Redacted(v).members[k] == Redacted(v.members[k])
    ensures v.Array? ==> Redacted(v).Array? && |Redacted(v).items| == |v.items|
    ensures v.Array? ==> forall i :: 0 <= i < |v.items| ==> Redacted(v).items[i] == Redacted(v.items[i])
    ensures !v.Object? && !v.Array? ==> Redacted(v) == v
  {
    SensitiveIff(k);
    hide Sensitive, NamesSecret;
  }

  // ----- looking into a value by path

  datatype Step = Key(k: string) | Index(i: nat)

  function Child(v: Value, s: Step): Option<Value> {
    match s
    case Key(k) => if v.Object? && k in v.members then Some(v.members[k]) else None
    case Index(i) => if v.Array? && i < |v.items| then Some(v.items[i]) else None
  }

  function At(v: Value, path: seq<Step>): Option<Value> {
    if path == [] then Some(v)
    else if Child(v, path[0]).None? then None
    else At(Child(v, path[0]).value, path[1..])
  }

  /** The path never goes through a sensitive key. */
  predicate Visible(path: seq<Step>) {
    forall n :: 0 <= n < |path| && path[n].Key? ==> !Sensitive(path[n].k)
  }

  /** What one node shows without its children. */
  datatype Label = Leaf(v: Value) | Items(n: nat) | Fields(keys: set<string>)

  function LabelOf(v: Value): Label {
    match v
    case Array(items) => Items(|items|)
    case Object(members) => Fields(members.Keys)
    case _ => Leaf(v)
  }

  function LabelAt(v: Value, path: seq<Step>): Option<Label> {
    if At(v, path).Some? then Some(LabelOf(At(v, path).value)) else None
  }

  /** Both values show the same at every place that no sensitive key hides. */
  ghost predicate AgreeVisibly(a: Value, b: Value) {
    forall path :: Visible(path) ==> LabelAt(a, path) == LabelAt(b, path)
  }

  lemma {:induction false} ChildRedacted(v: Value, s: Step)
    requires s.Key? ==> !Sensitive(s.k)
    ensures Child(Redacted(v), s) == if Child(v, s).Some? then Some(Redacted(Child(v, s).value)) else None
  {
    hide Sensitive;
  }

  lemma {:induction false} AtRedacted(v: Value, path: seq<Step>)
    requires Visible(path)
    ensures At(Redacted(v), path) == if At(v, path).Some? then Some(Redacted(At(v, path).value)) else None
  {
    if path != [] {
      hide Sensitive, Redacted;
      assert path[0].Key? ==> !Sensitive(path[0].k);
      ChildRedacted(v, path[0]);
      if Child(v, path[0]).Some? {
        assert forall n :: 0 <= n < |path[1..]| ==> path[1..][n] == path[n + 1];
        AtRedacted(Child(v, path[0]).value, path[1..]);
      }
    }
  }

  lemma {:induction false} LabelKept(v: Value)
    ensures LabelOf(Redacted(v)) == LabelOf(v)
  {
    hide Sensitive;
    if v.Object? {
      assert Redacted(v).members.Keys == v.members.Keys;
    }
  }

  lemma {:induction false} AgreeBelow(a: Value, b: Value, s: Step)
    requires AgreeVisibly(a, b) && Child(a, s).Some? && Child(b, s).Some?
    requires s.Key? ==> !Sensitive(s.k)
    ensures AgreeVisibly(Child(a, s).value, Child(b, s).value)
  {
    hide Sensitive;
    forall path | Visible(path) ensures LabelAt(Child(a, s).value, path) == LabelAt(Child(b, s).value, path) {
      var longer := [s] + path;
      assert longer[1..] == path;
      assert Visible(longer) by {
        forall n | 0 <= n < |longer| && longer[n].Key? ensures !Sensitive(longer[n].k) {
          assert n > 0 ==> longer[n] == path[n - 1];
        }
      }
      assert LabelAt(a, longer) == LabelAt(b, longer);
    }
  }

  lemma {:induction false} AgreementRedactsAlike(a: Value, b: Value)
    requires AgreeVisibly(a, b)
    ensures Redacted(a) == Redacted(b)
    decreases a
  {
    hide Sensitive;
    assert Visible([]) && LabelAt(a, []) == LabelAt(b, []);
    match a
    case Object(members) =>
      forall k | k in members && !Sensitive(k) ensures Redacted(members[k]) == Redacted(b.members[k]) {
        AgreeBelow(a, b, Key(k));
        AgreementRedactsAlike(members[k], b.members[k]);
      }
    case Array(items) =>
      forall i | 0 <= i < |items| ensures Redacted(items[i]) == Redacted(b.items[i]) {
        AgreeBelow(a, b, Index(i));
        AgreementRedactsAlike(items[i], b.items[i]);
      }
    case _ =>
  }

  /** Redaction keeps exactly the non-sensitive part: it makes two values equal exactly when they
      agree at every place that no sensitive key hides. */
  lemma {:induction false} RedactedEqualIff(a: Value, b: Value)
    ensures Redacted(a) == Redacted(b) <==> AgreeVisibly(a, b)
  {
    if AgreeVisibly(a, b) {
      AgreementRedactsAlike(a, b);
    }
    if Redacted(a) == Redacted(b) {
      hide Sensitive, Redacted;
      forall path | Visible(path) ensures LabelAt(a, path) == LabelAt(b, path) {
        AtRedacted(a, path);
        AtRedacted(b, path);
        if At(a, path).Some? && At(b, path).Some? {
          LabelKept(At(a, path).value);
          LabelKept(At(b, path).value);
        }
      }
    }
  }

  /** Nothing is left under a sensitive key, wherever it is visible from. */
  lemma {:induction false} SecretsGone(v: Value, path: seq<Step>, k: string)
    requires Visible(path) && Sensitive(k) && At(v, path).Some? && Child(At(v, path).value, Key(k)).Some?
    ensures At(Redacted(v), path).Some? && Child(At(Redacted(v), path).value, Key(k)) == Some(Str(REDACTED))
  {
    hide Sensitive;
    AtRedacted(v, path);
  }

  /** Redacting twice is redacting once. */
  lemma {:induction false} RedactedTwice(v: Value)
    ensures Redacted(Redacted(v)) == Redacted(v)
    decreases v
  {
    hide Sensitive;
    match v
    case Object(members) =>
      forall k | k in members && !Sensitive(k) ensures Redacted(Redacted(members[k])) == Redacted(members[k]) {
        RedactedTwice(members[k]);
      }
    case Array(items) =>
      forall i | 0 <= i < |items| ensures Redacted(Redacted(items[i])) == Redacted(items[i]) {
        RedactedTwice(items[i]);
      }
    case _ =>
  }

  /** A value without a sensitive key is left as it is. */
  lemma {:induction false} CleanIsKept(v: Value)
    requires !HasSecret(v)
    ensures Redacted(v) == v
    decreases v
  {
    hide Sensitive;
    match v
    case Object(members) =>
      forall k | k in members ensures !Sensitive(k) && Redacted(members[k]) == members[k] {
        CleanIsKept(members[k]);
      }
    case Array(items) =>
      forall i | 0 <= i < |items| ensures Redacted(items[i]) == items[i] {
        CleanIsKept(items[i]);
      }
    case _ =>
  }

  /** A sensitive key is present exactly when some path through visible keys ends at one. */
  lemma {:induction false} HasSecretIff(v: Value)
    ensures HasSecret(v) <==> exists path, k :: Visible(path) && Sensitive(k) && At(v, path).Some? && Child(At(v, path).value, Key(k)).Some?
  {
    if HasSecret(v) {
      var path, k := SecretPath(v);
    }
    if path, k :| Visible(path) && Sensitive(k) && At(v, path).Some? && Child(At(v, path).value, Key(k)).Some? {
      PathHasSecret(v, path, k);
    }
  }

  lemma {:induction false} SecretPath(v: Value) returns (path: seq<Step>, k: string)
    requires HasSecret(v)
    ensures Visible(path) && Sensitive(k) && At(v, path).Some? && Child(At(v, path).value, Key(k)).Some?
    decreases v
  {
    hide Sensitive;
    match v
    case Object(members) =>
      var l :| l in members && (Sensitive(l) || HasSecret(members[l]));
      if Sensitive(l) {
        path, k := [], l;
      } else {
        var rest;
        rest, k := SecretPath(members[l]);
        path := [Key(l)] + rest;
        assert path[1..] == rest;
      }
    case Array(items) =>
      var i :| 0 <= i < |items| && HasSecret(items[i]);
      var rest;
      rest, k := SecretPath(items[i]);
      path := [Index(i)] + rest;
      assert path[1..] == rest;
  }

  lemma {:induction false} PathHasSecret(v: Value, path: seq<Step>, k: string)
    requires Sensitive(k) && At(v, path).Some? && Child(At(v, path).value, Key(k)).Some?
    ensures HasSecret(v)
    decreases |path|
  {
    hide Sensitive;
    if path != [] {
      PathHasSecret(Child(v, path[0]).value, path[1..], k);
    }
  }

  // ----- the rewriting passes

  function RedactedEntry(k: string, v: Value): Value {
    if Sensitive(k) then Str(REDACTED) else Redacted(v)
  }

  predicate SecretEntry(k: string, v: Value) {
    Sensitive(k) || HasSecret(v)
  }

  /** Replace every value under a sensitive key; tell whether there was any such key. */
  method RedactValue(v: Value) returns (r: Value, changed: bool)
    ensures r == Redacted(v) && changed == HasSecret(v)
    decreases v, 1
  {
    r, changed := v, false;
    if v.Object? {
      var out;
      out, changed := RedactMembers(v);
      r := Object(out);
    } else if v.Array? {
      var out;
      out, changed := RedactItems(v);
      r := Array(out);
    }
  }

  method RedactMembers(v: Value) returns (out: map<string, Value>, changed: bool)
    requires v.Object?
    ensures out == map k | k in v.members :: RedactedEntry(k, v.members[k])
    ensures changed == exists k :: k in v.members && SecretEntry(k, v.members[k])
    decreases v, 0, 1
  {
    var keys := Keys(v);
    out, changed := v.members, false;
    RewriteNone(v);
    hide *;
    for n := 0 to |keys|
      invariant keys == Keys(v) && out == Rewrite(v, n) && changed == SomeSecret(v, n)
    {
      RewriteOne(v, n);
      var entry, inner := RedactEntry(keys[n], v.members[keys[n]], v);
      out := out[keys[n] := entry];
      changed := changed || inner;
    }
    RewriteIs(v);
  }

  lemma {:induction false} RewriteNone(v: Value)
    requires v.Object?
    ensures Rewrite(v, 0) == v.members && !SomeSecret(v, 0)
  {
  }

  lemma {:induction false} RewriteOne(v: Value, n: nat)
    requires v.Object? && n < |Keys(v)|
    ensures var k := Keys(v)[n];
      && k in v.members
      && Rewrite(v, n + 1) == Rewrite(v, n)[k := RedactedEntry(k, v.members[k])]
      && SomeSecret(v, n + 1) == (SomeSecret(v, n) || SecretEntry(k, v.members[k]))
  {
    hide RedactedEntry, SecretEntry, Ascending;
    assert Keys(v)[n] in Keys(v);
  }

  method RedactEntry(key: string, entry: Value, ghost v: Value) returns (r: Value, changed: bool)
    requires v.Object? && key in v.members && v.members[key] == entry
    ensures r == RedactedEntry(key, entry) && changed == SecretEntry(key, entry)
    decreases v, 0, 0
  {
    if Sensitive(key) {
      r, changed := Str(REDACTED), true;
    } else {
      r, changed := RedactValue(entry);
    }
  }

  /** The members after the entries of the first `n` keys have been rewritten. */
  function Rewrite(v: Value, n: nat): (out: map<string, Value>)
    requires v.Object? && n <= |Keys(v)|
    ensures out.Keys == v.members.Keys
  {
    if n == 0 then v.members
    else
      var k := Keys(v)[n - 1];
      assert k in Keys(v);
      Rewrite(v, n - 1)[k := RedactedEntry(k, v.members[k])]
  }

  predicate SomeSecret(v: Value, n: nat)
    requires v.Object? && n <= |Keys(v)|
  {
    n > 0 && (
      var k := Keys(v)[n - 1];
      assert k in Keys(v);
      SomeSecret(v, n - 1) || SecretEntry(k, v.members[k]))
  }

  lemma {:induction false} RewriteAt(v: Value, n: nat, i: nat)
    requires v.Object? && i < n <= |Keys(v)|
    ensures var k := Keys(v)[i];
      k in v.members && Rewrite(v, n)[k] == RedactedEntry(k, v.members[k]) && (SecretEntry(k, v.members[k]) ==> SomeSecret(v, n))
  {
    hide RedactedEntry, SecretEntry, Ascending;
    assert Keys(v)[i] in Keys(v);
    if i < n - 1 {
      RewriteAt(v, n - 1, i);
    }
  }

  lemma {:induction false} SecretFound(v: Value, n: nat)
    requires v.Object? && n <= |Keys(v)| && SomeSecret(v, n)
    ensures exists k :: k in v.members && SecretEntry(k, v.members[k])
  {
    hide SecretEntry, Ascending;
    var k := Keys(v)[n - 1];
    assert k in Keys(v);
    if !SecretEntry(k, v.members[k]) {
      SecretFound(v, n - 1);
    }
  }

  lemma {:induction false} RewriteIs(v: Value)
    requires v.Object?
    ensures Rewrite(v, |Keys(v)|) == map k | k in v.members :: RedactedEntry(k, v.members[k])
    ensures SomeSecret(v, |Keys(v)|) == exists k :: k in v.members && SecretEntry(k, v.members[k])
  {
    hide RedactedEntry, SecretEntry, Ascending, Rewrite, SomeSecret, Keys;
    var n := |Keys(v)|;
    forall k | k in v.members
      ensures Rewrite(v, n)[k] == RedactedEntry(k, v.members[k]) && (SecretEntry(k, v.members[k]) ==> SomeSecret(v, n))
    {
      var i :| 0 <= i < n && Keys(v)[i] == k;
      RewriteAt(v, n, i);
    }
    if SomeSecret(v, n) {
      SecretFound(v, n);
    }
  }

  method RedactItems(v: Value) returns (out: seq<Value>, changed: bool)
    requires v.Array?
    ensures |out| == |v.items| && forall i :: 0 <= i < |out| ==> out[i] == Redacted(v.items[i])
    ensures changed == exists i :: 0 <= i < |v.items| && HasSecret(v.items[i])
    decreases v, 0
  {
    hide Redacted, HasSecret;
    out, changed := [], false;
    for n := 0 to |v.items|
      invariant |out| == n && forall i :: 0 <= i < n ==> out[i] == Redacted(v.items[i])
      invariant changed == exists i :: 0 <= i < n && HasSecret(v.items[i])
    {
      var item, inner := RedactValue(v.items[n]);
      out := out + [item];
      changed := changed || inner;
    }
  }

  /** The recorded call arguments of a request, when the body has them. */
  function Arguments(doc: Value): Option<Value> {
    if doc.Object? && "params" in doc.members && doc.members["params"].Object?
       && "arguments" in doc.members["params"].members
    then Some(doc.members["params"].members["arguments"])
    else None
  }

  /** They are what the path params, arguments leads to. */
  lemma {:induction false} ArgumentsAt(doc: Value)
    ensures Arguments(doc) == At(doc, [Key("params"), Key("arguments")])
  {
    var path := [Key("params"), Key("arguments")];
    assert path[1..] == [Key("arguments")] && path[1..][1..] == [];
    if Child(doc, path[0]).Some? {
      var params := Child(doc, path[0]).value;
      assert At(doc, path) == At(params, path[1..]);
      if Child(params, path[1..][0]).Some? {
        assert At(params, path[1..]) == At(Child(params, path[1..][0]).value, []);
      }
    }
  }

  function WithArguments(doc: Value, arguments: Value): Value
    requires Arguments(doc).Some?
  {
    Object(doc.members["params" := Object(doc.members["params"].members["arguments" := arguments])])
  }

  // ----- what a parser makes of the written text

  /** The text that is printed for a number once it has been read; nothing when the number is refused. */
  type Numbers = NumberText -> Option<NumberText>

  /** A JSON parser: the document a text holds, what becomes of numbers, and how deep arrays and objects
      may nest. */
  datatype Parser = Parser(parse: string -> Option<Value>, number: Numbers, depth: nat)

  /** Every number is accepted, and nothing nests deeper than this. */
  predicate Fits(v: Value, number: Numbers, depth: nat)
    decreases v
  {
    match v
    case Number(text) => number(text).Some?
    case Array(items) => depth > 0 && forall i :: 0 <= i < |items| ==> Fits(items[i], number, depth - 1)
    case Object(members) => depth > 0 && forall k :: k in members ==> Fits(members[k], number, depth - 1)
    case _ => true
  }

  /** The value with every number as it is once it has been read. */
  function Renumbered(v: Value, number: Numbers): Value
    decreases v
  {
    match v
    case Number(text) => if number(text).Some? then Number(number(text).value) else v
    case Array(items) => Array(seq(|items|, i requires 0 <= i < |items| => Renumbered(items[i], number)))
    case Object(members) => Object(map k | k in members :: Renumbered(members[k], number))
    case _ => v
  }

  /** Every number is read as it is written. */
  predicate Stable(v: Value, number: Numbers)
    decreases v
  {
    match v
    case Number(text) => number(text).Some? ==> number(text).value == text
    case Array(items) => forall i :: 0 <= i < |items| ==> Stable(items[i], number)
    case Object(members) => forall k :: k in members ==> Stable(members[k], number)
    case _ => true
  }

  /** Canonical text within the limits is read back but for the numbers, and what is read from any text
      is within the limits. */
  ghost predicate Reads(p: Parser) {
    && (forall v :: Fits(v, p.number, p.depth) ==> p.parse(Canon(v)) == Some(Renumbered(v, p.number)))
    && (forall text :: p.parse(text).Some? ==> Fits(p.parse(text).value, p.number, p.depth))
  }

  lemma {:induction false} RenumberedIs(v: Value, number: Numbers)
    ensures Renumbered(v, number) == v <==> Stable(v, number)
    decreases v
  {
    match v
    case Object(members) =>
      forall k | k in members ensures Renumbered(members[k], number) == members[k] <==> Stable(members[k], number) {
        RenumberedIs(members[k], number);
      }
      var r := Renumbered(v, number);
      assert r.members.Keys == members.Keys;
      assert forall k :: k in members ==> r.members[k] == Renumbered(members[k], number);
    case Array(items) =>
      forall i | 0 <= i < |items| ensures Renumbered(items[i], number) == items[i] <==> Stable(items[i], number) {
        RenumberedIs(items[i], number);
      }
      var r := Renumbered(v, number);
      assert forall i :: 0 <= i < |items| ==> r.items[i] == Renumbered(items[i], number);
    case _ =>
  }

  lemma {:induction false} RedactedFits(v: Value, number: Numbers, depth: nat)
    requires Fits(v, number, depth)
    ensures Fits(Redacted(v), number, depth)
    decreases v
  {
    hide Sensitive;
    match v
    case Object(members) =>
      forall k | k in members ensures Fits(Redacted(members[k]), number, depth - 1) {
        RedactedFits(members[k], number, depth - 1);
      }
    case Array(items) =>
      forall i | 0 <= i < |items| ensures Fits(Redacted(items[i]), number, depth - 1) {
        RedactedFits(items[i], number, depth - 1);
      }
    case _ =>
  }

  /** Redacting and reading the numbers commute. */
  lemma {:induction false} RedactedRenumbers(v: Value, number: Numbers)
    ensures Renumbered(Redacted(v), number) == Redacted(Renumbered(v, number))
    decreases v
  {
    hide Sensitive;
    match v
    case Object(members) =>
      forall k | k in members
        ensures Renumbered(Redacted(members[k]), number) == Redacted(Renumbered(members[k], number))
      {
        RedactedRenumbers(members[k], number);
      }
    case Array(items) =>
      forall i | 0 <= i < |items|
        ensures Renumbered(Redacted(items[i]), number) == Redacted(Renumbered(items[i], number))
      {
        RedactedRenumbers(items[i], number);
      }
    case _ =>
  }

  /** Redacting keeps the sensitive keys. */
  lemma {:induction false} RedactedHasSecret(v: Value)
    ensures HasSecret(Redacted(v)) == HasSecret(v)
    decreases v
  {
    hide Sensitive;
    match v
    case Object(members) =>
      forall k | k in members ensures HasSecret(Redacted(members[k])) == HasSecret(members[k]) {
        RedactedHasSecret(members[k]);
      }
      SecretAmong(members, Redacted(v).members);
    case Array(items) =>
      forall i | 0 <= i < |items| ensures HasSecret(Redacted(v).items[i]) == HasSecret(items[i]) {
        RedactedHasSecret(items[i]);
      }
      SecretInside(items, Redacted(v).items);
    case _ =>
  }

  /** So does reading the numbers. */
  lemma {:induction false} RenumberedHasSecret(v: Value, number: Numbers)
    ensures HasSecret(Renumbered(v, number)) == HasSecret(v)
    decreases v
  {
    hide Sensitive;
    match v
    case Object(members) =>
      forall k | k in members ensures HasSecret(Renumbered(members[k], number)) == HasSecret(members[k]) {
        RenumberedHasSecret(members[k], number);
      }
      SecretAmong(members, Renumbered(v, number).members);
    case Array(items) =>
      forall i | 0 <= i < |items| ensures HasSecret(Renumbered(v, number).items[i]) == HasSecret(items[i]) {
        RenumberedHasSecret(items[i], number);
      }
      SecretInside(items, Renumbered(v, number).items);
    case _ =>
  }

  lemma {:induction false} SecretAmong(a: map<string, Value>, b: map<string, Value>)
    requires a.Keys == b.Keys && forall k :: k in a && !Sensitive(k) ==> HasSecret(b[k]) == HasSecret(a[k])
    ensures HasSecret(Object(a)) == HasSecret(Object(b))
  {
    hide Sensitive;
    assert forall k :: k in a <==> k in b;
    if k :| k in a && (Sensitive(k) || HasSecret(a[k])) {
      assert k in b && (Sensitive(k) || HasSecret(b[k]));
    }
    if k :| k in b && (Sensitive(k) || HasSecret(b[k])) {
      assert k in a && (Sensitive(k) || HasSecret(a[k]));
    }
  }

  lemma {:induction false} SecretInside(a: seq<Value>, b: seq<Value>)
    requires |a| == |b| && forall i :: 0 <= i < |a| ==> HasSecret(b[i]) == HasSecret(a[i])
    ensures HasSecret(Array(a)) == HasSecret(Array(b))
  {
    if i :| 0 <= i < |a| && HasSecret(a[i]) {
      assert HasSecret(b[i]);
    }
    if i :| 0 <= i < |b| && HasSecret(b[i]) {
      assert HasSecret(a[i]);
    }
  }

  lemma {:induction false} ReplacedReads(doc: Value, x: Value, number: Numbers, depth: nat)
    requires Arguments(doc).Some? && Fits(doc, number, depth)
    ensures depth >= 2 && Fits(Arguments(doc).value, number, depth - 2)
    ensures Fits(x, number, depth - 2) ==> Fits(WithArguments(doc, x), number, depth)
  {
    var params := doc.members["params"];
    assert Fits(params, number, depth - 1);
    assert Fits(params.members["arguments"], number, depth - 2);
  }

  lemma {:induction false} ReplacedRenumbers(doc: Value, x: Value, number: Numbers)
    requires Arguments(doc).Some?
    ensures Arguments(Renumbered(doc, number)) == Some(Renumbered(Arguments(doc).value, number))
    ensures Renumbered(WithArguments(doc, x), number) == WithArguments(Renumbered(doc, number), Renumbered(x, number))
  {
    var params := doc.members["params"];
    var r := Renumbered(doc, number);
    assert r.members["params"] == Renumbered(params, number);
    assert r.members["params"].members["arguments"] == Renumbered(params.members["arguments"], number);
    var inner := params.members["arguments" := x];
    var left := Renumbered(Object(inner), number);
    assert left.members == r.members["params"].members["arguments" := Renumbered(x, number)];
    assert Renumbered(WithArguments(doc, x), number).members
        == r.members["params" := left];
  }

  /** The document of a body in which some call argument is sensitive. */
  function SecretDocument(p: Parser, body: string): Option<Value> {
    var doc := p.parse(body);
    if doc.Some? && Arguments(doc.value).Some? && HasSecret(Arguments(doc.value).value) then doc else None
  }

  function RedactedDocument(doc: Value): Value
    requires Arguments(doc).Some?
  {
    WithArguments(doc, Redacted(Arguments(doc).value))
  }

  /** What is written for a request body. */
  function Rewritten(p: Parser, body: string): string {
    match SecretDocument(p, body)
    case None => body
    case Some(doc) => Canon(RedactedDocument(doc))
  }

  method RedactBody(p: Parser, body: string) returns (written: string)
    ensures written == Rewritten(p, body)
  {
    hide Canon, Redacted, HasSecret;
    var doc := p.parse(body);
    if doc.None? || Arguments(doc.value).None? {
      return body;
    }
    var redacted, changed := RedactValue(Arguments(doc.value).value);
    if !changed {
      return body;
    }
    written := Canonicalize(WithArguments(doc.value, redacted));
  }

  /** Reading a rewritten document: the same document but for its arguments, and these are redacted. */
  lemma {:induction false} RedactedIsRead(p: Parser, doc: Value)
    requires Reads(p) && Arguments(doc).Some? && Fits(doc, p.number, p.depth)
    ensures Arguments(Renumbered(doc, p.number)).Some?
    ensures Renumbered(RedactedDocument(doc), p.number) == RedactedDocument(Renumbered(doc, p.number))
    ensures p.parse(Canon(RedactedDocument(doc))) == Some(RedactedDocument(Renumbered(doc, p.number)))
  {
    var arguments := Arguments(doc).value;
    hide Canon, Redacted, HasSecret, Arguments, WithArguments, Fits, Renumbered;
    ReplacedReads(doc, Redacted(arguments), p.number, p.depth);
    RedactedFits(arguments, p.number, p.depth - 2);
    RedactedRenumbers(arguments, p.number);
    ReplacedRenumbers(doc, Redacted(arguments), p.number);
  }

  /** What a trace shows. A body without arguments, or without a sensitive key in them, is written byte
      for byte. Any other is written as a text that parses to the same document but for its arguments,
      which are the redacted ones, and for the numbers, which are read once more. */
  lemma {:induction false} RewrittenMeans(p: Parser, body: string)
    requires Reads(p)
    ensures SecretDocument(p, body).None? ==> Rewritten(p, body) == body
    ensures SecretDocument(p, body).Some? ==>
      var doc := p.parse(body).value;
      && Arguments(doc).Some? && Arguments(Renumbered(doc, p.number)).Some?
      && p.parse(Rewritten(p, body)) == Some(RedactedDocument(Renumbered(doc, p.number)))
      && (Stable(doc, p.number) ==> p.parse(Rewritten(p, body)) == Some(RedactedDocument(doc)))
  {
    if SecretDocument(p, body).Some? {
      var doc := p.parse(body).value;
      RedactedIsRead(p, doc);
      RenumberedIs(doc, p.number);
    }
  }

  /** A rewritten body is left as it is when it is written again, if and only if the parser reads every
      number left in it as it is written. */
  lemma {:induction false} RewrittenTwiceIff(p: Parser, body: string)
    requires Reads(p)
    ensures Rewritten(p, Rewritten(p, body)) == Rewritten(p, body) <==>
      (SecretDocument(p, body).Some? ==> Stable(RedactedDocument(SecretDocument(p, body).value), p.number))
  {
    hide Canon, Redacted, HasSecret, Arguments, WithArguments, Fits, Renumbered, Stable;
    if SecretDocument(p, body).Some? {
      var doc := p.parse(body).value;
      assert Fits(doc, p.number, p.depth);
      WrittenAgain(p, doc);
      var next := RedactedDocument(doc);
      RenumberedIs(next, p.number);
      CanonFaithful(Renumbered(next, p.number), next);
    }
  }

  /** Writing a rewritten document again writes its numbers as they are read. */
  lemma {:induction false} WrittenAgain(p: Parser, doc: Value)
    requires Reads(p) && Arguments(doc).Some? && Fits(doc, p.number, p.depth) && HasSecret(Arguments(doc).value)
    ensures Rewritten(p, Canon(RedactedDocument(doc))) == Canon(Renumbered(RedactedDocument(doc), p.number))
  {
    var renumbered := Renumbered(doc, p.number);
    var arguments := Renumbered(Arguments(doc).value, p.number);
    hide Canon, Redacted, HasSecret, Arguments, WithArguments, Fits, Renumbered, Reads;
    RedactedIsRead(p, doc);
    ReplacedRenumbers(doc, Null, p.number);
    RenumberedHasSecret(Arguments(doc).value, p.number);
    RedactedHasSecret(arguments);
    Overwrites(renumbered, Redacted(arguments), Redacted(arguments));
    RedactedTwice(arguments);
  }

  // ----- parsers of this kind exist

  /** What the reader of canonical text makes of a whole text. */
  function Document(text: string): Option<Value> {
    match ReadValue(text)
    case NotRead => None
    case Read(v, rest) => if rest == "" then Some(v) else None
  }

  /** The reader of canonical text with these numbers and this depth. */
  function Reader(number: Numbers, depth: nat): Parser {
    Parser(
      text =>
        (match Document(text)
         case None => None
         case Some(v) => if Fits(v, number, depth) then Some(Renumbered(v, number)) else None),
      number, depth)
  }

  /** What has been read once is accepted again. */
  ghost predicate Closed(number: Numbers) {
    forall text :: number(text).Some? ==> number(number(text).value).Some?
  }

  lemma {:induction false} RenumberedFits(v: Value, number: Numbers, depth: nat)
    requires Closed(number) && Fits(v, number, depth)
    ensures Fits(Renumbered(v, number), number, depth)
    decreases v
  {
    match v
    case Object(members) =>
      forall k | k in members ensures Fits(Renumbered(members[k], number), number, depth - 1) {
        RenumberedFits(members[k], number, depth - 1);
      }
    case Array(items) =>
      forall i | 0 <= i < |items| ensures Fits(Renumbered(items[i], number), number, depth - 1) {
        RenumberedFits(items[i], number, depth - 1);
      }
    case _ =>
  }

  lemma {:induction false} DocumentReads(v: Value)
    ensures Document(Canon(v)) == Some(v)
  {
    CanonReads(v, "");
    hide Canon, ReadValue;
    assert Canon(v) + "" == Canon(v);
  }

  /** Whatever a parser does to numbers, and however deep it reads, some parser reads canonical text so. */
  lemma {:induction false} ReaderReads(number: Numbers, depth: nat)
    requires Closed(number)
    ensures Reads(Reader(number, depth))
  {
    var p := Reader(number, depth);
    hide Canon, Fits, Renumbered, Document, Closed;
    forall v | Fits(v, number, depth) ensures p.parse(Canon(v)) == Some(Renumbered(v, number)) {
      DocumentReads(v);
    }
    forall text | p.parse(text).Some? ensures Fits(p.parse(text).value, number, depth) {
      RenumberedFits(Document(text).value, number, depth);
    }
  }

  /** Two rewritten bodies are the same text exactly when they agree outside the arguments and
      visibly inside them: the redacted trace leaks nothing else and loses nothing else. */
  lemma {:induction false} BodiesEqualIff(a: Value, b: Value)
    requires Arguments(a).Some? && Arguments(b).Some?
    ensures Canon(RedactedDocument(a)) == Canon(RedactedDocument(b))
      <==> AgreeVisibly(Arguments(a).value, Arguments(b).value) && WithArguments(a, Null) == WithArguments(b, Null)
  {
    var ra, rb := Redacted(Arguments(a).value), Redacted(Arguments(b).value);
    hide Canon, Redacted, AgreeVisibly;
    CanonFaithful(WithArguments(a, ra), WithArguments(b, rb));
    RedactedEqualIff(Arguments(a).value, Arguments(b).value);
    ReplacedParts(a, b, ra, rb);
  }

  lemma {:induction false} ReplacedParts(a: Value, b: Value, x: Value, y: Value)
    requires Arguments(a).Some? && Arguments(b).Some?
    ensures WithArguments(a, x) == WithArguments(b, y) <==> x == y && WithArguments(a, Null) == WithArguments(b, Null)
  {
    var v, w := WithArguments(a, x), WithArguments(b, y);
    var v0, w0 := WithArguments(a, Null), WithArguments(b, Null);
    assert v.members["params"].members["arguments"] == x && w.members["params"].members["arguments"] == y;
    assert v0 == WithArguments(v, Null) by {
      Overwrite(a, x);
    }
    assert w0 == WithArguments(w, Null) by {
      Overwrite(b, y);
    }
    assert v == WithArguments(v0, x) by {
      Overwrites(a, Null, x);
    }
    assert w == WithArguments(w0, y) by {
      Overwrites(b, Null, y);
    }
  }

  lemma {:induction false} Overwrite(a: Value, x: Value)
    requires Arguments(a).Some?
    ensures Arguments(WithArguments(a, x)) == Some(x) && WithArguments(WithArguments(a, x), Null) == WithArguments(a, Null)
  {
    Overwrites(a, x, Null);
  }

  lemma {:induction false} Overwrites(a: Value, x: Value, y: Value)
    requires Arguments(a).Some?
    ensures Arguments(WithArguments(a, x)) == Some(x) && WithArguments(WithArguments(a, x), y) == WithArguments(a, y)
  {
    var p := a.members["params"].members;
    var w := WithArguments(a, x);
    var inner := p["arguments" := x];
    assert w.members["params"] == Object(inner);
    assert inner["arguments" := y] == p["arguments" := y];
    assert w.members["params" := Object(p["arguments" := y])] == a.members["params" := Object(p["arguments" := y])];
  }
}
