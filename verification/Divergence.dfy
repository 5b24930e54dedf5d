/** Grouping responses by canonical text: the verdict on non-determinism and its evidence. */
module Divergence {
  import opened Basics
  import opened Ordering
  import opened Json
  import opened Counters

  datatype Sample = Sample(count: nat, text: string)

  datatype DivergenceReport = DivergenceReport(total: nat, unique: nat, samples: seq<Sample>, diverged: bool)

  /** More frequent first; equally frequent in ascending order of their text. */
  predicate Before(a: Sample, b: Sample) {
    b.count < a.count || (a.count == b.count && Lt(a.text, b.text))
  }

  predicate InOrder(samples: seq<Sample>) {
    forall i, j :: 0 <= i < j < |samples| ==> Before(samples[i], samples[j])
  }

  function Texts(responses: seq<Value>): (ts: seq<string>)
    ensures |ts| == |responses| && forall i :: 0 <= i < |ts| ==> ts[i] == Canon(responses[i])
  {
    seq(|responses|, i requires 0 <= i < |responses| => Canon(responses[i]))
  }

  /** One sample per distinct text with the number of its occurrences, in reporting order. */
  ghost predicate Groups(samples: seq<Sample>, ts: multiset<string>) {
    && (forall s :: s in samples ==> s.text in ts && s.count == ts[s.text])
    && (forall t :: t in ts ==> Sample(ts[t], t) in samples)
    && InOrder(samples)
  }

  // ----- the grouping itself

  /** Place a sample of a new text at its position. */
  function Insert(samples: seq<Sample>, s: Sample): seq<Sample> {
    if samples == [] then [s]
    else if Before(s, samples[0]) then [s] + samples
    else [samples[0]] + Insert(samples[1..], s)
  }

  lemma {:induction false} BeforeTotal(a: Sample, b: Sample)
    requires a.text != b.text
    ensures Before(a, b) || Before(b, a)
  {
    LtTotal(a.text, b.text);
  }

  lemma {:induction false} BeforeTransitive(a: Sample, b: Sample, c: Sample)
    requires Before(a, b) && Before(b, c)
    ensures Before(a, c)
  {
    if a.count == b.count == c.count {
      LtTransitive(a.text, b.text, c.text);
    }
  }

  lemma {:induction false} BeforeIrreflexive(a: Sample)
    ensures !Before(a, a)
  {
    LtIrreflexive(a.text);
  }

  lemma {:induction false} InsertMeaning(samples: seq<Sample>, s: Sample)
    requires InOrder(samples) && forall x :: x in samples ==> x.text != s.text
    ensures forall x :: x in Insert(samples, s) <==> x in samples || x == s
    ensures InOrder(Insert(samples, s))
  {
    hide Before;
    if samples != [] {
      var head, rest := samples[0], samples[1..];
      assert samples == [head] + rest;
      if Before(s, head) {
        forall i | 0 <= i < |samples| ensures Before(s, samples[i]) {
          if i > 0 {
            BeforeTransitive(s, head, samples[i]);
          }
        }
      } else {
        BeforeTotal(s, head);
        InsertMeaning(rest, s);
        var r := Insert(rest, s);
        forall i | 0 <= i < |r| ensures Before(head, r[i]) {
          assert r[i] in r;
          if r[i] != s {
            var k :| 0 <= k < |rest| && rest[k] == r[i];
            assert samples[k + 1] == r[i];
          }
        }
      }
    }
  }

  /** Count the responses by canonical text, then list the groups in reporting order. */
  method Analyze(responses: seq<Value>) returns (report: DivergenceReport)
    ensures report.total == |responses| && report.unique == |report.samples|
    ensures report.diverged <==> report.unique > 1
    ensures Groups(report.samples, multiset(Texts(responses)))
  {
    if responses == [] {
      return DivergenceReport(0, 0, [], false);
    }
    var groups: map<string, nat> := map[];
    ghost var ts := Texts(responses);
    assert ts[..0] == [] && Tally([]) == map[];
    hide Canon, Tally, Groups, Lists, Texts;
    for i := 0 to |responses|
      invariant groups == Tally(ts[..i])
    {
      var canonical := Canonicalize(responses[i]);
      TallySnoc(ts[..i], canonical);
      assert ts[..i + 1] == ts[..i] + [canonical];
      groups := groups[canonical := (if canonical in groups then groups[canonical] else 0) + 1];
    }
    assert ts[..|responses|] == ts;
    var samples := SortSamples(groups);
    TallyGroups(ts, samples);
    report := DivergenceReport(|responses|, |samples|, samples, |samples| > 1);
  }

  /** How often each text occurs. */
  function Tally(ts: seq<string>): map<string, nat> {
    map t | t in ts :: multiset(ts)[t]
  }

  lemma {:induction false} TallySnoc(ts: seq<string>, t: string)
    ensures Tally(ts + [t]) == Tally(ts)[t := (if t in Tally(ts) then Tally(ts)[t] else 0) + 1]
  {
    var l, r := Tally(ts + [t]), Tally(ts)[t := (if t in Tally(ts) then Tally(ts)[t] else 0) + 1];
    assert multiset(ts + [t]) == multiset(ts) + multiset{t};
    assert l.Keys == r.Keys;
  }

  ghost predicate Lists(samples: seq<Sample>, groups: map<string, nat>) {
    && InOrder(samples)
    && forall s :: s in samples <==> s.text in groups && groups[s.text] == s.count
  }

  method SortSamples(groups: map<string, nat>) returns (samples: seq<Sample>)
    ensures Lists(samples, groups)
  {
    var keys := Sorted(groups.Keys);
    samples := [];
    for i := 0 to |keys|
      invariant InOrder(samples)
      invariant forall s :: s in samples <==> s.text in keys[..i] && s.text in groups && groups[s.text] == s.count
    {
      assert keys[i] in groups.Keys;
      var s := Sample(groups[keys[i]], keys[i]);
      AscendingFresh(keys, i);
      InsertMeaning(samples, s);
      samples := Insert(samples, s);
      assert keys[..i + 1] == keys[..i] + [keys[i]];
    }
    assert keys[..|keys|] == keys;
  }

  lemma {:induction false} TallyGroups(ts: seq<string>, samples: seq<Sample>)
    requires Lists(samples, Tally(ts))
    ensures Groups(samples, multiset(ts))
  {
  }

  // ----- what the report means

  /** Texts count exactly as the values they name, because the canonical text is faithful. */
  lemma {:induction false} TextCounts(responses: seq<Value>, v: Value)
    ensures multiset(Texts(responses))[Canon(v)] == multiset(responses)[v]
  {
    if responses == [] {
      assert Texts(responses) == [];
    } else {
      var shorter, last := responses[..|responses| - 1], responses[|responses| - 1];
      assert responses == shorter + [last];
      assert Texts(responses) == Texts(shorter) + [Canon(last)];
      TextCounts(shorter, v);
      CanonFaithful(last, v);
      hide Canon;
    }
  }

  lemma {:induction false} SampleTexts(samples: seq<Sample>) returns (texts: seq<string>)
    ensures |texts| == |samples| && forall i :: 0 <= i < |texts| ==> texts[i] == samples[i].text
  {
    texts := seq(|samples|, i requires 0 <= i < |samples| => samples[i].text);
  }

  function SumOfCounts(samples: seq<Sample>): nat {
    if samples == [] then 0 else samples[0].count + SumOfCounts(samples[1..])
  }

  lemma {:induction false} DistinctTexts(samples: seq<Sample>, m: multiset<string>, i: nat, j: nat)
    requires Groups(samples, m) && i < j < |samples|
    ensures samples[i].text != samples[j].text
  {
    assert samples[i] in samples && samples[j] in samples;
    BeforeIrreflexive(samples[i]);
    assert Before(samples[i], samples[j]);
  }

  lemma {:induction false} SumsAgree(samples: seq<Sample>, texts: seq<string>, m: multiset<string>)
    requires |texts| == |samples|
    requires forall i :: 0 <= i < |samples| ==> texts[i] == samples[i].text && samples[i].count == m[samples[i].text]
    ensures SumOfCounts(samples) == SumFields(m, texts)
  {
    if samples != [] {
      assert forall i :: 0 <= i < |samples[1..]| ==> samples[1..][i] == samples[i + 1] && texts[1..][i] == texts[i + 1];
      SumsAgree(samples[1..], texts[1..], m);
    }
  }

  /** The sample counts add up to the number of responses. */
  lemma {:induction false} CountsAddUp(samples: seq<Sample>, m: multiset<string>)
    requires Groups(samples, m)
    ensures SumOfCounts(samples) == |m|
  {
    var texts := SampleTexts(samples);
    forall i, j | 0 <= i < j < |texts| ensures texts[i] != texts[j] {
      DistinctTexts(samples, m, i, j);
    }
    forall t | t in m ensures t in texts {
      assert Sample(m[t], t) in samples;
      var i :| 0 <= i < |samples| && samples[i] == Sample(m[t], t);
      assert texts[i] == t;
    }
    assert forall i :: 0 <= i < |samples| ==> samples[i] in samples;
    SumIsSize(m, texts);
    SumsAgree(samples, texts, m);
  }

  function Values(responses: seq<Value>): set<Value> {
    set v | v in responses
  }

  /** There are as many groups as there are different values among the responses. */
  lemma {:induction false} GroupPerValue(samples: seq<Sample>, responses: seq<Value>)
    requires Groups(samples, multiset(Texts(responses)))
    ensures |samples| == |Values(responses)|
  {
    var m := multiset(Texts(responses));
    var texts := SampleTexts(samples);
    hide Canon, Values;
    forall i, j | 0 <= i < j < |texts| ensures texts[i] != texts[j] {
      DistinctTexts(samples, m, i, j);
    }
    DistinctSize(texts);
    forall t ensures t in NameSet(texts) <==> t in TextSet(responses) {
      TextOccurs(responses, t);
      if t in texts {
        var i :| 0 <= i < |texts| && texts[i] == t;
        assert samples[i] in samples;
      }
      if t in m {
        assert Sample(m[t], t) in samples;
        var i :| 0 <= i < |samples| && samples[i] == Sample(m[t], t);
        assert texts[i] == t;
      }
    }
    assert NameSet(texts) == TextSet(responses);
    ImageSize(responses);
  }

  function TextSet(responses: seq<Value>): set<string> {
    set v | v in responses :: Canon(v)
  }

  lemma {:induction false} TextOccurs(responses: seq<Value>, t: string)
    ensures t in TextSet(responses) <==> t in multiset(Texts(responses))
  {
    hide Canon;
    if t in TextSet(responses) {
      var v :| v in responses && Canon(v) == t;
      var i :| 0 <= i < |responses| && responses[i] == v;
      assert Texts(responses)[i] == t;
    }
    if t in multiset(Texts(responses)) {
      var i :| 0 <= i < |Texts(responses)| && Texts(responses)[i] == t;
      assert responses[i] in responses && Canon(responses[i]) == t;
    }
  }

  lemma {:induction false} DistinctSize(texts: seq<string>)
    requires forall i, j :: 0 <= i < j < |texts| ==> texts[i] != texts[j]
    ensures |NameSet(texts)| == |texts|
  {
    if texts == [] {
      assert NameSet(texts) == {};
    } else {
      var n := |texts| - 1;
      DistinctSize(texts[..n]);
      assert texts == texts[..n] + [texts[n]];
      assert NameSet(texts) == NameSet(texts[..n]) + {texts[n]};
    }
  }

  /** One more response adds its text exactly when its value is new. */
  lemma {:induction false} OneMoreValue(shorter: seq<Value>, last: Value)
    ensures Values(shorter + [last]) == Values(shorter) + {last}
    ensures TextSet(shorter + [last]) == TextSet(shorter) + {Canon(last)}
    ensures Canon(last) in TextSet(shorter) <==> last in Values(shorter)
  {
    hide Canon;
    assert forall v :: v in shorter + [last] <==> v in shorter || v == last;
    forall t ensures t in TextSet(shorter + [last]) <==> t in TextSet(shorter) + {Canon(last)} {
      if t in TextSet(shorter) {
        var v :| v in shorter && Canon(v) == t;
        assert v in shorter + [last];
      }
      assert last in shorter + [last];
    }
    if Canon(last) in TextSet(shorter) {
      var v :| v in shorter && Canon(v) == Canon(last);
      CanonFaithful(v, last);
    }
  }

  /** Naming values by their canonical text loses none of them. */
  lemma {:induction false} ImageSize(responses: seq<Value>)
    ensures |TextSet(responses)| == |Values(responses)|
  {
    if responses == [] {
      assert TextSet(responses) == {} && Values(responses) == {};
    } else {
      var shorter, last := responses[..|responses| - 1], responses[|responses| - 1];
      assert responses == shorter + [last];
      ImageSize(shorter);
      hide TextSet, Values, Canon;
      OneMoreValue(shorter, last);
    }
  }

  /** The verdict: divergence is reported exactly when two of the responses differ as JSON values. */
  lemma {:induction false} DivergedIff(samples: seq<Sample>, responses: seq<Value>)
    requires Groups(samples, multiset(Texts(responses)))
    ensures |samples| > 1 <==> exists v, w :: v in responses && w in responses && v != w
  {
    GroupPerValue(samples, responses);
    var vs := Values(responses);
    if |vs| > 1 {
      var v :| v in vs;
      assert |vs - {v}| > 0;
      var w :| w in vs - {v};
      assert v in responses && w in responses && v != w;
    }
    if v, w :| v in responses && w in responses && v != w {
      assert {v, w} <= vs;
      assert vs == {v, w} + (vs - {v, w});
    }
  }

  lemma {:induction false} InOrderUnique(s: seq<Sample>, t: seq<Sample>)
    requires InOrder(s) && InOrder(t) && forall x :: x in s <==> x in t
    ensures s == t
  {
    hide Before;
    assert t == [] || t[0] in t;
    if s == [] {
      assert t == [];
    } else {
      assert s[0] in t && t != [];
      assert t[0] in s;
      if s[0] != t[0] {
        var i :| 0 <= i < |t| && t[i] == s[0];
        var j :| 0 <= j < |s| && s[j] == t[0];
        BeforeTransitive(s[0], t[0], s[0]);
        BeforeIrreflexive(s[0]);
      }
      forall x ensures x in s[1..] <==> x in t[1..] {
        RestExcludesHead(s, x);
        RestExcludesHead(t, x);
      }
      InOrderUnique(s[1..], t[1..]);
      assert s == [s[0]] + s[1..] && t == [t[0]] + t[1..];
    }
  }

  lemma {:induction false} RestExcludesHead(s: seq<Sample>, x: Sample)
    requires s != [] && InOrder(s)
    ensures x in s[1..] <==> x in s && x != s[0]
  {
    BeforeIrreflexive(s[0]);
    hide Before;
    if x in s[1..] {
      var i :| 0 <= i < |s[1..]| && s[1..][i] == x;
      assert s[i + 1] == x;
    }
    if x in s && x != s[0] {
      var i :| 0 <= i < |s| && s[i] == x;
      assert s[1..][i - 1] == x;
    }
  }

  /** The samples are determined by the responses as a bag: no reordering changes the report. */
  lemma {:induction false} ReportIgnoresOrder(a: seq<Value>, b: seq<Value>, s: seq<Sample>, t: seq<Sample>)
    requires multiset(a) == multiset(b)
    requires Groups(s, multiset(Texts(a))) && Groups(t, multiset(Texts(b)))
    ensures s == t && |a| == |b|
  {
    var m, k := multiset(Texts(a)), multiset(Texts(b));
    hide Canon, InOrder;
    assert |a| == |multiset(a)| == |multiset(b)| == |b|;
    forall x ensures m[x] == k[x] {
      TextOccurs(a, x);
      TextOccurs(b, x);
      if x in m || x in k {
        var v :| (v in a || v in b) && Canon(v) == x;
        TextCounts(a, v);
        TextCounts(b, v);
      }
    }
    assert m == k;
    forall x ensures x in s <==> x in t {
      assert x in s ==> x == Sample(m[x.text], x.text);
      assert x in t ==> x == Sample(m[x.text], x.text);
    }
    InOrderUnique(s, t);
  }

  /** Samples are listed by falling count, those of one count by their texts. */
  lemma {:induction false} ReportOrder(samples: seq<Sample>, ts: multiset<string>, i: nat, j: nat)
    requires Groups(samples, ts) && i < j < |samples|
    ensures samples[i].count >= samples[j].count && samples[i].text != samples[j].text
    ensures samples[i].count == samples[j].count ==> Lt(samples[i].text, samples[j].text)
    ensures ts[samples[i].text] == samples[i].count > 0
  {
    DistinctTexts(samples, ts, i, j);
    assert samples[i] in samples;
    assert Before(samples[i], samples[j]);
  }
}
