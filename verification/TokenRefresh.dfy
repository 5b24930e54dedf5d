/** Handing out access tokens to concurrent callers, with one guarded refresh at a time. */
module TokenRefresh {
  import opened Basics

  datatype AuthError =
    | MissingRefreshToken | InvalidTokenResponse | InvalidAuthorizationHeader
    /** Network, status and decoding failures of the token endpoint. */
    | ExchangeFailed(reason: string)

  /** Times are milliseconds on one monotonic clock. */
  datatype TokenSet = TokenSet(access: string, refresh: Option<string>, expiresAt: Option<nat>, scopes: set<string>)

  /** What the token endpoint answered; the scope list is already split. */
  datatype TokenResponse = TokenResponse(
    access: string, tokenType: Option<string>, expiresIn: Option<nat>, refresh: Option<string>, scopes: Option<set<string>>)

  const LEEWAY_MS: nat := 30_000

  predicate Expiring(t: TokenSet, now: nat) {
    t.expiresAt.Some? && t.expiresAt.value <= now + LEEWAY_MS
  }

  predicate HeaderChar(c: char) {
    c == '\t' || ' ' <= c <= '~'
  }

  function Header(t: TokenSet): Result<string, AuthError> {
    if forall i :: 0 <= i < |t.access| ==> HeaderChar(t.access[i]) then Ok("Bearer " + t.access)
    else Err(InvalidAuthorizationHeader)
  }

  predicate IgnoringCase(a: string, b: string) {
    Lower(a) == Lower(b)
  }

  /** A response without a refresh token keeps the one that was used. */
  function FromResponse(r: TokenResponse, requested: set<string>, prior: Option<string>,
        now: nat): Result<TokenSet, AuthError> {
    if r.access == "" || (r.tokenType.Some? && !IgnoringCase(r.tokenType.value, "bearer")) then Err(InvalidTokenResponse)
    else
      Ok(TokenSet(r.access, if r.refresh.Some? then r.refresh else prior,
        if r.expiresIn.Some? then Some(now + 1000 * r.expiresIn.value) else None,
        if r.scopes.Some? then r.scopes.value else requested))
  }

  // ----- the store

  datatype TokenKey = TokenKey(issuer: string, resource: string, clientId: string)

  class MemoryTokenStore {
    var tokens: map<TokenKey, TokenSet>

    constructor ()
      ensures tokens == map[]
    {
      tokens := map[];
    }

    method Get(key: TokenKey) returns (t: Option<TokenSet>)
      ensures t == if key in tokens then Some(tokens[key]) else None
    {
      t := if key in tokens then Some(tokens[key]) else None;
    }

    method Put(key: TokenKey, t: TokenSet)
      modifies this
      ensures tokens == old(tokens)[key := t]
    {
      tokens := tokens[key := t];
    }

    method Remove(key: TokenKey)
      modifies this
      ensures tokens == old(tokens) - {key}
    {
      tokens := tokens - {key};
    }
  }

  // ----- one caller alone

  datatype Outcome = Outcome(store: Option<TokenSet>, reply: Result<Option<string>, AuthError>)

  function Replied(t: TokenSet): Result<Option<string>, AuthError> {
    match Header(t)
    case Ok(h) => Ok(Some(h))
    case Err(e) => Err(e)
  }

  /** What a refreshed answer leaves in the store and returns, given the set that was consumed. */
  function Refreshed(consumed: TokenSet, answer: Result<TokenResponse, AuthError>,
        now: nat): Result<TokenSet, AuthError> {
    match answer
    case Err(e) => Err(e)
    case Ok(response) =>
      match FromResponse(response, consumed.scopes, consumed.refresh, now)
      case Err(e) => Err(e)
      case Ok(t) => if Header(t).Err? then Err(Header(t).error) else Ok(t)
  }

  /** What the first look decides; nothing when the caller has to go for the guard. */
  function FirstLook(t: Option<TokenSet>, now: nat): Option<Outcome> {
    if t.None? then Some(Outcome(None, Ok(None)))
    else if !Expiring(t.value, now) then Some(Outcome(t, Replied(t.value)))
    else if t.value.refresh.None? then Some(Outcome(None, Ok(None)))
    else None
  }

  /** What happens under the guard, given the set found there. */
  function SecondLook(t: Option<TokenSet>, now: nat, answer: Result<TokenResponse, AuthError>): Outcome {
    if t.None? then Outcome(None, Ok(None))
    else if !Expiring(t.value, now) then Outcome(t, Replied(t.value))
    else if t.value.refresh.None? then Outcome(t, Err(MissingRefreshToken))
    else
      match Refreshed(t.value, answer, now)
      case Err(e) => Outcome(t, Err(e))
      case Ok(renewed) => Outcome(Some(renewed), Replied(renewed))
  }

  // ----- the two looks in plain numbers

  /** More than thirty seconds are left, or there is no end. */
  predicate Good(t: TokenSet, now: nat) {
    t.expiresAt == None || now + 30000 < t.expiresAt.value
  }

  /** Visible ASCII, spaces and tabs. */
  predicate Sendable(access: string) {
    forall i :: 0 <= i < |access| ==> access[i] == '\t' || 32 <= access[i] as int < 127
  }

  function Shown(access: string): Result<Option<string>, AuthError> {
    if Sendable(access) then Ok(Some("Bearer " + access)) else Err(InvalidAuthorizationHeader)
  }

  /** The set an answer stands for: a lifetime in seconds from now, and what the answer leaves out kept. */
  function Renewed(was: TokenSet, response: TokenResponse, now: nat): TokenSet {
    TokenSet(response.access,
      if response.refresh == None then was.refresh else response.refresh,
      if response.expiresIn == None then None else Some(now + 1000 * response.expiresIn.value),
      if response.scopes == None then was.scopes else response.scopes.value)
  }

  /** An answer with an access token of type bearer, in whatever case, or without a type. */
  predicate Usable(response: TokenResponse) {
    response.access != "" && (response.tokenType == None || Spells(response.tokenType.value, "bearer"))
  }

  lemma {:induction false} ShownIs(t: TokenSet)
    ensures Replied(t) == Shown(t.access) && (Header(t).Ok? <==> Sendable(t.access))
  {
  }

  /** A good set is answered with its access token and stays; any other is never handed out: without a
      refresh token it is removed. */
  lemma {:induction false} FirstLookMeans(t: Option<TokenSet>, now: nat)
    ensures FirstLook(t, now) == (
      if t == None then Some(Outcome(None, Ok(None)))
      else if Good(t.value, now) then Some(Outcome(t, Shown(t.value.access)))
      else if t.value.refresh == None then Some(Outcome(None, Ok(None)))
      else None)
  {
    if t.Some? {
      ShownIs(t.value);
    }
  }

  /** Under the guard a good set is answered as it is; any other is never handed out, but replaced by the
      answer of the endpoint if that is usable, and kept otherwise. */
  lemma {:induction false} SecondLookMeans(t: Option<TokenSet>, now: nat, answer: Result<TokenResponse, AuthError>)
    ensures SecondLook(t, now, answer) == (
      if t == None then Outcome(None, Ok(None))
      else if Good(t.value, now) then Outcome(t, Shown(t.value.access))
      else if t.value.refresh == None then Outcome(t, Err(MissingRefreshToken))
      else if answer.Err? then Outcome(t, Err(answer.error))
      else if !Usable(answer.value) then Outcome(t, Err(InvalidTokenResponse))
      else if !Sendable(answer.value.access) then Outcome(t, Err(InvalidAuthorizationHeader))
      else Outcome(Some(Renewed(t.value, answer.value, now)), Ok(Some("Bearer " + answer.value.access))))
  {
    if t.Some? {
      ShownIs(t.value);
      RefreshedMeans(t.value, answer, now);
      hide Refreshed, Shown, Sendable, Replied;
    }
  }

  lemma {:induction false} RefreshedMeans(t: TokenSet, answer: Result<TokenResponse, AuthError>, now: nat)
    ensures Refreshed(t, answer, now) == (
      if answer.Err? then Err(answer.error)
      else if !Usable(answer.value) then Err(InvalidTokenResponse)
      else if !Sendable(answer.value.access) then Err(InvalidAuthorizationHeader)
      else Ok(Renewed(t, answer.value, now)))
    ensures answer.Ok? && Usable(answer.value) && Sendable(answer.value.access) ==>
      Replied(Renewed(t, answer.value, now)) == Ok(Some("Bearer " + answer.value.access))
  {
    if answer.Ok? {
      assert "bearer" == ['b', 'e', 'a', 'r', 'e', 'r'];
      assert Lower("bearer") == "bearer";
      if answer.value.tokenType.Some? {
        LowerSpells(answer.value.tokenType.value, "bearer");
      }
      ShownIs(Renewed(t, answer.value, now));
      hide Spells, Lower, Sendable;
    }
  }

  function Stored(tokens: map<TokenKey, TokenSet>, key: TokenKey): Option<TokenSet> {
    if key in tokens then Some(tokens[key]) else None
  }

  function Updated(tokens: map<TokenKey, TokenSet>, key: TokenKey, t: Option<TokenSet>): map<TokenKey, TokenSet> {
    if t.Some? then tokens[key := t.value] else tokens - {key}
  }

  /** One call from start to end; `meanwhile` is what others make of the store while this caller waits
      for the guard, and `later` is the clock once it is inside. */
  method AuthorizationHeader(store: MemoryTokenStore, key: TokenKey, now: nat,
      meanwhile: map<TokenKey, TokenSet>, later: nat, answer: Result<TokenResponse, AuthError>)
    returns (reply: Result<Option<string>, AuthError>)
    modifies store
    ensures var first := FirstLook(Stored(old(store.tokens), key), now);
      var o := if first.Some? then first.value else SecondLook(Stored(meanwhile, key), later, answer);
      && reply == o.reply
      && store.tokens == Updated(if first.Some? then old(store.tokens) else meanwhile, key, o.store)
  {
    var tokens := store.Get(key);
    if tokens.None? {
      assert store.tokens - {key} == store.tokens;
      return Ok(None);
    }
    if !Expiring(tokens.value, now) {
      assert store.tokens[key := tokens.value] == store.tokens;
      return Replied(tokens.value);
    }
    if tokens.value.refresh.None? {
      store.Remove(key);
      return Ok(None);
    }
    store.tokens := meanwhile;
    var current := store.Get(key);
    if current.None? {
      assert store.tokens - {key} == store.tokens;
      return Ok(None);
    }
    assert store.tokens[key := current.value] == store.tokens;
    if !Expiring(current.value, later) {
      return Replied(current.value);
    }
    if current.value.refresh.None? {
      return Err(MissingRefreshToken);
    }
    var refreshed := Refreshed(current.value, answer, later);
    if refreshed.Err? {
      return Err(refreshed.error);
    }
    store.Put(key, refreshed.value);
    return Replied(refreshed.value);
  }

  // ----- many callers, one key

  /** A stored set with its generation: every write to the store makes a new one. */
  datatype Entry = Entry(gen: nat, tokens: TokenSet)

  datatype At =
    | Begin
    /** Saw an expiring set without a refresh token; about to remove. */
    | Removing
    | Waiting
    | Holding
    /** Asking the endpoint with `consumed`; `now` and `writes` are the clock and the number of store
        writes at the second look. */
    | Refreshing(consumed: Entry, now: nat, writes: nat)
    | Done(reply: Result<Option<string>, AuthError>)
    | Dropped

  datatype Writer =
    | Refresher(consumed: Entry, now: nat)
    | Remover
    /** A completed login, or a removal asked for by the user. */
    | Outsider

  datatype Write = Write(before: Option<Entry>, after: Option<Entry>, writer: Writer)

  datatype Shared = Shared(store: Option<Entry>, next: nat, guard: Option<nat>, callers: seq<At>, writes: seq<Write>)

  datatype Event =
    | Step(i: nat, now: nat)
    | Answer(i: nat, now: nat, answer: Result<TokenResponse, AuthError>)
    /** The caller's future is dropped; a held guard is released. */
    | Drop(i: nat)
    | Login(tokens: TokenSet)
    | Clear

  function Init(initial: Option<TokenSet>, callers: nat): Shared {
    Shared(if initial.Some? then Some(Entry(0, initial.value)) else None, 1, None, seq(callers, _ => Begin), [])
  }

  function Written(s: Shared, after: Option<TokenSet>, writer: Writer): Shared {
    var e := if after.Some? then Some(Entry(s.next, after.value)) else None;
    s.(store := e, next := s.next + 1, writes := s.writes + [Write(s.store, e, writer)])
  }

  function Become(s: Shared, i: nat, at: At): Shared
    requires i < |s.callers|
  {
    s.(callers := s.callers[i := at])
  }

  /** Leave the guarded section. */
  function Finish(s: Shared, i: nat, reply: Result<Option<string>, AuthError>): Shared
    requires i < |s.callers|
  {
    Become(s, i, Done(reply)).(guard := None)
  }

  function Take(s: Shared, i: nat, now: nat): Shared
    requires i < |s.callers|
  {
    match s.callers[i]
    case Begin =>
      if s.store.None? then Become(s, i, Done(Ok(None)))
      else if !Expiring(s.store.value.tokens, now) then Become(s, i, Done(Replied(s.store.value.tokens)))
      else Become(s, i, if s.store.value.tokens.refresh.None? then Removing else Waiting)
    case Removing => Become(Written(s, None, Remover), i, Done(Ok(None)))
    case Waiting => if s.guard.None? then Become(s, i, Holding).(guard := Some(i)) else s
    case Holding =>
      if s.store.None? then Finish(s, i, Ok(None))
      else if !Expiring(s.store.value.tokens, now) then Finish(s, i, Replied(s.store.value.tokens))
      else if s.store.value.tokens.refresh.None? then Finish(s, i, Err(MissingRefreshToken))
      else Become(s, i, Refreshing(s.store.value, now, |s.writes|))
    case _ => s
  }

  function Do(s: Shared, e: Event): Shared {
    match e
    case Step(i, now) => if i < |s.callers| then Take(s, i, now) else s
    case Answer(i, now, answer) =>
      if i >= |s.callers| || !s.callers[i].Refreshing? then s
      else
        (match Refreshed(s.callers[i].consumed.tokens, answer, now)
         case Err(x) => Finish(s, i, Err(x))
         case Ok(renewed) =>
           Finish(Written(s, Some(renewed), Refresher(s.callers[i].consumed, s.callers[i].now)), i, Replied(renewed)))
    case Drop(i) =>
      if i >= |s.callers| || s.callers[i].Done? then s
      else if s.guard == Some(i) then Become(s, i, Dropped).(guard := None)
      else Become(s, i, Dropped)
    case Login(tokens) => Written(s, Some(tokens), Outsider)
    case Clear => Written(s, None, Outsider)
  }

  function Run(s: Shared, events: seq<Event>): Shared {
    if events == [] then s else Do(Run(s, events[..|events| - 1]), events[|events| - 1])
  }

  /** A call that nobody disturbs, step by step, does what the two looks say. */
  lemma {:induction false} UndisturbedRun(initial: Option<TokenSet>, now: nat, answer: Result<TokenResponse, AuthError>)
    ensures var s := Do(Do(Do(Do(Do(Init(initial, 1), Step(0, now)), Step(0, now)), Step(0, now)), Answer(0, now, answer)), Step(0, now));
      var first := FirstLook(initial, now);
      var o := if first.Some? then first.value else SecondLook(initial, now, answer);
      && s.callers[0] == Done(o.reply) && s.guard.None?
      && (if s.store.Some? then Some(s.store.value.tokens) else None) == o.store
  {
    hide Expiring, Refreshed, Replied;
  }

  function Found(s: Shared): Option<TokenSet> {
    if s.store.Some? then Some(s.store.value.tokens) else None
  }

  /** Whatever others have done before, a caller decides by the set it finds as the first look says. */
  lemma {:induction false} FirstDecides(s: Shared, i: nat, now: nat, later: nat)
    requires i < |s.callers| && s.callers[i] == Begin
    ensures var first, r := FirstLook(Found(s), now), Do(s, Step(i, now));
      && r.store == s.store && r.guard == s.guard
      && if first == None then r.callers[i] == Waiting
         else if first.value.store == Found(s) then r.callers[i] == Done(first.value.reply)
         else
           var gone := Do(r, Step(i, later));
           r.callers[i] == Removing && gone.callers[i] == Done(first.value.reply) && Found(gone) == first.value.store
  {
    hide Expiring, Replied;
  }

  /** And under the guard as the second look says, at once or when the endpoint answers. */
  lemma {:induction false} SecondDecides(s: Shared, i: nat, now: nat, answer: Result<TokenResponse, AuthError>)
    requires i < |s.callers| && s.callers[i] == Holding
    ensures var o, r := SecondLook(Found(s), now, answer), Do(s, Step(i, now));
      && r.store == s.store
      && if r.callers[i].Refreshing? then
           var done := Do(r, Answer(i, now, answer));
           r.guard == s.guard && done.guard == None && done.callers[i] == Done(o.reply) && Found(done) == o.store
         else r.guard == None && r.callers[i] == Done(o.reply) && o.store == Found(s)
  {
    hide Expiring, Refreshed, Replied;
  }

  // ----- mutual exclusion, under every event

  predicate Inside(at: At) {
    at.Holding? || at.Refreshing?
  }

  /** The guard is held by exactly the caller that is inside, if any. */
  ghost predicate Guarded(s: Shared) {
    && (s.guard.Some? ==> s.guard.value < |s.callers|)
    && forall i :: 0 <= i < |s.callers| ==> (Inside(s.callers[i]) <==> s.guard == Some(i))
  }

  /** Generations number the writes, and a refresh in flight knows whether anyone wrote meanwhile. */
  ghost predicate Numbered(s: Shared) {
    && (s.store.Some? ==> s.store.value.gen < s.next)
    && forall i :: 0 <= i < |s.callers| && s.callers[i].Refreshing? ==> InFlight(s, s.callers[i])
  }

  predicate InFlight(s: Shared, at: At)
    requires at.Refreshing?
  {
    && at.consumed.gen < s.next && at.consumed.tokens.refresh.Some? && Expiring(at.consumed.tokens, at.now)
    && at.writes <= |s.writes| && (at.writes == |s.writes| <==> s.store == Some(at.consumed))
  }

  lemma {:induction false} StepKeepsSafe(s: Shared, i: nat, now: nat)
    requires Guarded(s) && Numbered(s) && i < |s.callers|
    ensures Guarded(Take(s, i, now)) && Numbered(Take(s, i, now))
  {
    hide Expiring, Replied;
    assert s.callers[i].Refreshing? ==> InFlight(s, s.callers[i]);
  }

  lemma {:induction false} AnswerKeepsSafe(s: Shared, e: Event)
    requires Guarded(s) && Numbered(s) && e.Answer?
    ensures Guarded(Do(s, e)) && Numbered(Do(s, e))
  {
    hide Expiring, Refreshed, Replied;
    if e.i < |s.callers| && s.callers[e.i].Refreshing? {
      assert forall k :: 0 <= k < |s.callers| && s.callers[k].Refreshing? ==> k == e.i;
    }
  }

  lemma {:induction false} DoKeepsSafe(s: Shared, e: Event)
    requires Guarded(s) && Numbered(s)
    ensures Guarded(Do(s, e)) && Numbered(Do(s, e))
  {
    hide Expiring, Refreshed, Replied, Take;
    if e.Step? {
      if e.i < |s.callers| {
        StepKeepsSafe(s, e.i, e.now);
      }
    } else if e.Answer? {
      AnswerKeepsSafe(s, e);
    } else {
      assert forall i :: 0 <= i < |s.callers| && s.callers[i].Refreshing? ==> InFlight(s, s.callers[i]);
    }
  }

  lemma {:induction false} AlwaysSafe(initial: Option<TokenSet>, callers: nat, events: seq<Event>)
    ensures Guarded(Run(Init(initial, callers), events)) && Numbered(Run(Init(initial, callers), events))
  {
    if events != [] {
      AlwaysSafe(initial, callers, events[..|events| - 1]);
      DoKeepsSafe(Run(Init(initial, callers), events[..|events| - 1]), events[|events| - 1]);
    }
  }

  /** At most one refresh is ever in flight, whatever else happens to the store. */
  lemma {:induction false} SingleFlight(initial: Option<TokenSet>, callers: nat, events: seq<Event>, i: nat, j: nat)
    requires var s := Run(Init(initial, callers), events);
      i < |s.callers| && j < |s.callers| && s.callers[i].Refreshing? && s.callers[j].Refreshing?
    ensures i == j
  {
    AlwaysSafe(initial, callers, events);
    var s := Run(Init(initial, callers), events);
    assert Inside(s.callers[i]) && Inside(s.callers[j]);
  }

  /** A finished refresh replaces exactly the set it consumed if and only if nobody wrote to the store
      since its second look: a login or a removal in between is overwritten. */
  lemma {:induction false} ReplacesConsumedIff(initial: Option<TokenSet>, callers: nat, events: seq<Event>, i: nat,
        now: nat, answer: Result<TokenResponse, AuthError>)
    requires var s := Run(Init(initial, callers), events);
      i < |s.callers| && s.callers[i].Refreshing? && Refreshed(s.callers[i].consumed.tokens, answer, now).Ok?
    ensures var s := Run(Init(initial, callers), events);
      var t := Do(s, Answer(i, now, answer));
      && |t.writes| == |s.writes| + 1 && t.store.Some?
      && t.store.value.tokens == Refreshed(s.callers[i].consumed.tokens, answer, now).value
      && (t.writes[|s.writes|].before == Some(s.callers[i].consumed) <==> s.callers[i].writes == |s.writes|)
  {
    AlwaysSafe(initial, callers, events);
    hide Refreshed, Run, Init, Replied;
    var s := Run(Init(initial, callers), events);
    assert InFlight(s, s.callers[i]);
  }

  lemma {:induction false} RunOfFive(s: Shared, a: Event, b: Event, c: Event, d: Event, e: Event)
    ensures Run(s, [a, b, c, d, e]) == Do(Do(Do(Do(Do(s, a), b), c), d), e)
  {
    hide Do;
    assert [a, b, c, d, e][..4] == [a, b, c, d] && [a, b, c, d][..3] == [a, b, c];
    assert [a, b, c][..2] == [a, b] && [a, b][..1] == [a] && [a][..0] == [];
    assert Run(s, [a]) == Do(s, a);
    assert Run(s, [a, b]) == Do(Do(s, a), b);
    assert Run(s, [a, b, c]) == Do(Do(Do(s, a), b), c);
    assert Run(s, [a, b, c, d]) == Do(Do(Do(Do(s, a), b), c), d);
  }

  /** It does happen: with any expiring set that can be refreshed and any good answer, a login or a removal
      during the refresh is undone when the refresh ends. */
  lemma {:induction false} OutsiderOverwritten(expiring: TokenSet, now: nat, outside: Event,
        answer: Result<TokenResponse, AuthError>)
    requires Expiring(expiring, now) && expiring.refresh.Some? && Refreshed(expiring, answer, now).Ok?
    requires outside.Login? || outside.Clear?
    ensures var s := Run(Init(Some(expiring), 1),
        [Step(0, now), Step(0, now), Step(0, now), outside, Answer(0, now, answer)]);
      && |s.writes| == 2 && s.writes[0].writer.Outsider? && s.writes[1].writer.Refresher?
      && s.writes[0].after == (if outside.Login? then Some(Entry(1, outside.tokens)) else None)
      && s.writes[1].before == s.writes[0].after
      && s.store == s.writes[1].after == Some(Entry(2, Refreshed(expiring, answer, now).value))
      && s.callers == [Done(Replied(Refreshed(expiring, answer, now).value))]
  {
    hide Expiring, Refreshed, Replied;
    RunOfFive(Init(Some(expiring), 1), Step(0, now), Step(0, now), Step(0, now), outside, Answer(0, now, answer));
  }

  // ----- nothing stale is handed out, under every event

  /** In this step the caller gets the header of a good set that it finds in the store, or of the answer of
      the endpoint. */
  predicate HandsOut(s: Shared, e: Event, i: nat, header: string) {
    || (e.Step? && e.i == i && s.store.Some? && Good(s.store.value.tokens, e.now)
        && header == "Bearer " + s.store.value.tokens.access)
    || (e.Answer? && e.i == i && e.answer.Ok? && header == "Bearer " + e.answer.value.access)
  }

  lemma {:induction false} BecomesDone(s: Shared, e: Event, i: nat, header: string)
    requires i < |s.callers| && |Do(s, e).callers| == |s.callers|
    requires Do(s, e).callers[i] == Done(Ok(Some(header))) && s.callers[i] != Done(Ok(Some(header)))
    ensures HandsOut(s, e, i, header)
  {
    if s.store.Some? {
      ShownIs(s.store.value.tokens);
    }
    if e.Answer? && e.i < |s.callers| && s.callers[e.i].Refreshing? {
      RefreshedMeans(s.callers[e.i].consumed.tokens, e.answer, e.now);
    }
    hide Refreshed, Sendable, Replied, Usable;
  }

  lemma {:induction false} SameCallers(s: Shared, e: Event)
    ensures |Do(s, e).callers| == |s.callers|
  {
    hide Expiring, Refreshed, Replied;
  }

  /** Whatever others do meanwhile, every header ever handed out is that of a set which had more than thirty
      seconds left when the caller looked at the store, or one just received from the endpoint. */
  lemma {:induction false} NeverStale(initial: Option<TokenSet>, callers: nat, events: seq<Event>, i: nat, header: string)
    requires var s := Run(Init(initial, callers), events); i < |s.callers| && s.callers[i] == Done(Ok(Some(header)))
    ensures exists k :: 0 <= k < |events| && HandsOut(Run(Init(initial, callers), events[..k]), events[k], i, header)
  {
    if events != [] {
      var n := |events| - 1;
      var before := Run(Init(initial, callers), events[..n]);
      hide Do, HandsOut, Init;
      SameCallers(before, events[n]);
      if before.callers[i] == Done(Ok(Some(header))) {
        NeverStale(initial, callers, events[..n], i, header);
        var k :| 0 <= k < n && HandsOut(Run(Init(initial, callers), events[..n][..k]), events[..n][k], i, header);
        assert events[..n][..k] == events[..k];
      } else {
        BecomesDone(before, events[n], i, header);
      }
    }
  }

  // ----- callers only

  predicate CallersOnly(events: seq<Event>) {
    forall k :: 0 <= k < |events| ==> !events[k].Login? && !events[k].Clear?
  }

  /** One refresh in the history: it consumed an expiring set and put a later one in its place. */
  predicate Swap(w: Write) {
    && w.writer.Refresher? && w.before == Some(w.writer.consumed) && w.after.Some?
    && Expiring(w.writer.consumed.tokens, w.writer.now)
    && w.writer.consumed.gen < w.after.value.gen
  }

  /** The history is a chain: each refresh consumed what the one before it produced. */
  ghost predicate Chained(s: Shared) {
    && (forall k :: 0 <= k < |s.writes| ==> Swap(s.writes[k]))
    && (forall k :: 0 < k < |s.writes| ==> s.writes[k].before == s.writes[k - 1].after)
    && (s.writes != [] ==> s.store == s.writes[|s.writes| - 1].after)
  }

  /** Every set in the store can be refreshed, so nobody is about to remove it. */
  ghost predicate Renewable(s: Shared) {
    && (s.store.Some? ==> s.store.value.tokens.refresh.Some?)
    && (forall i :: 0 <= i < |s.callers| ==> !s.callers[i].Removing?)
    && (forall i :: 0 <= i < |s.callers| && s.callers[i].Refreshing? ==> s.callers[i].writes == |s.writes|)
  }

  lemma {:induction false} RefreshTokenKept(consumed: TokenSet, answer: Result<TokenResponse, AuthError>, now: nat)
    requires consumed.refresh.Some? && Refreshed(consumed, answer, now).Ok?
    ensures Refreshed(consumed, answer, now).value.refresh.Some?
  {
  }

  lemma {:induction false} AnswerKeepsChain(s: Shared, e: Event)
    requires Guarded(s) && Numbered(s) && Chained(s) && Renewable(s) && e.Answer?
    ensures Chained(Do(s, e)) && Renewable(Do(s, e))
  {
    hide Expiring, Refreshed, Replied;
    if e.i < |s.callers| && s.callers[e.i].Refreshing? {
      assert InFlight(s, s.callers[e.i]);
      assert forall k :: 0 <= k < |s.callers| && Inside(s.callers[k]) ==> k == e.i;
      if Refreshed(s.callers[e.i].consumed.tokens, e.answer, e.now).Ok? {
        RefreshTokenKept(s.callers[e.i].consumed.tokens, e.answer, e.now);
      }
    }
  }

  lemma {:induction false} OthersKeepChain(s: Shared, e: Event)
    requires Guarded(s) && Numbered(s) && Chained(s) && Renewable(s)
    requires e.Step? || e.Drop?
    ensures Chained(Do(s, e)) && Renewable(Do(s, e))
  {
    hide Expiring, Replied, Swap;
    assert Do(s, e).writes == s.writes && Do(s, e).store == s.store;
  }

  lemma {:induction false} AlwaysChained(initial: Option<TokenSet>, callers: nat, events: seq<Event>)
    requires initial.Some? ==> initial.value.refresh.Some?
    requires CallersOnly(events)
    ensures Chained(Run(Init(initial, callers), events)) && Renewable(Run(Init(initial, callers), events))
  {
    if events != [] {
      var shorter, e := events[..|events| - 1], events[|events| - 1];
      assert forall k :: 0 <= k < |shorter| ==> shorter[k] == events[k];
      AlwaysChained(initial, callers, shorter);
      AlwaysSafe(initial, callers, shorter);
      hide Chained, Renewable, Guarded, Numbered, Do, Init;
      var s := Run(Init(initial, callers), shorter);
      if e.Answer? {
        AnswerKeepsChain(s, e);
      } else {
        OthersKeepChain(s, e);
      }
    }
  }

  lemma {:induction false} GenerationsRise(s: Shared, j: nat, k: nat)
    requires Chained(s) && j < k < |s.writes|
    ensures s.writes[j].writer.consumed.gen < s.writes[k].writer.consumed.gen
    decreases k
  {
    assert Swap(s.writes[k - 1]) && Swap(s.writes[k]);
    if j < k - 1 {
      GenerationsRise(s, j, k - 1);
    }
  }

  /** Under any interleaving of callers, starting from a set that can be refreshed: every write to the
      store is a refresh that replaced the expiring set it consumed, no generation is consumed twice,
      and every stored set keeps a refresh token, so the removing branch is never reached. */
  lemma {:induction false} RefreshedOnce(initial: Option<TokenSet>, callers: nat, events: seq<Event>)
    requires initial.Some? ==> initial.value.refresh.Some?
    requires CallersOnly(events)
    ensures var s := Run(Init(initial, callers), events);
      && (forall k :: 0 <= k < |s.writes| ==> Swap(s.writes[k]))
      && (forall j, k :: 0 <= j < k < |s.writes| ==> s.writes[j].writer.consumed.gen != s.writes[k].writer.consumed.gen)
      && (s.store.Some? ==> s.store.value.tokens.refresh.Some?)
      && (forall i :: 0 <= i < |s.callers| ==> !s.callers[i].Removing?)
  {
    AlwaysChained(initial, callers, events);
    hide Swap, Run, Init;
    var s := Run(Init(initial, callers), events);
    forall j, k | 0 <= j < k < |s.writes| ensures s.writes[j].writer.consumed.gen != s.writes[k].writer.consumed.gen {
      GenerationsRise(s, j, k);
    }
  }
}
