/** The in-memory OAuth state store: a dictionary that is cleaned lazily, against the
    one-shot map with expiry that its callers rely on. */
module OAuthState {
  import opened Common

  type Payload = map<string, string>

  const TTL := 600.0
  const CREATED := "_created_at"
  const TTL_KEY := "_ttl_seconds"

  datatype Entry = Entry(payload: Payload, created: real, ttl: real)

  type Store = map<string, Entry>

  /** Each call reads the clock twice: once to clean up, once for itself. */
  datatype Call =
    | Put(token: string, payload: Payload, ttl: real, clean: real, at: real)
    | Pop(token: string, clean: real, at: real)

  function Cleaned(s: Store, now: real): Store {
    map token | token in s && now - s[token].created <= TTL :: s[token]
  }

  /** The payload without the two bookkeeping keys. */
  function Stripped(p: Payload): Payload { p - {CREATED, TTL_KEY} }

  /** Every key but those two keeps its value. */
  lemma StrippedExact(p: Payload, key: string)
    ensures key in Stripped(p) <==> key in p && key != "_created_at" && key != "_ttl_seconds"
    ensures key in Stripped(p) ==> Stripped(p)[key] == p[key]
  {
  }

  function After(s: Store, call: Call): Store {
    match call
    case Put(token, payload, ttl, clean, at) => Cleaned(s, clean)[token := Entry(payload, at, ttl)]
    case Pop(token, clean, _) => Cleaned(s, clean) - {token}
  }

  function Answer(s: Store, call: Call): Option<Payload> {
    match call
    case Put(_, _, _, _, _) => None
    case Pop(token, clean, at) =>
      var c := Cleaned(s, clean);
      if token in c && at - c[token].created <= c[token].ttl then Some(Stripped(c[token].payload)) else None
  }

  function Answers(s: Store, calls: seq<Call>): seq<Option<Payload>>
    decreases |calls|
  {
    if calls == [] then [] else [Answer(s, calls[0])] + Answers(After(s, calls[0]), calls[1..])
  }

  // ── The one-shot map: nothing is ever cleaned ───────────────────────────

  function PlainAfter(s: Store, call: Call): Store {
    match call
    case Put(token, payload, ttl, _, at) => s[token := Entry(payload, at, ttl)]
    case Pop(token, _, _) => s - {token}
  }

  /** A token pays out if it is stored, not popped since, and young enough: at most
      600 seconds at the cleaning clock and at most its own ttl at the second one. */
  function PlainAnswer(s: Store, call: Call): Option<Payload> {
    match call
    case Put(_, _, _, _, _) => None
    case Pop(token, clean, at) =>
      if token in s && clean - s[token].created <= TTL && at - s[token].created <= s[token].ttl
      then Some(Stripped(s[token].payload)) else None
  }

  function PlainAnswers(s: Store, calls: seq<Call>): seq<Option<Payload>>
    decreases |calls|
  {
    if calls == [] then [] else [PlainAnswer(s, calls[0])] + PlainAnswers(PlainAfter(s, calls[0]), calls[1..])
  }

  // ── Refinement ──────────────────────────────────────────────────────────

  /** The clock does not run backward. */
  predicate Timely(calls: seq<Call>, now: real)
    decreases |calls|
  {
    calls != [] ==> now <= calls[0].clean <= calls[0].at && Timely(calls[1..], calls[0].at)
  }

  /** The dictionary holds the plain map's entries, but for some older than 600 seconds. */
  predicate Refines(s: Store, plain: Store, now: real) {
    && (forall token :: token in s ==> token in plain && s[token] == plain[token])
    && (forall token :: token in plain && now - plain[token].created <= TTL ==> token in s)
  }

  lemma RefineStep(s: Store, plain: Store, call: Call, now: real)
    requires Refines(s, plain, now) && now <= call.clean <= call.at
    ensures Answer(s, call) == PlainAnswer(plain, call)
    ensures Refines(After(s, call), PlainAfter(plain, call), call.at)
  {
  }

  /** Lazy cleaning is invisible: every sequence of calls gets the answers of the plain
      one-shot map, so no cleaning ever changes the result of a later pop. */
  lemma {:induction false} LazyCleaningIsInvisible(s: Store, plain: Store, calls: seq<Call>, now: real)
    requires Refines(s, plain, now) && Timely(calls, now)
    ensures Answers(s, calls) == PlainAnswers(plain, calls)
    decreases |calls|
  {
    if calls != [] {
      RefineStep(s, plain, calls[0], now);
      LazyCleaningIsInvisible(After(s, calls[0]), PlainAfter(plain, calls[0]), calls[1..], calls[0].at);
    }
  }

  /** No token in `calls` is put or popped. */
  predicate Untouched(calls: seq<Call>, token: string) {
    forall i :: 0 <= i < |calls| ==> calls[i].token != token
  }

  function EndStore(s: Store, calls: seq<Call>): Store
    decreases |calls|
  {
    if calls == [] then s else EndStore(PlainAfter(s, calls[0]), calls[1..])
  }

  lemma {:induction false} UntouchedKept(s: Store, calls: seq<Call>, token: string)
    requires Untouched(calls, token)
    ensures token in EndStore(s, calls) <==> token in s
    ensures token in s ==> EndStore(s, calls)[token] == s[token]
    decreases |calls|
  {
    if calls != [] {
      assert calls[0].token != token;
      assert forall i :: 0 <= i < |calls[1..]| ==> calls[1..][i] == calls[i + 1];
      UntouchedKept(PlainAfter(s, calls[0]), calls[1..], token);
    }
  }

  /** The life of one token: stored, left alone, popped pays its payload exactly if its
      age allows; popped again it pays nothing. */
  lemma OneShot(s: Store, put: Call, between: seq<Call>, pop: Call, rest: seq<Call>, again: Call)
    requires put.Put? && pop.Pop? && again.Pop? && pop.token == put.token == again.token
    requires Untouched(between, put.token) && Untouched(rest, put.token)
    ensures var u := EndStore(PlainAfter(s, put), between);
            && (PlainAnswer(u, pop).Some? <==> pop.clean - put.at <= TTL && pop.at - put.at <= put.ttl)
            && (PlainAnswer(u, pop).Some? ==> PlainAnswer(u, pop).value == Stripped(put.payload))
            && PlainAnswer(EndStore(PlainAfter(u, pop), rest), again) == None
  {
    var u := EndStore(PlainAfter(s, put), between);
    UntouchedKept(PlainAfter(s, put), between, put.token);
    UntouchedKept(PlainAfter(u, pop), rest, put.token);
  }

  /** Whatever ttl is configured, 600 seconds is the most that is honoured, and right
      after a store no entry is older, but for the time between the call's clock reads:
      the cleaning reads the clock first, then the call itself. */
  lemma AtMostTenMinutes(s: Store, call: Call)
    requires call.clean <= call.at
    ensures call.Pop? && Answer(s, call).Some? ==>
      && call.token in s
      && call.at - s[call.token].created <= s[call.token].ttl
      && call.at - s[call.token].created <= TTL + (call.at - call.clean)
    ensures call.Put? ==> forall token :: token in After(s, call) ==>
      call.at - After(s, call)[token].created <= TTL + (call.at - call.clean)
  {
  }

  // ── The dictionary ──────────────────────────────────────────────────────

  class PendingStates {
    var states: Store

    constructor ()
      ensures states == map[]
    {
      states := map[];
    }

    method CleanupExpired(now: real)
      modifies this
      ensures states == Cleaned(old(states), now)
    {
      ghost var was := states;
      var expired := set token | token in states && now - states[token].created > TTL;
      var todo := expired;
      while todo != {}
        invariant todo <= expired && states == was - (expired - todo)
      {
        var token :| token in todo;
        states := states - {token};
        todo := todo - {token};
      }
      assert expired - todo == expired;
    }

    method StorePendingState(token: string, payload: Payload, ttl: real, clean: real, at: real)
      modifies this
      ensures states == After(old(states), Put(token, payload, ttl, clean, at))
    {
      CleanupExpired(clean);
      states := states[token := Entry(payload, at, ttl)];
    }

    method PopPendingState(token: string, clean: real, at: real) returns (r: Option<Payload>)
      modifies this
      ensures states == After(old(states), Pop(token, clean, at))
      ensures r == Answer(old(states), Pop(token, clean, at))
    {
      CleanupExpired(clean);
      if token !in states { return None; }
      var entry := states[token];
      states := states - {token};
      if at - entry.created > entry.ttl { return None; }
      r := Some(Stripped(entry.payload));
    }
  }
}
