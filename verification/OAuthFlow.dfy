/** The Google and Meta OAuth flows as consumers of one-shot tokens. State tokens and
    selection tokens live in one store, and any token can be presented to any endpoint. */
module OAuthFlow {
  import opened Common

  datatype Platform = Gbp | Ga4 | MetaPages

  /** A call of a connect endpoint. */
  datatype Start = Start(tenant: string, platforms: set<Platform>)

  datatype Payload =
    | GoogleState(tenant: string, start: nat, platforms: set<Platform>)
    | MetaState(tenant: string, start: nat)
    | GoogleChoice(tenant: string, start: nat, platforms: set<Platform>)
    | MetaChoice(tenant: string, start: nat)

  datatype Endpoint = GoogleCallback | GoogleSelect | MetaCallback | MetaSelect

  /** A stored token, or a request that popped it and awaits the provider. */
  datatype Live = Token(payload: Payload) | Flight(endpoint: Endpoint, payload: Payload)

  /** A foreground save of a connector. */
  datatype Save = Save(platform: Platform, tenant: string, start: nat)

  datatype State = State(starts: seq<Start>, live: map<nat, Live>, saves: seq<Save>, next: nat)

  /** How a request ends: it fails, finds at most one candidate, finds several and
      stores a selection token, or fails to store it. `token` is whether the provider's
      exchange answered with an access token. */
  datatype Outcome = Fails | Settles(token: bool) | Chooses | StoreFails

  datatype Step =
    | GoogleConnect(tenant: string, platforms: set<Platform>)
    | MetaConnect(tenant: string)
    | Expire(token: nat)
    | Present(endpoint: Endpoint, token: nat)
    | Finish(token: nat, outcome: Outcome)

  /** The platforms that a Google callback finds in a payload; a Meta choice has no such
      key and raises. */
  function GooglePlatforms(p: Payload): set<Platform> {
    if p.GoogleState? || p.GoogleChoice? then p.platforms else {}
  }

  function SaveIf(c: bool, platform: Platform, tenant: string, start: nat): seq<Save> {
    if c then [Save(platform, tenant, start)] else []
  }

  /** The connectors a finishing request saves, in order. A Meta callback that finds a
      single page asks for the page's token with a client it has closed already; that
      raises unless there is no access token to ask with. */
  function SavesOf(f: Live, outcome: Outcome): seq<Save>
    requires f.Flight?
  {
    var p := f.payload;
    if outcome.Fails? then []
    else
      match f.endpoint
      case GoogleCallback =>
        SaveIf(Ga4 in GooglePlatforms(p), Ga4, p.tenant, p.start) +
        SaveIf(Gbp in GooglePlatforms(p) && outcome.Settles?, Gbp, p.tenant, p.start)
      case MetaCallback => SaveIf(outcome.Settles? && !outcome.token, MetaPages, p.tenant, p.start)
      case GoogleSelect =>
        SaveIf(p.GoogleChoice? && Strip(p.tenant) != "" && outcome.Settles?, Gbp, Strip(p.tenant), p.start)
      case MetaSelect =>
        SaveIf(p.MetaChoice? && Strip(p.tenant) != "" && outcome.Settles?, MetaPages, Strip(p.tenant), p.start)
  }

  /** The selection token a finishing request stores. */
  function ChoiceOf(f: Live, outcome: Outcome): Option<Payload>
    requires f.Flight?
  {
    var p := f.payload;
    if !outcome.Chooses? then None
    else if f.endpoint == GoogleCallback && Gbp in GooglePlatforms(p)
    then Some(GoogleChoice(p.tenant, p.start, GooglePlatforms(p)))
    else if f.endpoint == MetaCallback then Some(MetaChoice(p.tenant, p.start))
    else None
  }

  function Connect(s: State, start: Start, p: Payload): State {
    State(s.starts + [start], s.live[s.next := Token(p)], s.saves, s.next + 1)
  }

  function FinishStep(s: State, token: nat, outcome: Outcome): State
    requires token in s.live && s.live[token].Flight?
  {
    var f := s.live[token];
    var rest := s.(live := s.live - {token}, saves := s.saves + SavesOf(f, outcome));
    match ChoiceOf(f, outcome)
    case None => rest
    case Some(p) => rest.(live := rest.live[s.next := Token(p)], next := s.next + 1)
  }

  function Apply(s: State, step: Step): State {
    match step
    case GoogleConnect(tenant, platforms) =>
      var asked := platforms * {Gbp, Ga4};
      Connect(s, Start(tenant, asked), GoogleState(tenant, |s.starts|, asked))
    case MetaConnect(tenant) => Connect(s, Start(tenant, {MetaPages}), MetaState(tenant, |s.starts|))
    case Expire(token) => if token in s.live && s.live[token].Token? then s.(live := s.live - {token}) else s
    case Present(endpoint, token) =>
      if token in s.live && s.live[token].Token?
      then s.(live := s.live[token := Flight(endpoint, s.live[token].payload)]) else s
    case Finish(token, outcome) =>
      if token in s.live && s.live[token].Flight? then FinishStep(s, token, outcome) else s
  }

  function Run(s: State, steps: seq<Step>): State
    decreases |steps|
  {
    if steps == [] then s else Run(Apply(s, steps[0]), steps[1..])
  }

  const EMPTY := State([], map[], [], 0)

  // ── What a step does ────────────────────────────────────────────────────

  /** A connect call is noted and answers with one new token for what it asks, of which a
      Google flow grants its two platforms. */
  lemma ConnectStarts(s: State, tenant: string, platforms: set<Platform>)
    ensures var t := Apply(s, GoogleConnect(tenant, platforms));
            var asked := set x | x in platforms && x != MetaPages;
            && t.starts == s.starts + [Start(tenant, asked)] && t.saves == s.saves && t.next == s.next + 1
            && t.live == s.live[s.next := Token(GoogleState(tenant, |s.starts|, asked))]
    ensures var t := Apply(s, MetaConnect(tenant));
            && t.starts == s.starts + [Start(tenant, {MetaPages})] && t.saves == s.saves && t.next == s.next + 1
            && t.live == s.live[s.next := Token(MetaState(tenant, |s.starts|))]
  {
    forall x | x in platforms ensures x == Gbp || x == Ga4 || x == MetaPages {
      match x case Gbp => case Ga4 => case MetaPages =>
    }
    assert (set x | x in platforms && x != MetaPages) == platforms * {Gbp, Ga4};
  }

  /** A token that is presented is used up, whatever the endpoint; one that expires is gone;
      neither is possible twice. */
  lemma TokensGoOnce(s: State, endpoint: Endpoint, token: nat)
    requires token in s.live
    ensures s.live[token].Token? ==>
      && Apply(s, Present(endpoint, token)) == s.(live := s.live[token := Flight(endpoint, s.live[token].payload)])
      && Apply(s, Expire(token)) == s.(live := s.live - {token})
    ensures s.live[token].Flight? ==> Apply(s, Present(endpoint, token)) == s && Apply(s, Expire(token)) == s
  {
  }

  /** A finished request is gone; what it saves is appended and a selection token added. */
  predicate Finished(s: State, t: State, token: nat, saved: seq<Save>, choice: Option<Payload>) {
    && t.starts == s.starts && t.saves == s.saves + saved && t.next >= s.next
    && match choice
       case None => t.live == s.live - {token}
       case Some(p) => t.next > s.next && t.live == (s.live - {token})[s.next := Token(p)]
  }

  /** The Google callback saves GA4 at once, and the business profile if there is nothing
      to choose; otherwise it stores a selection token for it. A request that fails saves
      nothing, and neither does a token of a Meta flow. */
  lemma GoogleCallbackFinishes(s: State, token: nat, outcome: Outcome)
    requires token in s.live && s.live[token].Flight? && s.live[token].endpoint == GoogleCallback
    ensures var p, t := s.live[token].payload, Apply(s, Finish(token, outcome));
            var granted := if p.GoogleState? || p.GoogleChoice? then p.platforms else {};
            var ga4 := if Ga4 in granted && !outcome.Fails? then [Save(Ga4, p.tenant, p.start)] else [];
            var gbp := if Gbp in granted && outcome.Settles? then [Save(Gbp, p.tenant, p.start)] else [];
            Finished(s, t, token, ga4 + gbp,
                     if Gbp in granted && outcome.Chooses? then Some(GoogleChoice(p.tenant, p.start, granted))
                     else None)
  {
  }

  /** The Meta callback saves a page only without an access token, and stores a selection
      token when there are several pages. */
  lemma MetaCallbackFinishes(s: State, token: nat, outcome: Outcome)
    requires token in s.live && s.live[token].Flight? && s.live[token].endpoint == MetaCallback
    ensures var p, t := s.live[token].payload, Apply(s, Finish(token, outcome));
            Finished(s, t, token,
                     if outcome == Settles(false) then [Save(MetaPages, p.tenant, p.start)] else [],
                     if outcome.Chooses? then Some(MetaChoice(p.tenant, p.start)) else None)
  {
  }

  /** A selection endpoint saves its platform for a selection token of its own kind with a
      tenant, and never stores a token. */
  lemma SelectionFinishes(s: State, token: nat, outcome: Outcome)
    requires token in s.live && s.live[token].Flight? && s.live[token].endpoint in {GoogleSelect, MetaSelect}
    ensures var p, t := s.live[token].payload, Apply(s, Finish(token, outcome));
            var own := if s.live[token].endpoint == GoogleSelect then p.GoogleChoice? else p.MetaChoice?;
            var platform := if s.live[token].endpoint == GoogleSelect then Gbp else MetaPages;
            Finished(s, t, token,
                     if own && Strip(p.tenant) != "" && outcome.Settles?
                     then [Save(platform, Strip(p.tenant), p.start)] else [],
                     None)
  {
  }

  // ── Conservation ────────────────────────────────────────────────────────

  /** The platforms that a live token or request may still save. */
  function Carries(l: Live): set<Platform> {
    match l
    case Token(p) =>
      (match p
       case GoogleState(_, _, platforms) => platforms
       case MetaState(_, _) => {MetaPages}
       case GoogleChoice(_, _, _) => {Gbp}
       case MetaChoice(_, _) => {MetaPages})
    case Flight(endpoint, p) =>
      match endpoint
      case GoogleCallback => GooglePlatforms(p)
      case GoogleSelect => if p.GoogleChoice? then {Gbp} else {}
      case MetaCallback => {MetaPages}
      case MetaSelect => if p.MetaChoice? then {MetaPages} else {}
  }

  predicate Asked(s: State, start: nat, platform: Platform) {
    start < |s.starts| && platform in s.starts[start].platforms
  }

  predicate Carrying(live: map<nat, Live>, id: nat, start: nat, platform: Platform) {
    id in live && live[id].payload.start == start && platform in Carries(live[id])
  }

  ghost predicate OnlyAsked(s: State) {
    && (forall id, start, platform :: Carrying(s.live, id, start, platform) ==> Asked(s, start, platform))
    && (forall i :: 0 <= i < |s.saves| ==> Asked(s, s.saves[i].start, s.saves[i].platform))
  }

  ghost predicate LiveApart(live: map<nat, Live>) {
    forall id, jd, start, platform ::
      Carrying(live, id, start, platform) && Carrying(live, jd, start, platform) ==> id == jd
  }

  predicate SavesApart(saves: seq<Save>) {
    forall i, j :: 0 <= i < j < |saves| ==> saves[i].start != saves[j].start || saves[i].platform != saves[j].platform
  }

  ghost predicate SavedIsGone(s: State) {
    forall i, id :: 0 <= i < |s.saves| ==> !Carrying(s.live, id, s.saves[i].start, s.saves[i].platform)
  }

  /** Each platform of each start is in at most one place: a save, a token, a request. */
  ghost predicate Conserved(s: State) {
    OnlyAsked(s) && LiveApart(s.live) && SavesApart(s.saves) && SavedIsGone(s)
  }

  /** What a payload says about its start. */
  predicate PayloadOk(s: State, p: Payload) {
    && p.start < |s.starts|
    && match p
       case GoogleState(_, start, platforms) => platforms == s.starts[start].platforms && MetaPages !in platforms
       case MetaState(_, start) => s.starts[start].platforms == {MetaPages}
       case GoogleChoice(_, start, platforms) =>
         && platforms == s.starts[start].platforms && MetaPages !in platforms && Gbp in platforms
         && (Ga4 in platforms ==> Saved(s, start, Ga4))
       case MetaChoice(_, start) => s.starts[start].platforms == {MetaPages}
  }

  predicate Saved(s: State, start: nat, platform: Platform) {
    exists i :: 0 <= i < |s.saves| && s.saves[i].start == start && s.saves[i].platform == platform
  }

  predicate PayloadsOk(s: State) {
    forall id :: id in s.live ==> id < s.next && PayloadOk(s, s.live[id].payload)
  }

  ghost predicate Good(s: State) { Conserved(s) && PayloadsOk(s) }

  /** The endpoint saves nothing beyond what the token stands for: a Meta callback only
      meets Meta tokens, a Google callback no selection that asked for GA4. */
  predicate Harmless(endpoint: Endpoint, p: Payload) {
    && (endpoint == MetaCallback ==> p.MetaState? || p.MetaChoice?)
    && (endpoint == GoogleCallback && p.GoogleChoice? ==> Ga4 !in p.platforms)
  }

  /** Conservation survives the presentation of a token exactly if it is harmless. */
  lemma PresentExact(s: State, endpoint: Endpoint, token: nat)
    requires Good(s) && token in s.live && s.live[token].Token?
    ensures Conserved(Apply(s, Present(endpoint, token))) <==> Harmless(endpoint, s.live[token].payload)
  {
    var t := Apply(s, Present(endpoint, token));
    var p := s.live[token].payload;
    assert PayloadOk(s, p);
    if Harmless(endpoint, p) {
      HarmlessCarries(s, endpoint, p);
      Shrinks(s, t);
    } else if endpoint == MetaCallback {
      assert Carrying(t.live, token, p.start, MetaPages) && !Asked(t, p.start, MetaPages);
    } else {
      assert Carrying(t.live, token, p.start, Ga4);
      var i :| 0 <= i < |s.saves| && s.saves[i].start == p.start && s.saves[i].platform == Ga4;
      assert t.saves[i] == s.saves[i];
    }
  }

  lemma HarmlessCarries(s: State, endpoint: Endpoint, p: Payload)
    requires PayloadOk(s, p) && Harmless(endpoint, p)
    ensures Carries(Flight(endpoint, p)) <= Carries(Token(p))
  {
    forall x | x in Carries(Flight(endpoint, p)) ensures x in Carries(Token(p)) {
      match x case Gbp => case Ga4 => case MetaPages =>
    }
  }

  /** Live entries come to stand for fewer platforms, or disappear. */
  lemma Shrinks(s: State, t: State)
    requires Conserved(s) && t.starts == s.starts && t.saves == s.saves
    requires forall id :: id in t.live ==> id in s.live && t.live[id].payload.start == s.live[id].payload.start
    requires forall id :: id in t.live ==> Carries(t.live[id]) <= Carries(s.live[id])
    ensures Conserved(t)
  {
    assert forall id, start, platform ::
      Carrying(t.live, id, start, platform) ==> Carrying(s.live, id, start, platform);
  }

  lemma ConnectGood(s: State, start: Start, p: Payload)
    requires Good(s) && p.start == |s.starts| && Carries(Token(p)) <= start.platforms
    requires PayloadOk(Connect(s, start, p), p)
    ensures Good(Connect(s, start, p))
  {
    var t := Connect(s, start, p);
    forall id | id in t.live ensures id < t.next && PayloadOk(t, t.live[id].payload) {
      if id != s.next { assert PayloadOk(s, s.live[id].payload); PayloadOkGrows(s, t, s.live[id].payload); }
    }
    forall id: nat, o: nat, platform | Carrying(t.live, id, o, platform)
      ensures id == s.next ==> o == |s.starts| && platform in start.platforms
      ensures id != s.next ==> o < |s.starts| && Carrying(s.live, id, o, platform)
    {
      if id != s.next { assert PayloadOk(s, s.live[id].payload); }
    }
  }

  lemma PayloadOkGrows(s: State, t: State, p: Payload)
    requires PayloadOk(s, p) && s.starts <= t.starts && s.saves <= t.saves
    ensures PayloadOk(t, p)
  {
  }

  lemma PresentGood(s: State, endpoint: Endpoint, token: nat)
    requires Good(s) && token in s.live && s.live[token].Token? && Harmless(endpoint, s.live[token].payload)
    ensures Good(Apply(s, Present(endpoint, token)))
  {
    PresentExact(s, endpoint, token);
    var t := Apply(s, Present(endpoint, token));
    forall id | id in t.live ensures PayloadOk(t, t.live[id].payload) {
      assert PayloadOk(s, s.live[id].payload);
      PayloadOkGrows(s, t, s.live[id].payload);
    }
  }

  /** A request cashes in part of what it stands for. */
  lemma CashIn(s: State, token: nat, x: Save, left: Live)
    requires Conserved(s) && token in s.live && x.start == s.live[token].payload.start
    requires x.platform in Carries(s.live[token])
    requires left.payload.start == x.start && Carries(left) <= Carries(s.live[token]) - {x.platform}
    ensures Conserved(s.(live := s.live[token := left], saves := s.saves + [x]))
  {
    var mid := s.(live := s.live[token := left]);
    Shrinks(s, mid);
    assert Carrying(s.live, token, x.start, x.platform);
    assert forall id :: Carrying(mid.live, id, x.start, x.platform) ==> Carrying(s.live, id, x.start, x.platform);
    AddSave(mid, x);
  }

  lemma AddSave(s: State, x: Save)
    requires Conserved(s) && Asked(s, x.start, x.platform)
    requires forall id :: !Carrying(s.live, id, x.start, x.platform)
    requires forall i :: 0 <= i < |s.saves| ==> s.saves[i].start != x.start || s.saves[i].platform != x.platform
    ensures Conserved(s.(saves := s.saves + [x]))
  {
  }

  lemma Removed(s: State, token: nat)
    requires Conserved(s)
    ensures Conserved(s.(live := s.live - {token}))
  {
    Shrinks(s, s.(live := s.live - {token}));
  }

  /** A finished request is replaced by a token that stands for no more than it did. */
  lemma Replaced(s: State, token: nat, added: nat, l: Live)
    requires Conserved(s) && token in s.live && added !in s.live
    requires l.payload.start == s.live[token].payload.start && Carries(l) <= Carries(s.live[token])
    ensures Conserved(s.(live := (s.live - {token})[added := l]))
  {
    var t := s.(live := (s.live - {token})[added := l]);
    forall id, start, platform | Carrying(t.live, id, start, platform)
      ensures Carrying(s.live, if id == added then token else id, start, platform) && id != token
    {
    }
  }

  /** A stand-in for what is left of a request after some saves. */
  function Rest(p: Payload, platforms: set<Platform>): Live {
    Token(GoogleState(p.tenant, p.start, platforms))
  }

  lemma OneSave(s: State, token: nat, x: Save)
    requires Conserved(s) && token in s.live
    requires x.start == s.live[token].payload.start && x.platform in Carries(s.live[token])
    ensures Conserved(s.(live := s.live - {token}, saves := s.saves + [x]))
  {
    var left := Rest(s.live[token].payload, Carries(s.live[token]) - {x.platform});
    CashIn(s, token, x, left);
    var t := s.(live := s.live[token := left], saves := s.saves + [x]);
    Removed(t, token);
    assert t.live - {token} == s.live - {token};
  }

  lemma FinishGoogle(s: State, token: nat, outcome: Outcome)
    requires Good(s) && token in s.live && s.live[token].Flight?
    requires s.live[token].endpoint == GoogleCallback && !outcome.Fails?
    ensures Conserved(FinishStep(s, token, outcome))
  {
    var f := s.live[token];
    var p := f.payload;
    assert PayloadOk(s, p);
    var platforms := GooglePlatforms(p);
    var mid := s;
    if Ga4 in platforms {
      var x, left := Save(Ga4, p.tenant, p.start), Rest(p, platforms - {Ga4});
      CashIn(s, token, x, left);
      mid := s.(live := s.live[token := left], saves := s.saves + [x]);
      assert mid.live - {token} == s.live - {token};
    }
    assert Conserved(mid) && mid.live[token].payload.start == p.start;
    assert Gbp in platforms ==> Gbp in Carries(mid.live[token]);
    match ChoiceOf(f, outcome)
    case Some(choice) =>
      Replaced(mid, token, s.next, Token(choice));
      assert SavesOf(f, outcome) == SaveIf(Ga4 in platforms, Ga4, p.tenant, p.start);
      assert s.saves + SavesOf(f, outcome) == mid.saves;
    case None =>
      if Gbp in platforms && outcome.Settles? {
        OneSave(mid, token, Save(Gbp, p.tenant, p.start));
        assert SavesOf(f, outcome) == SaveIf(Ga4 in platforms, Ga4, p.tenant, p.start) + [Save(Gbp, p.tenant, p.start)];
        assert s.saves + SavesOf(f, outcome) == mid.saves + [Save(Gbp, p.tenant, p.start)];
      } else {
        Removed(mid, token);
        assert SavesOf(f, outcome) == SaveIf(Ga4 in platforms, Ga4, p.tenant, p.start);
        assert s.saves + SavesOf(f, outcome) == mid.saves;
      }
  }

  lemma FinishOther(s: State, token: nat, outcome: Outcome)
    requires Good(s) && token in s.live && s.live[token].Flight?
    requires s.live[token].endpoint == GoogleCallback ==> outcome.Fails?
    ensures Conserved(FinishStep(s, token, outcome))
  {
    var f := s.live[token];
    match ChoiceOf(f, outcome)
    case Some(choice) => Replaced(s, token, s.next, Token(choice)); assert s.saves + SavesOf(f, outcome) == s.saves;
    case None =>
      if SavesOf(f, outcome) == [] {
        Removed(s, token);
        assert s.saves + SavesOf(f, outcome) == s.saves;
      } else {
        OneSave(s, token, SavesOf(f, outcome)[0]);
        assert SavesOf(f, outcome) == [SavesOf(f, outcome)[0]];
      }
  }

  lemma FinishGood(s: State, token: nat, outcome: Outcome)
    requires Good(s) && token in s.live && s.live[token].Flight?
    ensures Good(FinishStep(s, token, outcome))
  {
    var f := s.live[token];
    if f.endpoint == GoogleCallback && !outcome.Fails? { FinishGoogle(s, token, outcome); }
    else { FinishOther(s, token, outcome); }
    var t := FinishStep(s, token, outcome);
    forall id | id in t.live ensures id < t.next && PayloadOk(t, t.live[id].payload) {
      if id in s.live { assert PayloadOk(s, s.live[id].payload); PayloadOkGrows(s, t, s.live[id].payload); }
      else { assert PayloadOk(s, f.payload); ChoiceOk(s, token, outcome); }
    }
  }

  lemma ChoiceOk(s: State, token: nat, outcome: Outcome)
    requires Conserved(s) && token in s.live && s.live[token].Flight? && PayloadOk(s, s.live[token].payload)
    requires ChoiceOf(s.live[token], outcome).Some?
    ensures PayloadOk(FinishStep(s, token, outcome), ChoiceOf(s.live[token], outcome).value)
  {
    var f := s.live[token];
    var t := FinishStep(s, token, outcome);
    if f.endpoint == MetaCallback {
      assert Carrying(s.live, token, f.payload.start, MetaPages);
    } else if Ga4 in GooglePlatforms(f.payload) {
      assert t.saves[|s.saves|] == Save(Ga4, f.payload.tenant, f.payload.start);
    }
  }

  function SavedPlatforms(saves: seq<Save>): set<Platform> {
    set i | 0 <= i < |saves| :: saves[i].platform
  }

  /** Nothing else is lost: a request that settles saves every platform it stands for, and
      one that asks for a choice saves the rest and passes the choice on. The exception is
      a Meta callback with an access token and a single page, which saves nothing. */
  lemma SettlingSavesAll(s: State, f: Live, token: bool)
    requires f.Flight? && PayloadOk(s, f.payload) && Strip(f.payload.tenant) != ""
    ensures SavedPlatforms(SavesOf(f, Settles(token))) == Carries(f) <==> !(f.endpoint == MetaCallback && token)
    ensures f.endpoint == MetaCallback && token ==> SavesOf(f, Settles(token)) == []
    ensures ChoiceOf(f, Chooses).Some? ==>
      SavedPlatforms(SavesOf(f, Chooses)) + Carries(Token(ChoiceOf(f, Chooses).value)) == Carries(f)
  {
    if f.endpoint == GoogleCallback {
      GoogleSavesAll(f, token);
    } else {
      OneSaveAtMost(f, Settles(token));
      OneSaveAtMost(f, Chooses);
    }
  }

  lemma GoogleSavesAll(f: Live, token: bool)
    requires f.Flight? && f.endpoint == GoogleCallback && MetaPages !in GooglePlatforms(f.payload)
    ensures SavedPlatforms(SavesOf(f, Settles(token))) == GooglePlatforms(f.payload)
    ensures Gbp in GooglePlatforms(f.payload) ==>
      SavedPlatforms(SavesOf(f, Chooses)) + {Gbp} == GooglePlatforms(f.payload)
  {
    var p := f.payload;
    var ga4 := SaveIf(Ga4 in GooglePlatforms(p), Ga4, p.tenant, p.start);
    SavedConcat(ga4, SaveIf(Gbp in GooglePlatforms(p), Gbp, p.tenant, p.start));
    SavedConcat(ga4, []);
    forall x | x in GooglePlatforms(p) ensures x == Ga4 || x == Gbp {
      match x case Gbp => case Ga4 => case MetaPages =>
    }
  }

  lemma SavedConcat(a: seq<Save>, b: seq<Save>)
    ensures SavedPlatforms(a + b) == SavedPlatforms(a) + SavedPlatforms(b)
    ensures |a| == 1 ==> SavedPlatforms(a) == {a[0].platform}
    ensures |b| == 1 ==> SavedPlatforms(b) == {b[0].platform}
  {
    forall x | x in SavedPlatforms(a) ensures x in SavedPlatforms(a + b) {
      var i :| 0 <= i < |a| && a[i].platform == x;
      assert (a + b)[i].platform == x;
    }
    forall x | x in SavedPlatforms(b) ensures x in SavedPlatforms(a + b) {
      var i :| 0 <= i < |b| && b[i].platform == x;
      assert (a + b)[|a| + i].platform == x;
    }
  }

  lemma OneSaveAtMost(f: Live, outcome: Outcome)
    requires f.Flight? && f.endpoint != GoogleCallback && !outcome.Fails?
    ensures |SavesOf(f, outcome)| <= 1
    ensures var saves := SavesOf(f, outcome);
            SavedPlatforms(saves) == if saves == [] then {} else {saves[0].platform}
  {
  }

  /** Every token presented is harmless where it is presented. */
  predicate HarmlessStep(s: State, step: Step) {
    step.Present? && step.token in s.live && s.live[step.token].Token? ==>
      Harmless(step.endpoint, s.live[step.token].payload)
  }

  predicate HarmlessRun(s: State, steps: seq<Step>)
    decreases |steps|
  {
    steps != [] ==> HarmlessStep(s, steps[0]) && HarmlessRun(Apply(s, steps[0]), steps[1..])
  }

  lemma StepGood(s: State, step: Step)
    requires Good(s) && HarmlessStep(s, step)
    ensures Good(Apply(s, step))
  {
    match step
    case GoogleConnect(tenant, platforms) =>
      var asked := platforms * {Gbp, Ga4};
      ConnectGood(s, Start(tenant, asked), GoogleState(tenant, |s.starts|, asked));
    case MetaConnect(tenant) => ConnectGood(s, Start(tenant, {MetaPages}), MetaState(tenant, |s.starts|));
    case Expire(token) => if token in s.live && s.live[token].Token? { Removed(s, token); ExpireGood(s, token); }
    case Present(endpoint, token) => if token in s.live && s.live[token].Token? { PresentGood(s, endpoint, token); }
    case Finish(token, outcome) => if token in s.live && s.live[token].Flight? { FinishGood(s, token, outcome); }
  }

  lemma ExpireGood(s: State, token: nat)
    requires PayloadsOk(s)
    ensures PayloadsOk(s.(live := s.live - {token}))
  {
  }

  lemma {:induction false} RunGood(s: State, steps: seq<Step>)
    requires Good(s) && HarmlessRun(s, steps)
    ensures Good(Run(s, steps))
    decreases |steps|
  {
    if steps != [] {
      StepGood(s, steps[0]);
      RunGood(Apply(s, steps[0]), steps[1..]);
    }
  }

  // ── Counting ────────────────────────────────────────────────────────────

  function SavedBy(s: State, platform: Platform): set<nat> {
    set i | 0 <= i < |s.saves| && s.saves[i].platform == platform
  }

  function CarriedBy(s: State, platform: Platform): set<nat> {
    set id | id in s.live && platform in Carries(s.live[id])
  }

  function AskedBy(s: State, platform: Platform): set<nat> {
    set o | 0 <= o < |s.starts| && platform in s.starts[o].platforms
  }

  function SavedStarts(s: State, platform: Platform): set<nat> {
    set i | 0 <= i < |s.saves| && s.saves[i].platform == platform :: s.saves[i].start
  }

  function CarriedStarts(s: State, platform: Platform): set<nat> {
    set id | id in s.live && platform in Carries(s.live[id]) :: s.live[id].payload.start
  }

  function Image(domain: set<nat>, f: map<nat, nat>): set<nat>
    requires domain <= f.Keys
  {
    set a | a in domain :: f[a]
  }

  lemma {:induction false} ImageSize(domain: set<nat>, f: map<nat, nat>)
    requires domain <= f.Keys && forall a, b :: a in domain && b in domain && f[a] == f[b] ==> a == b
    ensures |Image(domain, f)| == |domain|
    decreases |domain|
  {
    if domain != {} {
      var a :| a in domain;
      ImageSize(domain - {a}, f);
      assert Image(domain, f) == Image(domain - {a}, f) + {f[a]};
    }
  }

  lemma SubsetSize(a: set<nat>, b: set<nat>)
    requires a <= b
    ensures |a| <= |b|
  {
    assert b == a + (b - a);
  }

  lemma SavedSize(s: State, platform: Platform)
    requires SavesApart(s.saves)
    ensures |SavedStarts(s, platform)| == |SavedBy(s, platform)|
  {
    var saved := SavedBy(s, platform);
    var f := map i | i in saved :: s.saves[i].start;
    ImageSize(saved, f);
    var image := Image(saved, f);
    forall o | o in SavedStarts(s, platform) ensures o in image {
      var i :| 0 <= i < |s.saves| && s.saves[i].platform == platform && s.saves[i].start == o;
      assert i in saved && f[i] == o;
    }
    assert SavedStarts(s, platform) == image;
  }

  lemma CarriedSize(s: State, platform: Platform)
    requires LiveApart(s.live)
    ensures |CarriedStarts(s, platform)| == |CarriedBy(s, platform)|
  {
    var carried := CarriedBy(s, platform);
    var g := map id | id in carried :: s.live[id].payload.start;
    forall a, b | a in carried && b in carried && g[a] == g[b] ensures a == b {
      assert Carrying(s.live, a, g[a], platform) && Carrying(s.live, b, g[a], platform);
    }
    ImageSize(carried, g);
    var image := Image(carried, g);
    forall o | o in CarriedStarts(s, platform) ensures o in image {
      var id :| id in s.live && platform in Carries(s.live[id]) && s.live[id].payload.start == o;
      assert id in carried && g[id] == o;
    }
    assert CarriedStarts(s, platform) == image;
  }

  /** Per platform, saves plus outstanding tokens and requests never exceed the starts
      that asked for it. */
  lemma ConservedCounts(s: State, platform: Platform)
    requires Conserved(s)
    ensures |SavedBy(s, platform)| + |CarriedBy(s, platform)| <= |AskedBy(s, platform)|
  {
    SavedSize(s, platform);
    CarriedSize(s, platform);
    var saved, carried := SavedStarts(s, platform), CarriedStarts(s, platform);
    forall o | o in carried ensures o !in saved && o in AskedBy(s, platform) {
      var id :| id in s.live && platform in Carries(s.live[id]) && s.live[id].payload.start == o;
      assert Carrying(s.live, id, o, platform);
    }
    forall o | o in saved ensures o in AskedBy(s, platform) {}
    assert saved !! carried && saved + carried <= AskedBy(s, platform);
    SubsetSize(saved + carried, AskedBy(s, platform));
  }

  lemma EveryHarmlessRunConserves(steps: seq<Step>, platform: Platform)
    requires HarmlessRun(EMPTY, steps)
    ensures var s := Run(EMPTY, steps);
            |SavedBy(s, platform)| + |CarriedBy(s, platform)| <= |AskedBy(s, platform)|
  {
    RunGood(EMPTY, steps);
    ConservedCounts(Run(EMPTY, steps), platform);
  }

  /** A Google state token accepted by the Meta callback, which lists several pages, and a
      page chosen: a Meta connector is saved and nobody ever started a Meta flow. */
  lemma ForeignTokenBreaksCounts(tenant: string)
    requires Strip(tenant) != ""
    ensures var s := Run(EMPTY, [GoogleConnect(tenant, {Gbp}), Present(MetaCallback, 0), Finish(0, Chooses)] +
                                [Present(MetaSelect, 1), Finish(1, Settles(true))]);
            && s.saves == [Save(MetaPages, Strip(tenant), 0)]
            && |SavedBy(s, MetaPages)| == 1 && |AskedBy(s, MetaPages)| == 0
  {
    var first := [GoogleConnect(tenant, {Gbp}), Present(MetaCallback, 0), Finish(0, Chooses)];
    var second := [Present(MetaSelect, 1), Finish(1, Settles(true))];
    ForeignChoice(tenant);
    var s := Run(EMPTY, first);
    var t := Apply(s, Present(MetaSelect, 1));
    var u := Apply(t, Finish(1, Settles(true)));
    assert u.saves == [Save(MetaPages, Strip(tenant), 0)] && u.starts == s.starts;
    RunTwo(s, second[0], second[1]);
    RunAppend(EMPTY, first, second);
    assert SavedBy(u, MetaPages) == {0} && AskedBy(u, MetaPages) == {};
  }

  lemma ForeignChoice(tenant: string)
    ensures var s := Run(EMPTY, [GoogleConnect(tenant, {Gbp}), Present(MetaCallback, 0), Finish(0, Chooses)]);
            && s.starts == [Start(tenant, {Gbp})] && s.saves == []
            && s.live == map[1 := Token(MetaChoice(tenant, 0))]
  {
    assert {Gbp} * {Gbp, Ga4} == {Gbp};
    var a := Apply(EMPTY, GoogleConnect(tenant, {Gbp}));
    assert a.live == map[0 := Token(GoogleState(tenant, 0, {Gbp}))] && a.starts == [Start(tenant, {Gbp})];
    var b := Apply(a, Present(MetaCallback, 0));
    assert b.live == map[0 := Flight(MetaCallback, GoogleState(tenant, 0, {Gbp}))];
    var c := Apply(b, Finish(0, Chooses));
    assert c.live == map[1 := Token(MetaChoice(tenant, 0))];
    var steps := [GoogleConnect(tenant, {Gbp}), Present(MetaCallback, 0), Finish(0, Chooses)];
    assert steps == steps[..1] + steps[1..];
    RunAppend(EMPTY, steps[..1], steps[1..]);
    assert Run(a, []) == a && steps[..1][1..] == [];
    RunTwo(a, steps[1], steps[2]);
    assert steps[1..] == [steps[1], steps[2]];
  }

  lemma {:induction false} RunAppend(s: State, a: seq<Step>, b: seq<Step>)
    ensures Run(s, a + b) == Run(Run(s, a), b)
    decreases |a|
  {
    if a == [] {
      assert a + b == b;
    } else {
      assert (a + b)[1..] == a[1..] + b;
      RunAppend(Apply(s, a[0]), a[1..], b);
    }
  }

  lemma RunTwo(s: State, x: Step, y: Step)
    ensures Run(s, [x, y]) == Apply(Apply(s, x), y)
  {
    assert [x, y][1..] == [y] && [y][1..] == [];
    assert Run(Apply(s, x), [y]) == Run(Apply(Apply(s, x), y), []);
  }

  // ── Tenants ─────────────────────────────────────────────────────────────

  predicate TenantOf(s: State, tenant: string, start: nat) {
    start < |s.starts| && tenant == s.starts[start].tenant
  }

  /** Saves go to the tenant that started the flow; a selection endpoint trims its id. */
  predicate Lineage(s: State) {
    && (forall id :: id in s.live ==> TenantOf(s, s.live[id].payload.tenant, s.live[id].payload.start))
    && (forall i :: 0 <= i < |s.saves| ==>
          && s.saves[i].start < |s.starts|
          && (s.saves[i].tenant == s.starts[s.saves[i].start].tenant ||
              s.saves[i].tenant == Strip(s.starts[s.saves[i].start].tenant)))
  }

  lemma StepLineage(s: State, step: Step)
    requires Lineage(s)
    ensures Lineage(Apply(s, step))
  {
    if step.Finish? && step.token in s.live && s.live[step.token].Flight? {
      FinishLineage(s, step.token, step.outcome);
    }
  }

  lemma FinishLineage(s: State, token: nat, outcome: Outcome)
    requires Lineage(s) && token in s.live && s.live[token].Flight?
    ensures Lineage(FinishStep(s, token, outcome))
  {
    var f := s.live[token];
    assert TenantOf(s, f.payload.tenant, f.payload.start);
    SavesAreOwn(f, outcome);
  }

  lemma SavesAreOwn(f: Live, outcome: Outcome)
    requires f.Flight?
    ensures forall i :: 0 <= i < |SavesOf(f, outcome)| ==>
      && SavesOf(f, outcome)[i].start == f.payload.start
      && (SavesOf(f, outcome)[i].tenant == f.payload.tenant || SavesOf(f, outcome)[i].tenant == Strip(f.payload.tenant))
  {
  }

  /** Along every run, own tokens or foreign: no save ever crosses tenants. */
  lemma {:induction false} RunLineage(s: State, steps: seq<Step>)
    requires Lineage(s)
    ensures Lineage(Run(s, steps))
    decreases |steps|
  {
    if steps != [] {
      StepLineage(s, steps[0]);
      RunLineage(Apply(s, steps[0]), steps[1..]);
    }
  }

  /** A save's tenant is the tenant of its start, trimmed at most: what is missing are
      blanks at the two ends, and nothing if the tenant was trimmed. */
  lemma EverySaveIsOwn(steps: seq<Step>, i: nat) returns (before: string, after: string)
    requires i < |Run(EMPTY, steps).saves|
    ensures var s := Run(EMPTY, steps);
            && s.saves[i].start < |s.starts|
            && s.starts[s.saves[i].start].tenant == before + s.saves[i].tenant + after
            && Blank(before) && Blank(after)
            && (Trimmed(s.starts[s.saves[i].start].tenant) ==> s.saves[i].tenant == s.starts[s.saves[i].start].tenant)
  {
    RunLineage(EMPTY, steps);
    var s := Run(EMPTY, steps);
    var tenant := s.starts[s.saves[i].start].tenant;
    if s.saves[i].tenant == tenant {
      before, after := "", "";
    } else {
      before, after := StripSpec(tenant);
    }
  }
}
