/** Replay by query: the two repair policies, the limit that is applied before them,
    and the loop that replays what they select. */
module ReplayPolicy {
  import opened Common
  import opened MetaEvents
  import opened MetaPipeline
  import opened MetaRecovery
  import opened MetaService

  datatype Policy = All | MissingEngagement | MissingPendingApproval | Unsupported

  datatype Verdict = Selected | NotSelected | BadRequest

  /** `_event_matches_replay_policy`. An unsupported policy is only refused when the
      listing reaches a Meta comment or message. */
  function Matches(db: Store, e: Stored, policy: Policy): Verdict {
    if policy == All then Selected
    else if e.provider != "meta" || e.eventType !in {"comment", "message"} || e.externalId == "" then NotSelected
    else match policy
      case MissingEngagement => if e.externalId in db.engagements then NotSelected else Selected
      case MissingPendingApproval =>
        if e.externalId !in db.engagements then NotSelected
        else if RunOf(db.engagements[e.externalId]) in db.approvals then NotSelected
        else Selected
      case _ => BadRequest
  }

  /** What each policy selects: `all` everything, the two repair policies the Meta comments
      and messages with an id whose engagement, or whose approval, is missing. Any other
      policy is refused at the first such row. */
  lemma MatchesExact(db: Store, e: Stored)
    ensures Matches(db, e, All) == Selected
    ensures var usable := e.provider == "meta" && e.eventType in {"comment", "message"} && e.externalId != "";
            && (Matches(db, e, MissingEngagement) == Selected <==> usable && e.externalId !in db.engagements)
            && (Matches(db, e, MissingPendingApproval) == Selected <==>
                  && usable && e.externalId in db.engagements
                  && var x := db.engagements[e.externalId];
                     (if x.runId != NoRun then x.runId else RunFor(x.draft.messageId)) !in db.approvals)
            && Matches(db, e, MissingEngagement) != BadRequest && Matches(db, e, MissingPendingApproval) != BadRequest
            && (Matches(db, e, Unsupported) == BadRequest <==> usable) && Matches(db, e, Unsupported) != Selected
  {
  }

  predicate IsRepair(policy: Policy) { policy == MissingEngagement || policy == MissingPendingApproval }

  /** A replay together with the drafting task it starts, both without error. */
  function ReplayToEnd(s: State, key: EventKey, llm: Draft -> string): (t: State)
    requires key in s.db.events
    ensures t.db.events == s.db.events
  {
    var t := ReplayEvent(s, key, false);
    match s.db.events[key].reading
    case Err(_) => t
    case Ok(d) =>
      if d.messageId in s.db.engagements then t
      else ResumeJob(t, Job(s.db.events[key].tenant, d), llm(d), false)
  }

  predicate CreatesRow(s: State, key: EventKey, llm: Draft -> string)
    requires key in s.db.events
  {
    var t := ReplayToEnd(s, key, llm);
    t.db.engagements.Keys != s.db.engagements.Keys || t.db.approvals.Keys != s.db.approvals.Keys
  }

  lemma ReplayToEndInv(s: State, key: EventKey, llm: Draft -> string)
    requires Inv(s) && key in s.db.events
    ensures Inv(ReplayToEnd(s, key, llm)) && Grows(s.db, ReplayToEnd(s, key, llm).db)
    ensures s.db.events[key].reading.Ok? ==>
            Complete(ReplayToEnd(s, key, llm).db, s.db.events[key].reading.value.messageId)
    ensures s.db.events[key].reading.Err? ==> ReplayToEnd(s, key, llm) == s
    ensures ReplayToEnd(s, key, llm).jobs == s.jobs
  {
    var e := s.db.events[key];
    ReplayInv(s, key, false);
    if e.reading.Ok? {
      if e.reading.value.messageId in s.db.engagements {
        ReplayCompletesSurvivor(s, key, e.reading.value.messageId);
      } else {
        DraftingCompletes(s, key, llm);
      }
    }
  }

  lemma DraftingCompletes(s: State, key: EventKey, llm: Draft -> string)
    requires Inv(s) && key in s.db.events && s.db.events[key].reading.Ok?
    requires s.db.events[key].reading.value.messageId !in s.db.engagements
    ensures Inv(ReplayToEnd(s, key, llm)) && Grows(s.db, ReplayToEnd(s, key, llm).db)
    ensures Complete(ReplayToEnd(s, key, llm).db, s.db.events[key].reading.value.messageId)
    ensures ReplayToEnd(s, key, llm).jobs == s.jobs
  {
    var d := s.db.events[key].reading.value;
    var t := ReplayEvent(s, key, false);
    var job := Job(s.db.events[key].tenant, d);
    ReplayInv(s, key, false);
    assert t.db == s.db && t.jobs == s.jobs + multiset{job};
    assert t.jobs - multiset{job} == s.jobs;
    ResumeInv(t, job, llm(d), false);
    ResumeCompletes(t, job, llm(d));
  }

  predicate Selects(db: Store, e: Stored) {
    Matches(db, e, MissingEngagement) == Selected || Matches(db, e, MissingPendingApproval) == Selected
  }

  /** Engagement and approval of a message are there. */
  predicate Done(db: Store, m: string) { m in db.engagements && RunFor(m) in db.approvals }

  lemma SelectsExact(s: State, e: Stored)
    requires Inv(s) && e.provider == "meta" && e.eventType in {"comment", "message"}
    ensures !(Matches(s.db, e, MissingEngagement) == Selected && Matches(s.db, e, MissingPendingApproval) == Selected)
    ensures Selects(s.db, e) <==> e.externalId != "" && !Done(s.db, e.externalId)
  {
    if e.externalId in s.db.engagements { RunOfIsOwn(s, e.externalId); }
  }

  /** A missing run id column counts as no approval, which is right: no approval points at
      such an engagement. */
  lemma RunOfIsOwn(s: State, m: string)
    requires Inv(s) && m in s.db.engagements
    ensures RunOf(s.db.engagements[m]) == RunFor(m)
  {
  }

  lemma CreatesExact(s: State, key: EventKey, llm: Draft -> string)
    requires Inv(s) && key in s.db.events
    ensures var reading := s.db.events[key].reading;
            CreatesRow(s, key, llm) <==> reading.Ok? && !Done(s.db, reading.value.messageId)
  {
    var reading := s.db.events[key].reading;
    ReplayToEndInv(s, key, llm);
    if reading.Ok? && reading.value.messageId in s.db.engagements {
      SurvivorCreates(s, key, reading.value.messageId, llm);
    }
  }

  /** The two repair policies are disjoint, and select exactly the events whose replay
      creates a missing row. */
  lemma PoliciesExact(s: State, key: EventKey, llm: Draft -> string)
    requires Inv(s) && EventsOk(s.db) && key in s.db.events
    ensures var e := s.db.events[key];
            && !(Matches(s.db, e, MissingEngagement) == Selected
                 && Matches(s.db, e, MissingPendingApproval) == Selected)
            && (Selects(s.db, e) <==> CreatesRow(s, key, llm))
  {
    var e := s.db.events[key];
    assert Regular(e);
    CreatesExact(s, key, llm);
    if e.provider == "meta" { SelectsExact(s, e); }
  }

  /** Every run of the pipeline records only events on which they are exact. */
  lemma PoliciesExactInEveryRun(steps: seq<Step>, key: EventKey, llm: Draft -> string)
    requires key in Run(EMPTY, steps).db.events
    ensures var s := Run(EMPTY, steps);
            && !(Matches(s.db, s.db.events[key], MissingEngagement) == Selected
                 && Matches(s.db, s.db.events[key], MissingPendingApproval) == Selected)
            && (Selects(s.db, s.db.events[key]) <==> CreatesRow(s, key, llm))
  {
    RunInv(EMPTY, steps);
    RunEvents(EMPTY, steps);
    PoliciesExact(Run(EMPTY, steps), key, llm);
  }

  /** With the engagement present, a replay creates a row exactly if the approval is missing. */
  lemma SurvivorCreates(s: State, key: EventKey, m: string, llm: Draft -> string)
    requires Inv(s) && key in s.db.events && Identifies(s.db.events[key], m) && m in s.db.engagements
    ensures RunOf(s.db.engagements[m]) == RunFor(m)
    ensures CreatesRow(s, key, llm) <==> RunFor(m) !in s.db.approvals
  {
  }

  /** Where exactness ends, for any Meta comment or message row that the table might hold:
      policy and replay agree exactly if the row has both an id and a readable payload, or
      neither, or if the message that either of them names is done anyway. */
  lemma PolicyAgreesExactly(s: State, key: EventKey, row: Event, llm: Draft -> string)
    requires Inv(s) && key in s.db.events && s.db.events[key] == Summary(row)
    requires row.provider == "meta" && row.eventType in {"comment", "message"} && Trimmed(row.externalId)
    ensures (Selects(s.db, s.db.events[key]) <==> CreatesRow(s, key, llm)) <==>
            if row.externalId != "" then ReadStored(row).Ok? || Done(s.db, row.externalId)
            else ReadStored(row).Err? || Done(s.db, ReadStored(row).value.messageId)
  {
    var e := s.db.events[key];
    if row.externalId != "" && ReadStored(row).Ok? { StoredIdentity(row); }
    SelectsExact(s, e);
    CreatesExact(s, key, llm);
  }

  // ── The query ───────────────────────────────────────────────────────────

  /** `max(min(int(limit or 50), 200), 1)` */
  function ClampLimit(limit: int): (n: nat)
    ensures limit == 0 ==> n == 50
    ensures 1 <= limit <= 200 ==> n == limit
    ensures limit < 0 ==> n == 1
    ensures limit > 200 ==> n == 200
  {
    var n := if limit == 0 then 50 else limit;
    if n > 200 then 200 else if n < 1 then 1 else n
  }

  function Head(listing: seq<EventKey>, limit: int): (head: seq<EventKey>)
    ensures head <= listing
    ensures |head| == if |listing| < ClampLimit(limit) then |listing| else ClampLimit(limit)
  {
    listing[..if ClampLimit(limit) < |listing| then ClampLimit(limit) else |listing|]
  }

  predicate Listed(db: Store, keys: seq<EventKey>) {
    forall i :: 0 <= i < |keys| ==> keys[i] in db.events
  }

  /** The listing is cut to the limit first and filtered by the policy afterwards. */
  function Selection(db: Store, listing: seq<EventKey>, limit: int, policy: Policy): seq<EventKey>
    requires Listed(db, listing)
  {
    Filter(db, Head(listing, limit), policy)
  }

  predicate At(keys: seq<EventKey>, key: EventKey) {
    exists i :: 0 <= i < |keys| && keys[i] == key
  }

  predicate Chosen(db: Store, key: EventKey, policy: Policy) {
    key in db.events && Matches(db, db.events[key], policy) == Selected
  }

  function Filter(db: Store, keys: seq<EventKey>, policy: Policy): (r: seq<EventKey>)
    requires Listed(db, keys)
    ensures Listed(db, r)
  {
    if keys == [] then []
    else
      var last := keys[|keys| - 1];
      var rest := Filter(db, keys[..|keys| - 1], policy);
      if Matches(db, db.events[last], policy) == Selected then rest + [last] else rest
  }

  lemma AtSnoc(init: seq<EventKey>, last: EventKey)
    ensures forall key :: At(init + [last], key) <==> At(init, key) || key == last
  {
    var keys := init + [last];
    forall key | At(init, key) ensures At(keys, key) {
      var i :| 0 <= i < |init| && init[i] == key;
      assert keys[i] == key;
    }
    assert keys[|init|] == last;
  }

  /** The filter keeps exactly the listed events that the policy selects. */
  lemma {:induction false} FilterSpec(db: Store, keys: seq<EventKey>, policy: Policy)
    requires Listed(db, keys)
    ensures forall key :: At(Filter(db, keys, policy), key) <==> At(keys, key) && Chosen(db, key, policy)
    decreases |keys|
  {
    if keys != [] {
      var init, last := keys[..|keys| - 1], keys[|keys| - 1];
      FilterSpec(db, init, policy);
      AtSnoc(init, last);
      AtSnoc(Filter(db, init, policy), last);
      assert init + [last] == keys;
    }
  }

  /** The listed events replayed one after the other. */
  function ReplayAll(s: State, keys: seq<EventKey>, llm: Draft -> string): (t: State)
    requires Listed(s.db, keys)
    ensures t.db.events == s.db.events
    decreases |keys|
  {
    if keys == [] then s
    else ReplayToEnd(ReplayAll(s, keys[..|keys| - 1], llm), keys[|keys| - 1], llm)
  }

  lemma CompleteGrows(a: Store, b: Store, m: string)
    requires Grows(a, b) && Complete(a, m)
    ensures Complete(b, m)
  {
  }

  predicate Readable(s: State, key: EventKey, m: string) {
    key in s.db.events && Identifies(s.db.events[key], m)
  }

  lemma {:induction false} ReplayAllInv(s: State, keys: seq<EventKey>, llm: Draft -> string)
    requires Inv(s) && Listed(s.db, keys)
    ensures Inv(ReplayAll(s, keys, llm)) && Grows(s.db, ReplayAll(s, keys, llm).db)
    decreases |keys|
  {
    if keys != [] {
      var u := ReplayAll(s, keys[..|keys| - 1], llm);
      ReplayAllInv(s, keys[..|keys| - 1], llm);
      ReplayToEndInv(u, keys[|keys| - 1], llm);
      GrowsTransitive(s.db, u.db, ReplayAll(s, keys, llm).db);
    }
  }

  lemma {:induction false} ReplayAllCompletes(s: State, keys: seq<EventKey>, llm: Draft -> string, i: nat, m: string)
    requires Inv(s) && Listed(s.db, keys) && i < |keys| && Readable(s, keys[i], m)
    ensures Complete(ReplayAll(s, keys, llm).db, m)
    decreases |keys|
  {
    var init := keys[..|keys| - 1];
    var u := ReplayAll(s, init, llm);
    ReplayAllInv(s, init, llm);
    ReplayToEndInv(u, keys[|keys| - 1], llm);
    if i < |keys| - 1 {
      ReplayAllCompletes(s, init, llm, i, m);
      CompleteGrows(u.db, ReplayAll(s, keys, llm).db, m);
    }
  }

  predicate HasRow(s: State, key: EventKey) {
    key in s.db.events && s.db.events[key].reading.Ok? ==>
      s.db.events[key].reading.value.messageId in s.db.engagements
  }

  /** Replays of messages that already have engagements insert none. */
  lemma {:induction false} ReplayAllKeepsKeys(s: State, keys: seq<EventKey>, llm: Draft -> string)
    requires Listed(s.db, keys) && forall i :: 0 <= i < |keys| ==> HasRow(s, keys[i])
    ensures ReplayAll(s, keys, llm).db.engagements.Keys == s.db.engagements.Keys
    decreases |keys|
  {
    if keys != [] {
      var u := ReplayAll(s, keys[..|keys| - 1], llm);
      ReplayAllKeepsKeys(s, keys[..|keys| - 1], llm);
      assert HasRow(s, keys[|keys| - 1]);
      ReplayToEndKeepsKeys(u, keys[|keys| - 1], llm);
    }
  }

  lemma ReplayToEndKeepsKeys(s: State, key: EventKey, llm: Draft -> string)
    requires key in s.db.events && HasRow(s, key)
    ensures ReplayToEnd(s, key, llm).db.engagements.Keys == s.db.engagements.Keys
  {
  }

  // ── One round ───────────────────────────────────────────────────────────

  /** After an error-free replay of everything a repair policy selects, the same query
      over the same listing selects nothing. */
  lemma QueryReachesFixpoint(s: State, listing: seq<EventKey>, limit: int, policy: Policy, llm: Draft -> string)
    requires Inv(s) && EventsOk(s.db) && IsRepair(policy) && Listed(s.db, listing)
    ensures var t := ReplayAll(s, Selection(s.db, listing, limit, policy), llm);
            Selection(t.db, listing, limit, policy) == []
  {
    FixpointOf(s, Head(listing, limit), Selection(s.db, listing, limit, policy), policy, llm);
  }

  /** The same after every run of the pipeline, whatever the listing. */
  lemma FixpointInEveryRun(steps: seq<Step>, listing: seq<EventKey>, limit: int, policy: Policy, llm: Draft -> string)
    requires IsRepair(policy) && Listed(Run(EMPTY, steps).db, listing)
    ensures var s := Run(EMPTY, steps);
            Selection(ReplayAll(s, Selection(s.db, listing, limit, policy), llm).db, listing, limit, policy) == []
  {
    RunInv(EMPTY, steps);
    RunEvents(EMPTY, steps);
    QueryReachesFixpoint(Run(EMPTY, steps), listing, limit, policy, llm);
  }

  lemma FixpointOf(s: State, head: seq<EventKey>, chosen: seq<EventKey>, policy: Policy, llm: Draft -> string)
    requires Inv(s) && EventsOk(s.db) && IsRepair(policy) && Listed(s.db, head)
    requires chosen == Filter(s.db, head, policy)
    ensures Filter(ReplayAll(s, chosen, llm).db, head, policy) == []
  {
    var t := ReplayAll(s, chosen, llm);
    FilterSpec(s.db, head, policy);
    ReplayAllInv(s, chosen, llm);
    if policy == MissingPendingApproval { ApprovalRepairKeepsKeys(s, chosen, llm); }
    forall key | At(head, key) ensures !Chosen(t.db, key, policy) {
      if Chosen(s.db, key, policy) { RepairsOne(s, chosen, key, policy, llm); }
      else if key in s.db.events { StillNotChosen(s, t, key, policy); }
    }
    FilterNone(t.db, head, policy);
  }

  lemma {:induction false} FilterNone(db: Store, keys: seq<EventKey>, policy: Policy)
    requires Listed(db, keys) && forall key :: At(keys, key) ==> !Chosen(db, key, policy)
    ensures Filter(db, keys, policy) == []
  {
    FilterSpec(db, keys, policy);
    var r := Filter(db, keys, policy);
    if r != [] { assert At(r, r[0]); }
  }

  lemma ApprovalRepairKeepsKeys(s: State, chosen: seq<EventKey>, llm: Draft -> string)
    requires Listed(s.db, chosen) && EventsOk(s.db)
    requires forall key :: At(chosen, key) ==> Chosen(s.db, key, MissingPendingApproval)
    ensures ReplayAll(s, chosen, llm).db.engagements.Keys == s.db.engagements.Keys
  {
    forall i | 0 <= i < |chosen| ensures HasRow(s, chosen[i]) {
      assert At(chosen, chosen[i]);
      assert Chosen(s.db, chosen[i], MissingPendingApproval) && Regular(s.db.events[chosen[i]]);
    }
    ReplayAllKeepsKeys(s, chosen, llm);
  }

  lemma RepairsOne(s: State, chosen: seq<EventKey>, key: EventKey, policy: Policy, llm: Draft -> string)
    requires Inv(s) && EventsOk(s.db) && IsRepair(policy) && Listed(s.db, chosen)
    requires At(chosen, key) && Chosen(s.db, key, policy)
    ensures !Chosen(ReplayAll(s, chosen, llm).db, key, policy)
  {
    var e := s.db.events[key];
    assert Regular(e);
    var i :| 0 <= i < |chosen| && chosen[i] == key;
    ReplayAllCompletes(s, chosen, llm, i, e.externalId);
    CompleteNotSelected(ReplayAll(s, chosen, llm), e, policy);
  }

  lemma CompleteNotSelected(t: State, e: Stored, policy: Policy)
    requires IsRepair(policy) && Complete(t.db, e.externalId)
    ensures Matches(t.db, e, policy) != Selected
  {
  }

  lemma StillNotChosen(s: State, t: State, key: EventKey, policy: Policy)
    requires Inv(s) && Inv(t) && Grows(s.db, t.db) && IsRepair(policy)
    requires policy == MissingPendingApproval ==> t.db.engagements.Keys == s.db.engagements.Keys
    requires key in s.db.events && t.db.events == s.db.events && !Chosen(s.db, key, policy)
    ensures !Chosen(t.db, key, policy)
  {
    var m := s.db.events[key].externalId;
    if policy == MissingPendingApproval && m in s.db.engagements {
      RunOfIsOwn(s, m);
      RunOfIsOwn(t, m);
    }
  }

  // ── Many rounds ─────────────────────────────────────────────────────────

  /** Any number of rounds of the same query over the same cut listing. */
  function Rounds(s: State, head: seq<EventKey>, policy: Policy, llm: Draft -> string, rounds: nat): State
    requires Listed(s.db, head)
    decreases rounds
  {
    if rounds == 0 then s
    else Rounds(ReplayAll(s, Filter(s.db, head, policy), llm), head, policy, llm, rounds - 1)
  }

  /** An event of the listing names the message. */
  ghost predicate Names(s: State, keys: seq<EventKey>, m: string) {
    exists key :: At(keys, key) && Readable(s, key, m)
  }

  /** The price of cutting first: an event listed beyond the limit is never selected,
      whatever the tables hold, so its lost engagement survives any number of rounds of
      the query unless an event within the limit names the same message. */
  lemma {:induction false} BeyondLimitStarves(
      s: State, head: seq<EventKey>, policy: Policy, llm: Draft -> string, m: string, rounds: nat)
    requires Listed(s.db, head) && m !in s.db.engagements && !Names(s, head, m)
    ensures m !in Rounds(s, head, policy, llm, rounds).db.engagements
    decreases rounds
  {
    if rounds > 0 {
      var chosen := Filter(s.db, head, policy);
      var t := ReplayAll(s, chosen, llm);
      FilterSpec(s.db, head, policy);
      forall i | 0 <= i < |chosen| ensures !Readable(s, chosen[i], m) { assert At(chosen, chosen[i]); }
      ReplayAllSkips(s, chosen, llm, m);
      forall key | At(head, key) ensures !Readable(t, key, m) { assert !Readable(s, key, m); }
      BeyondLimitStarves(t, head, policy, llm, m, rounds - 1);
    }
  }

  /** An engagement that is there, or that the first round brings, stays. */
  lemma {:induction false} RoundsKeep(
      s: State, head: seq<EventKey>, policy: Policy, llm: Draft -> string, m: string, rounds: nat)
    requires Inv(s) && Listed(s.db, head)
    requires || m in s.db.engagements
             || (rounds > 0 && m in ReplayAll(s, Filter(s.db, head, policy), llm).db.engagements)
    ensures m in Rounds(s, head, policy, llm, rounds).db.engagements
    decreases rounds
  {
    if rounds > 0 {
      var chosen := Filter(s.db, head, policy);
      ReplayAllInv(s, chosen, llm);
      RoundsKeep(ReplayAll(s, chosen, llm), head, policy, llm, m, rounds - 1);
    }
  }

  /** A lost engagement is repaired by rounds of `missing_engagement` exactly if an event
      within the limit names its message; then the first round does it. */
  lemma {:induction false} RepairedExactly(s: State, head: seq<EventKey>, llm: Draft -> string, m: string, rounds: nat)
    requires Inv(s) && EventsOk(s.db) && Listed(s.db, head) && m !in s.db.engagements && rounds > 0
    ensures m in Rounds(s, head, MissingEngagement, llm, rounds).db.engagements <==> Names(s, head, m)
  {
    if Names(s, head, m) {
      FirstRoundRepairs(s, head, Filter(s.db, head, MissingEngagement), llm, m);
      RoundsKeep(s, head, MissingEngagement, llm, m, rounds);
    } else {
      BeyondLimitStarves(s, head, MissingEngagement, llm, m, rounds);
    }
  }

  lemma FirstRoundRepairs(s: State, head: seq<EventKey>, chosen: seq<EventKey>, llm: Draft -> string, m: string)
    requires Inv(s) && EventsOk(s.db) && Listed(s.db, head) && chosen == Filter(s.db, head, MissingEngagement)
    requires Names(s, head, m) && m !in s.db.engagements
    ensures m in ReplayAll(s, chosen, llm).db.engagements
  {
    var key :| At(head, key) && Readable(s, key, m);
    assert Regular(s.db.events[key]);
    assert Chosen(s.db, key, MissingEngagement);
    FilterSpec(s.db, head, MissingEngagement);
    var i :| 0 <= i < |chosen| && chosen[i] == key;
    ReplayAllCompletes(s, chosen, llm, i, m);
  }

  /** After every run of the pipeline, for every listing and limit. */
  lemma RepairedExactlyInEveryRun(
      steps: seq<Step>, listing: seq<EventKey>, limit: int, llm: Draft -> string, m: string, rounds: nat)
    requires Listed(Run(EMPTY, steps).db, listing) && m !in Run(EMPTY, steps).db.engagements && rounds > 0
    ensures var s, head := Run(EMPTY, steps), Head(listing, limit);
            m in Rounds(s, head, MissingEngagement, llm, rounds).db.engagements <==> Names(s, head, m)
  {
    RunInv(EMPTY, steps);
    RunEvents(EMPTY, steps);
    RepairedExactly(Run(EMPTY, steps), Head(listing, limit), llm, m, rounds);
  }

  lemma {:induction false} ReplayAllSkips(s: State, keys: seq<EventKey>, llm: Draft -> string, m: string)
    requires Listed(s.db, keys) && m !in s.db.engagements
    requires forall i :: 0 <= i < |keys| ==> !Readable(s, keys[i], m)
    ensures m !in ReplayAll(s, keys, llm).db.engagements
    decreases |keys|
  {
    if keys != [] {
      ReplayAllSkips(s, keys[..|keys| - 1], llm, m);
      assert !Readable(s, keys[|keys| - 1], m);
      ReplayToEndSkips(ReplayAll(s, keys[..|keys| - 1], llm), keys[|keys| - 1], llm, m);
    }
  }

  lemma ReplayToEndSkips(s: State, key: EventKey, llm: Draft -> string, m: string)
    requires key in s.db.events && m !in s.db.engagements && !Readable(s, key, m)
    ensures m !in ReplayToEnd(s, key, llm).db.engagements
  {
  }

  // ── The endpoint's loop ─────────────────────────────────────────────────

  datatype Outcome = Outcome(key: EventKey, ok: bool)

  /** Who answers outside: the language model, and the module that replays LINE events. */
  datatype Outside = Outside(llm: Draft -> string, line: EventKey -> bool)

  /** A Meta event is replayed if it is readable, a LINE event if its own replay succeeds,
      an event of another provider never. */
  predicate Replays(db: Store, key: EventKey, out: Outside)
    requires key in db.events
  {
    var e := db.events[key];
    e.reading.Ok? || (e.provider == "line" && out.line(key))
  }

  /** What the result list says of each replayed event. */
  function Outcomes(db: Store, keys: seq<EventKey>, out: Outside): (r: seq<Outcome>)
    requires Listed(db, keys)
    ensures |r| == |keys|
  {
    if keys == [] then []
    else
      var last := keys[|keys| - 1];
      Outcomes(db, keys[..|keys| - 1], out) + [Outcome(last, Replays(db, last, out))]
  }

  function Failures(results: seq<Outcome>): nat {
    if results == [] then 0
    else Failures(results[..|results| - 1]) + if results[|results| - 1].ok then 0 else 1
  }

  /** The counter counts the results that are not ok. */
  lemma {:induction false} FailuresExact(results: seq<Outcome>)
    ensures Failures(results) == |set i | 0 <= i < |results| && !results[i].ok|
    decreases |results|
  {
    if results != [] {
      var k := |results| - 1;
      FailuresExact(results[..k]);
      var before := set i | 0 <= i < k && !results[..k][i].ok;
      assert (set i | 0 <= i < |results| && !results[i].ok) == before + if results[k].ok then {} else {k};
    }
  }

  /** The result list says of each event, in order, whether it could be replayed: it is
      readable, or a LINE event whose own replay succeeds. */
  lemma {:induction false} OutcomesExact(db: Store, keys: seq<EventKey>, out: Outside, i: nat)
    requires Listed(db, keys) && i < |keys|
    ensures |Outcomes(db, keys, out)| == |keys|
    ensures Outcomes(db, keys, out)[i].key == keys[i]
    ensures Outcomes(db, keys, out)[i].ok <==>
            db.events[keys[i]].reading.Ok? || (db.events[keys[i]].provider == "line" && out.line(keys[i]))
    decreases |keys|
  {
    if i < |keys| - 1 { OutcomesExact(db, keys[..|keys| - 1], out, i); }
  }

  lemma FailuresSnoc(results: seq<Outcome>, o: Outcome)
    ensures Failures(results + [o]) == Failures(results) + if o.ok then 0 else 1
  {
    assert (results + [o])[..|results|] == results;
  }

  /** The policy is unsupported and the cut listing holds a Meta comment or message. */
  predicate Refused(db: Store, head: seq<EventKey>, policy: Policy)
    requires Listed(db, head)
  {
    exists i :: 0 <= i < |head| && Matches(db, db.events[head[i]], policy) == BadRequest
  }

  /** The chosen events were replayed in order, all of them or up to a failure that was
      asked to stop the loop; the results list them, and `t` holds the tables it left. */
  ghost predicate Replayed(
      s: State, chosen: seq<EventKey>, out: Outside, stopOnError: bool, results: seq<Outcome>, t: State)
  {
    && Listed(s.db, chosen)
    && |results| <= |chosen| && (Failures(results) == 0 || !stopOnError ==> |results| == |chosen|)
    && results == Outcomes(s.db, chosen[..|results|], out)
    && t == ReplayAll(s, chosen[..|results|], out.llm)
  }

  /** `replay_tenant_events_query` with no other actor in between: refusal, counters,
      result list, early stop, and the tables it leaves. */
  method ReplayQuery(
      p: Pipeline, listing: seq<EventKey>, limit: int, policy: Policy, stopOnError: bool, out: Outside)
    returns (refused: bool, results: seq<Outcome>, successes: nat, errors: nat)
    requires Listed(p.Model().db, listing)
    modifies p
    ensures refused <==> Refused(old(p.Model()).db, Head(listing, limit), policy)
    ensures refused ==> p.Model() == old(p.Model()) && results == []
    ensures |results| == successes + errors && errors == Failures(results)
    ensures !refused ==>
      var s := old(p.Model());
      Replayed(s, Selection(s.db, listing, limit, policy), out, stopOnError, results, p.Model())
  {
    var chosen;
    refused, chosen := ExecSelection(p, listing, limit, policy);
    if refused { return true, [], 0, 0; }
    results, successes, errors := ReplayKeys(p, chosen, stopOnError, out);
  }

  method ReplayKeys(p: Pipeline, chosen: seq<EventKey>, stopOnError: bool, out: Outside)
    returns (results: seq<Outcome>, successes: nat, errors: nat)
    requires Listed(p.Model().db, chosen)
    modifies p
    ensures |results| == successes + errors && errors == Failures(results)
    ensures Replayed(old(p.Model()), chosen, out, stopOnError, results, p.Model())
  {
    results, successes, errors := [], 0, 0;
    ghost var start := p.Model();
    var i := 0;
    while i < |chosen|
      invariant 0 <= i <= |chosen| && i == |results| == successes + errors
      invariant p.events == start.db.events
      invariant results == Outcomes(start.db, chosen[..i], out)
      invariant p.Model() == ReplayAll(start, chosen[..i], out.llm)
      invariant errors == Failures(results)
      invariant stopOnError ==> errors == 0
    {
      var key := chosen[i];
      ReplayAllNext(start, chosen, i, out);
      var ok := ReplayOne(p, key, out);
      FailuresSnoc(results, Outcome(key, ok));
      results := results + [Outcome(key, ok)];
      i := i + 1;
      if ok { successes := successes + 1; } else { errors := errors + 1; }
      if !ok && stopOnError { break; }
    }
  }

  lemma ReplayAllNext(s: State, keys: seq<EventKey>, i: nat, out: Outside)
    requires Listed(s.db, keys) && i < |keys|
    ensures ReplayAll(s, keys[..i + 1], out.llm) == ReplayToEnd(ReplayAll(s, keys[..i], out.llm), keys[i], out.llm)
    ensures Outcomes(s.db, keys[..i + 1], out) ==
            Outcomes(s.db, keys[..i], out) + [Outcome(keys[i], Replays(s.db, keys[i], out))]
  {
    assert keys[..i + 1][..i] == keys[..i];
  }

  method ReplayOne(p: Pipeline, key: EventKey, out: Outside) returns (ok: bool)
    requires key in p.events
    modifies p
    ensures p.Model() == ReplayToEnd(old(p.Model()), key, out.llm)
    ensures ok <==> Replays(old(p.Model()).db, key, out)
  {
    var stored := p.events[key];
    if stored.provider == "line" && stored.reading.Err? { return out.line(key); }
    var drafts := stored.reading.Ok? && stored.reading.value.messageId !in p.engagements;
    var outcome := p.ReplayStored(key, false);
    if drafts {
      var d := stored.reading.value;
      var queued := p.ResumeQueue(Job(stored.tenant, d), out.llm(d), false);
    }
    return outcome.Ok?;
  }

  lemma FilterSnoc(db: Store, keys: seq<EventKey>, i: nat, policy: Policy)
    requires Listed(db, keys) && i < |keys|
    ensures Filter(db, keys[..i + 1], policy) ==
            if Matches(db, db.events[keys[i]], policy) == Selected then Filter(db, keys[..i], policy) + [keys[i]]
            else Filter(db, keys[..i], policy)
    ensures Refused(db, keys[..i + 1], policy) <==>
            Refused(db, keys[..i], policy) || Matches(db, db.events[keys[i]], policy) == BadRequest
    ensures Matches(db, db.events[keys[i]], policy) == BadRequest ==> Refused(db, keys, policy)
  {
    assert keys[..i + 1][..i] == keys[..i];
    assert keys[..i + 1][i] == keys[i];
    forall j | 0 <= j < i ensures keys[..i + 1][j] == keys[..i][j] {}
  }

  lemma MatchesIgnoresLog(db: Store, log: seq<Write>, e: Stored, policy: Policy)
    ensures Matches(db.(log := log), e, policy) == Matches(db, e, policy)
  {
  }

  method ExecSelection(p: Pipeline, listing: seq<EventKey>, limit: int, policy: Policy)
    returns (refused: bool, chosen: seq<EventKey>)
    requires Listed(p.Model().db, listing)
    ensures refused <==> Refused(p.Model().db, Head(listing, limit), policy)
    ensures !refused ==> chosen == Selection(p.Model().db, listing, limit, policy)
  {
    var head := Head(listing, limit);
    chosen := [];
    var i := 0;
    while i < |head|
      invariant 0 <= i <= |head|
      invariant chosen == Filter(p.Model().db, head[..i], policy)
      invariant !Refused(p.Model().db, head[..i], policy)
    {
      FilterSnoc(p.Model().db, head, i, policy);
      var db := Store(p.events, p.engagements, p.approvals, p.nextId, []);
      MatchesIgnoresLog(db, p.log, p.events[head[i]], policy);
      var verdict := Matches(db, p.events[head[i]], policy);
      if verdict == BadRequest { return true, []; }
      if verdict == Selected { chosen := chosen + [head[i]]; }
      i := i + 1;
    }
    assert head[..|head|] == head;
    refused := false;
  }

  // ── The batch endpoint ──────────────────────────────────────────────────

  /** An id that names an event of the tenant. */
  predicate Found(db: Store, tenant: string, key: EventKey) {
    key in db.events && db.events[key].tenant == tenant
  }

  function FoundKeys(db: Store, tenant: string, keys: seq<EventKey>): (r: seq<EventKey>)
    ensures Listed(db, r)
    decreases |keys|
  {
    if keys == [] then []
    else
      var last := keys[|keys| - 1];
      FoundKeys(db, tenant, keys[..|keys| - 1]) + if Found(db, tenant, last) then [last] else []
  }

  /** An id without an event is an error like an unreadable event. */
  function BatchOutcomes(db: Store, tenant: string, keys: seq<EventKey>, out: Outside): seq<Outcome>
    decreases |keys|
  {
    if keys == [] then []
    else
      var last := keys[|keys| - 1];
      BatchOutcomes(db, tenant, keys[..|keys| - 1], out) +
      [Outcome(last, Found(db, tenant, last) && Replays(db, last, out))]
  }

  /** The events replayed are those of the tenant that the ids name; the results say so of
      every id, in order, and whether its event could be replayed. */
  lemma {:induction false} BatchExact(db: Store, tenant: string, keys: seq<EventKey>, out: Outside, i: nat)
    requires i < |keys|
    ensures |BatchOutcomes(db, tenant, keys, out)| == |keys|
    ensures var o := BatchOutcomes(db, tenant, keys, out)[i];
            && o.key == keys[i]
            && (o.ok <==>
                  && keys[i] in db.events && db.events[keys[i]].tenant == tenant
                  && (db.events[keys[i]].reading.Ok? || (db.events[keys[i]].provider == "line" && out.line(keys[i]))))
    decreases |keys|
  {
    BatchLength(db, tenant, keys[..|keys| - 1], out);
    if i < |keys| - 1 { BatchExact(db, tenant, keys[..|keys| - 1], out, i); }
  }

  lemma {:induction false} BatchLength(db: Store, tenant: string, keys: seq<EventKey>, out: Outside)
    ensures |BatchOutcomes(db, tenant, keys, out)| == |keys|
    decreases |keys|
  {
    if keys != [] { BatchLength(db, tenant, keys[..|keys| - 1], out); }
  }

  lemma {:induction false} FoundKeysExact(db: Store, tenant: string, keys: seq<EventKey>)
    ensures forall key :: At(FoundKeys(db, tenant, keys), key) <==>
      At(keys, key) && key in db.events && db.events[key].tenant == tenant
    decreases |keys|
  {
    if keys != [] {
      var init, last := keys[..|keys| - 1], keys[|keys| - 1];
      FoundKeysExact(db, tenant, init);
      AtSnoc(init, last);
      AtSnoc(FoundKeys(db, tenant, init), last);
      assert FoundKeys(db, tenant, init) + [] == FoundKeys(db, tenant, init);
      assert init + [last] == keys;
    }
  }

  lemma BatchSnoc(s: State, tenant: string, keys: seq<EventKey>, i: nat, out: Outside)
    requires i < |keys|
    ensures var before := ReplayAll(s, FoundKeys(s.db, tenant, keys[..i]), out.llm);
            && ReplayAll(s, FoundKeys(s.db, tenant, keys[..i + 1]), out.llm) ==
               (if Found(s.db, tenant, keys[i]) then ReplayToEnd(before, keys[i], out.llm) else before)
            && BatchOutcomes(s.db, tenant, keys[..i + 1], out) == BatchOutcomes(s.db, tenant, keys[..i], out) +
               [Outcome(keys[i], Found(s.db, tenant, keys[i]) && Replays(s.db, keys[i], out))]
  {
    assert keys[..i + 1][..i] == keys[..i];
    var found := FoundKeys(s.db, tenant, keys[..i]);
    if Found(s.db, tenant, keys[i]) {
      assert (found + [keys[i]])[..|found|] == found;
    } else {
      assert found + [] == found;
    }
  }

  /** One id of the batch. */
  method BatchOne(p: Pipeline, tenant: string, key: EventKey, out: Outside) returns (ok: bool)
    modifies p
    ensures p.Model() ==
      if Found(old(p.Model()).db, tenant, key) then ReplayToEnd(old(p.Model()), key, out.llm) else old(p.Model())
    ensures ok <==> Found(old(p.Model()).db, tenant, key) && Replays(old(p.Model()).db, key, out)
  {
    if key !in p.events || p.events[key].tenant != tenant { return false; }
    ok := ReplayOne(p, key, out);
  }

  /** The first `n` ids have been handled: their outcomes, and the tables they leave. */
  ghost predicate Handled(
      s: State, tenant: string, keys: seq<EventKey>, n: nat, out: Outside, results: seq<Outcome>, t: State)
    requires n <= |keys|
  {
    && t.db.events == s.db.events
    && results == BatchOutcomes(s.db, tenant, keys[..n], out)
    && t == ReplayAll(s, FoundKeys(s.db, tenant, keys[..n]), out.llm)
  }

  lemma HandledStep(
      s: State, tenant: string, keys: seq<EventKey>, n: nat, out: Outside, results: seq<Outcome>, t: State)
    requires n < |keys| && Handled(s, tenant, keys, n, out, results, t)
    ensures var found := Found(t.db, tenant, keys[n]);
            Handled(s, tenant, keys, n + 1, out,
                    results + [Outcome(keys[n], found && Replays(t.db, keys[n], out))],
                    if found then ReplayToEnd(t, keys[n], out.llm) else t)
  {
    BatchSnoc(s, tenant, keys, n, out);
  }

  /** `replay_tenant_events_batch`: found events replayed in the order given. */
  method ReplayBatch(p: Pipeline, tenant: string, keys: seq<EventKey>, stopOnError: bool, out: Outside)
    returns (results: seq<Outcome>, successes: nat, errors: nat)
    modifies p
    ensures |results| == successes + errors && errors == Failures(results)
    ensures |results| <= |keys| && (errors == 0 || !stopOnError ==> |results| == |keys|)
    ensures results == BatchOutcomes(old(p.Model()).db, tenant, keys[..|results|], out)
    ensures p.Model() == ReplayAll(old(p.Model()), FoundKeys(old(p.Model()).db, tenant, keys[..|results|]), out.llm)
  {
    results, successes, errors := [], 0, 0;
    ghost var start := p.Model();
    var i := 0;
    while i < |keys|
      invariant 0 <= i <= |keys| && i == |results| == successes + errors
      invariant Handled(start, tenant, keys, i, out, results, p.Model())
      invariant errors == Failures(results)
      invariant stopOnError ==> errors == 0
    {
      var key := keys[i];
      HandledStep(start, tenant, keys, i, out, results, p.Model());
      var ok := BatchOne(p, tenant, key, out);
      FailuresSnoc(results, Outcome(key, ok));
      results := results + [Outcome(key, ok)];
      i := i + 1;
      if ok { successes := successes + 1; } else { errors := errors + 1; }
      if !ok && stopOnError { break; }
    }
  }
}
