/** The suggestion table as the program updates it: repository calls, the endpoint
    segments between awaits, and the background loops. Each method is proved to do to
    the table what the suggestion model says the segment does to a row. */
module SuggestionService {
  import opened Common
  import opened Suggestions

  /** `Crashed` is no answer at all: the process ended between two writes. */
  datatype Failure = NotFound | Conflict | InvalidTransition | Crashed

  function ExpiredRows(rows: map<nat, Row>, tenant: string, now: int): map<nat, Row> {
    map id | id in rows :: ExpireRow(rows[id], tenant, now)
  }

  lemma ExpiringStep(rows: map<nat, Row>, done: set<nat>, id: nat)
    requires id in rows && id !in done
    ensures var before := Expiring(rows, done);
            before[id := before[id].(status := Expired)] == Expiring(rows, done + {id})
  {
  }

  lemma ExpiringAll(rows: map<nat, Row>, tenant: string, now: int)
    ensures Expiring(rows, OverdueIds(rows, tenant, now)) == ExpiredRows(rows, tenant, now)
  {
  }

  /** Some rows have become expired. */
  function Expiring(rows: map<nat, Row>, done: set<nat>): map<nat, Row> {
    map id | id in rows :: if id in done then rows[id].(status := Expired) else rows[id]
  }

  function RemindedRows(rows: map<nat, Row>, tenant: string, now: int): map<nat, Row> {
    map id | id in rows :: RemindRow(rows[id], tenant, now)
  }

  function OverdueIds(rows: map<nat, Row>, tenant: string, now: int): set<nat> {
    set id | id in rows && Overdue(rows[id], tenant, now)
  }

  function DueReminders(rows: map<nat, Row>, tenant: string, now: int): set<nat> {
    set id | id in rows && ReminderDue(rows[id], tenant, now)
  }

  /** What the tables and sets of the background work hold. */
  lemma BackgroundRows(rows: map<nat, Row>, tenant: string, now: int, id: nat)
    requires id in rows
    ensures var r := rows[id];
            var open := r.tenant == tenant && r.status in {Pending, Accepted};
            var due := open && now >= r.expiresAt - 12 * 3600 && r.snapshot.reminded == None;
            && ExpiredRows(rows, tenant, now).Keys == rows.Keys && RemindedRows(rows, tenant, now).Keys == rows.Keys
            && ExpiredRows(rows, tenant, now)[id] == (if open && r.expiresAt < now then r.(status := Expired) else r)
            && RemindedRows(rows, tenant, now)[id] ==
               (if due then r.(snapshot := r.snapshot.(reminded := Some(now))) else r)
            && (id in OverdueIds(rows, tenant, now) <==> open && r.expiresAt < now)
            && (id in DueReminders(rows, tenant, now) <==> due)
            && (id in ListedIds(rows, tenant) <==> open)
    ensures OverdueIds(rows, tenant, now) <= rows.Keys && DueReminders(rows, tenant, now) <= rows.Keys
    ensures ListedIds(rows, tenant) <= rows.Keys
  {
  }

  /** A reminder card as a recipient sees it: the row its push was queued for, the row it
      shows, and the expiry it names. */
  datatype Card = Card(queuedFor: nat, shown: nat, expiry: int)

  /** The last row of a listing that names the newest first. */
  predicate OldestListed(rows: map<nat, Row>, tenant: string, last: nat) {
    && last in rows && Listed(rows[last], tenant)
    && forall id :: id in rows && Listed(rows[id], tenant) ==> rows[last].expiresAt <= rows[id].expiresAt
  }

  lemma OldestIsListedLast(table: map<nat, Entry>, rows: map<nat, Row>, tenant: string, last: nat)
    requires rows.Keys == table.Keys && forall id :: id in table ==> rows[id] == table[id].row
    ensures OldestListed(rows, tenant, last) <==> ListedLast(table, tenant, last)
  {
  }

  function Ids(listing: seq<nat>): set<nat> { set id | id in listing }

  /** No row twice, and each row no newer than those before it. */
  ghost predicate NewestFirst(rows: map<nat, Row>, listing: seq<nat>) {
    && (forall i :: 0 <= i < |listing| ==> listing[i] in rows)
    && (forall i, j :: 0 <= i < j < |listing| ==>
          listing[i] != listing[j] && rows[listing[i]].expiresAt >= rows[listing[j]].expiresAt)
  }

  function ListedIds(rows: map<nat, Row>, tenant: string): set<nat> {
    set id | id in rows && Listed(rows[id], tenant)
  }

  /** The cards of a pass: one for each due row, all of them showing the row listed last
      and naming the earliest expiry among the due rows. */
  ghost predicate CardsOf(rows: map<nat, Row>, tenant: string, now: int, cards: seq<Card>) {
    var due := DueReminders(rows, tenant, now);
    && |cards| == |due| && (set card | card in cards :: card.queuedFor) == due
    && (forall i :: 0 <= i < |cards| ==> cards[i].shown == cards[0].shown && cards[i].expiry == cards[0].expiry)
    && (cards != [] ==> OldestListed(rows, tenant, cards[0].shown) && Earliest(rows, due, cards[0].expiry))
  }

  ghost predicate Earliest(rows: map<nat, Row>, ids: set<nat>, expiry: int) {
    && (exists id :: id in ids && id in rows && rows[id].expiresAt == expiry)
    && (forall id :: id in ids && id in rows ==> expiry <= rows[id].expiresAt)
  }

  class Service {
    var rows: map<nat, Row>

    constructor ()
      ensures rows == map[]
    {
      rows := map[];
    }

    // ── Repository calls ──────────────────────────────────────────────────

    /** None for a missing row; raises when the current status is not allowed. */
    method UpdateSuggestionStatus(id: nat, status: Status, snapshot: Snapshot, allowed: Option<set<Status>>)
      returns (r: Result<Option<Row>, Failure>)
      modifies this
      ensures r.Err? <==> id in old(rows) && allowed.Some? && old(rows)[id].status !in allowed.value
      ensures r.Ok? && r.value.None? <==> id !in old(rows)
      ensures r.Ok? && r.value.Some? ==> r.value.value == old(rows)[id].(status := status, snapshot := snapshot)
      ensures r.Ok? && r.value.Some? ==> rows == old(rows)[id := r.value.value]
      ensures r.Err? || r.value.None? ==> rows == old(rows)
    {
      if id !in rows { return Ok(None); }
      if allowed.Some? && rows[id].status !in allowed.value { return Err(InvalidTransition); }
      rows := rows[id := rows[id].(status := status, snapshot := snapshot)];
      return Ok(Some(rows[id]));
    }

    /** Merging a detached object writes every column, whatever the row holds by now. */
    method SaveSuggestion(id: nat, copy: Row)
      modifies this
      ensures rows == old(rows)[id := copy]
    {
      rows := rows[id := copy];
    }

    method ExpireDueSuggestions(tenant: string, now: int) returns (count: nat)
      modifies this
      ensures rows == ExpiredRows(old(rows), tenant, now)
      ensures count == |OverdueIds(old(rows), tenant, now)|
    {
      ghost var was := rows;
      var due := OverdueIds(rows, tenant, now);
      count := |due|;
      ghost var done: set<nat> := {};
      var todo := due;
      while todo != {}
        invariant rows == Expiring(was, done) && todo + done == due && todo !! done
      {
        var id :| id in todo;
        ExpiringStep(was, done, id);
        rows := rows[id := rows[id].(status := Expired)];
        todo, done := todo - {id}, done + {id};
      }
      assert done == due;
      ExpiringAll(was, tenant, now);
    }

    /** The newest active row; a row is created 24 hours before it expires. */
    method GetLatestActiveSuggestion(tenant: string, kind: Kind, now: int) returns (found: Option<nat>)
      ensures found.Some? ==> found.value in rows && Active(rows[found.value], tenant, kind, now)
      ensures found.Some? ==> forall id :: id in rows && Active(rows[id], tenant, kind, now) ==>
        rows[id].expiresAt <= rows[found.value].expiresAt
      ensures found.None? ==> forall id :: id in rows ==> !Active(rows[id], tenant, kind, now)
    {
      found := None;
      var rest := rows.Keys;
      while rest != {}
        invariant rest <= rows.Keys
        invariant found.Some? ==> found.value in rows && Active(rows[found.value], tenant, kind, now)
        invariant forall id :: id in rows && id !in rest && Active(rows[id], tenant, kind, now) ==>
          found.Some? && rows[id].expiresAt <= rows[found.value].expiresAt
      {
        var id :| id in rest;
        rest := rest - {id};
        if Active(rows[id], tenant, kind, now) && (found.None? || rows[id].expiresAt > rows[found.value].expiresAt) {
          found := Some(id);
        }
      }
    }

    // ── Owner requests ────────────────────────────────────────────────────

    predicate Visible(tenant: string, id: nat)
      reads this
    {
      id in rows && rows[id].tenant == tenant
    }

    /** Accept or dismiss; `crash` ends an accept after it saved the draft. */
    method HandleSuggestionAction(
      tenant: string, id: nat, accept: bool, actor: string, draft: Option<string>, now: int, crash: bool)
      returns (r: Result<Row, Failure>)
      modifies this
      ensures r == Err(NotFound) <==> !old(Visible(tenant, id))
      ensures r == Err(Conflict) <==> old(Visible(tenant, id)) && !Open(old(rows)[id].status)
      ensures r == Err(Crashed) <==> old(Visible(tenant, id)) && Open(old(rows)[id].status) && accept && crash
      ensures r != Err(InvalidTransition)
      ensures r.Err? && !r.error.Crashed? ==> rows == old(rows)
      ensures r == Err(Crashed) ==> rows == old(rows)[id := EditRow(old(rows)[id], draft)]
      ensures r.Ok? ==> rows == old(rows)[id := r.value]
      ensures r.Ok? && accept ==> r.value == AcceptRow(old(rows)[id], now, actor, draft)
      ensures r.Ok? && !accept ==> r.value == DismissRow(old(rows)[id], now, actor)
      ensures r.Ok? ==> r.value.status == if accept then Accepted else Dismissed
    {
      if !Visible(tenant, id) { return Err(NotFound); }
      var suggestion := rows[id];
      if suggestion.status in {Dismissed, Expired, Reported, Sent, Sending} { return Err(Conflict); }
      assert Open(suggestion.status);
      var snapshot := suggestion.snapshot;
      var outcome;
      if !accept {
        snapshot := snapshot.(dismissed := Some(Stamp(now, actor)));
        outcome := UpdateSuggestionStatus(id, Dismissed, snapshot, Some({Pending, Accepted}));
      } else {
        EditDraft(id, suggestion, draft);
        if crash { return Err(Crashed); }
        snapshot := snapshot.(accepted := Some(Stamp(now, actor)));
        outcome := UpdateSuggestionStatus(id, Accepted, snapshot, Some({Pending, Accepted}));
      }
      return Ok(outcome.value.value);
    }

    method EditDraft(id: nat, suggestion: Row, draft: Option<string>)
      requires id in rows && rows[id] == suggestion && Open(suggestion.status)
      modifies this
      ensures rows == old(rows)[id := EditRow(suggestion, draft)]
    {
      if draft.Some? {
        var text := Strip(draft.value);
        SaveSuggestion(id, suggestion.(draft := if text != "" then text else suggestion.draft));
      }
    }

    /** `send_suggestion_execution` up to the execution; the copy stays with the caller. */
    method BeginSend(tenant: string, id: nat, actor: string, draft: Option<string>, now: int, cut: Cut)
      returns (r: Result<Row, Failure>)
      modifies this
      ensures r == Err(NotFound) <==> !old(Visible(tenant, id))
      ensures r == Err(Conflict) <==> old(Visible(tenant, id)) && !Open(old(rows)[id].status)
      ensures r == Err(Crashed) <==> old(Visible(tenant, id)) && Open(old(rows)[id].status) && !cut.Through?
      ensures r != Err(InvalidTransition)
      ensures r.Err? && !r.error.Crashed? ==> rows == old(rows)
      ensures r == Err(Crashed) && cut.AfterDraft? ==> rows == old(rows)[id := EditRow(old(rows)[id], draft)]
      ensures r == Err(Crashed) && cut.AfterAccept? ==>
        rows == old(rows)[id := SendAcceptRow(old(rows)[id], now, actor, draft)]
      ensures r.Ok? ==> r.value == SendingRow(old(rows)[id], now, actor, draft) && rows == old(rows)[id := r.value]
      ensures r.Ok? ==> r.value.status == Sending
    {
      if !Visible(tenant, id) { return Err(NotFound); }
      var suggestion := rows[id];
      if suggestion.status in {Dismissed, Expired, Reported, Sent} { return Err(Conflict); }
      if suggestion.status !in {Pending, Accepted} { return Err(Conflict); }
      EditDraft(id, suggestion, draft);
      if cut.AfterDraft? { return Err(Crashed); }
      var snapshot := suggestion.snapshot;
      if snapshot.accepted.None? { snapshot := snapshot.(accepted := Some(Stamp(now, actor))); }
      if suggestion.status == Pending {
        var accepted := UpdateSuggestionStatus(id, Accepted, snapshot, Some({Pending}));
        snapshot := accepted.value.value.snapshot;
      }
      if cut.AfterAccept? { return Err(Crashed); }
      snapshot := snapshot.(sending := Some(Stamp(now, actor)));
      var outcome := UpdateSuggestionStatus(id, Sending, snapshot, Some({Accepted}));
      return Ok(outcome.value.value);
    }

    /** The rest of the send once the execution returned `run`; `crash` ends it after the
        run id is saved. */
    method FinishSend(id: nat, copy: Row, run: string, actor: string, now: int, crash: bool)
      returns (r: Result<Row, Failure>)
      requires id in rows
      modifies this
      ensures rows == old(rows)[id := FinishedRow(WholeRow, old(rows)[id], copy, run, now, actor, crash)]
      ensures r == Err(Crashed) <==> crash
      ensures r.Ok? <==> !crash && (if UsesAgentOS(copy.kind) then copy.status else old(rows)[id].status) == Sending
      ensures r.Ok? ==> r.value == rows[id] && r.value.status == Sent
    {
      if UsesAgentOS(copy.kind) { SaveSuggestion(id, copy.(runId := run)); }
      if crash { return Err(Crashed); }
      var snapshot := copy.snapshot.(execution := Some(run), sent := Some(Stamp(now, actor)));
      var outcome := UpdateSuggestionStatus(id, Sent, snapshot, Some({Sending}));
      if outcome.Err? { return Err(Conflict); }
      return Ok(outcome.value.value);
    }

    method ReportSuggestion(tenant: string, id: nat, actor: string, now: int) returns (r: Result<Row, Failure>)
      modifies this
      ensures r == Err(NotFound) <==> !old(Visible(tenant, id))
      ensures r == Err(Conflict) <==> old(Visible(tenant, id)) && old(rows)[id].status !in {Sent, Reported}
      ensures r.Err? ==> r.error in {NotFound, Conflict} && rows == old(rows)
      ensures r.Ok? ==> r.value == ReportedRow(old(rows)[id], now, actor) && rows == old(rows)[id := r.value]
      ensures r.Ok? ==> r.value.status == Reported
    {
      if !Visible(tenant, id) { return Err(NotFound); }
      if rows[id].status !in {Sent, Reported} { return Err(Conflict); }
      var snapshot := rows[id].snapshot.(reported := Some(Stamp(now, actor)));
      var outcome := UpdateSuggestionStatus(id, Reported, snapshot, Some({Sent, Reported}));
      return Ok(outcome.value.value);
    }

    // ── Background work ───────────────────────────────────────────────────

    /** The background task after its dispatch returned `run`; `crash` ends it after the
        run id is saved. */
    method FinishAutoPrepare(id: nat, copy: Row, run: string, now: int, crash: bool) returns (sent: bool)
      requires id in rows
      modifies this
      ensures rows == old(rows)[id := PreparedRow(WholeRow, old(rows)[id], copy, run, now, crash)]
      ensures sent <==> copy.status == Pending && !crash
    {
      var suggestion := copy.(runId := run);
      SaveSuggestion(id, suggestion);
      if crash { return false; }
      var stamp := Some(Stamp(now, SYSTEM));
      var snapshot := suggestion.snapshot
        .(accepted := stamp, sending := stamp, sent := stamp, execution := Some(run));
      var outcome := UpdateSuggestionStatus(id, Sent, snapshot, Some({Pending}));
      return outcome.Ok?;
    }

    /** One proactive scan: what it found active, or the id it created. */
    method RunOnceForTenant(tenant: string, nudge: Option<Kind>, id: nat, at: int, later: int)
      returns (result: Option<nat>)
      requires id !in rows
      modifies this
      ensures var e := ExpiredRows(old(rows), tenant, at);
        && (result.None? <==> nudge.None?)
        && (result == Some(id) ==> rows == e[id := NewRow(tenant, nudge.value, later)])
        && (result == Some(id) ==> forall k :: k in e ==> !Active(e[k], tenant, nudge.value, later))
        && (result != Some(id) ==> rows == e)
        && (result.Some? && result != Some(id) ==>
              result.value in e && Active(e[result.value], tenant, nudge.value, later))
        && (result.Some? && result != Some(id) ==> forall k :: k in e && Active(e[k], tenant, nudge.value, later) ==>
              e[k].expiresAt <= e[result.value].expiresAt)
    {
      var expired := ExpireDueSuggestions(tenant, at);
      if nudge.None? { return None; }
      var existing := GetLatestActiveSuggestion(tenant, nudge.value, later);
      if existing.Some? { return existing; }
      rows := rows[id := NewRow(tenant, nudge.value, later)];
      return Some(id);
    }

    /** Stamp every open suggestion in its last twelve hours, once. The source returns how
        many; `cards` are the pushes it queued for them, as they will run. */
    method SendDueReminders(tenant: string, canPush: bool, at: int, later: int) returns (cards: seq<Card>)
      modifies this
      ensures var e := ExpiredRows(old(rows), tenant, at);
        && rows == (if canPush then RemindedRows(e, tenant, later) else e)
        && (if canPush then CardsOf(e, tenant, later, cards) else cards == [])
    {
      var expired := ExpireDueSuggestions(tenant, at);
      if !canPush { return []; }
      cards := PushReminders(tenant, later);
    }

    method ListPendingSuggestions(tenant: string) returns (listing: seq<nat>)
      ensures Ids(listing) == ListedIds(rows, tenant) && NewestFirst(rows, listing)
    {
      listing := [];
      var rest := ListedIds(rows, tenant);
      while rest != {}
        invariant rest + Ids(listing) == ListedIds(rows, tenant) && rest !! Ids(listing)
        invariant NewestFirst(rows, listing)
      {
        var id :| id in rest;
        var k := 0;
        while k < |listing| && rows[listing[k]].expiresAt >= rows[id].expiresAt
          invariant 0 <= k <= |listing|
          invariant forall i :: 0 <= i < k ==> rows[listing[i]].expiresAt >= rows[id].expiresAt
        {
          k := k + 1;
        }
        InsertListed(rows, listing, id, k);
        rest, listing := rest - {id}, listing[..k] + [id] + listing[k..];
      }
    }

    /** The loop queues a push for each due row; the pushes run after it and find its
        variables as the loop left them. */
    method PushReminders(tenant: string, later: int) returns (cards: seq<Card>)
      modifies this
      ensures rows == RemindedRows(old(rows), tenant, later)
      ensures CardsOf(old(rows), tenant, later, cards)
    {
      ghost var e := rows;
      var listing := ListPendingSuggestions(tenant);
      var suggestion, expiry := 0, 0;
      var queue: seq<nat> := [];
      for i := 0 to |listing|
        invariant queue == DueIn(e, listing[..i], tenant, later)
        invariant rows == Reminding(e, Ids(queue), later)
        invariant i > 0 ==> suggestion == listing[i - 1]
        invariant queue != [] ==> queue[|queue| - 1] in e && expiry == e[queue[|queue| - 1]].expiresAt
      {
        suggestion := listing[i];
        DueInStep(e, listing, i, tenant, later);
        assert suggestion in Ids(listing) && rows[suggestion] == e[suggestion];
        var row := rows[suggestion];
        if later < row.expiresAt - HALF_DAY || row.snapshot.reminded.Some? {
          continue;
        }
        RemindingStep(e, queue, suggestion, later);
        expiry := row.expiresAt;
        queue := queue + [suggestion];
        var snapshot := row.snapshot.(reminded := Some(later));
        var outcome := UpdateSuggestionStatus(suggestion, row.status, snapshot, None);
      }
      assert listing[..|listing|] == listing;
      RemindingAll(e, listing, tenant, later);
      cards := Delivered(queue, suggestion, expiry);
      QueueCards(e, listing, tenant, later, suggestion, expiry);
    }
  }

  // ── The queue of a reminder pass ────────────────────────────────────────

  /** Some rows have been stamped. */
  function Reminding(rows: map<nat, Row>, done: set<nat>, now: int): map<nat, Row> {
    map id | id in rows ::
      if id in done then rows[id].(snapshot := rows[id].snapshot.(reminded := Some(now))) else rows[id]
  }

  lemma RemindingStep(rows: map<nat, Row>, queue: seq<nat>, id: nat, now: int)
    requires id in rows && id !in Ids(queue)
    ensures var before := Reminding(rows, Ids(queue), now);
            && before[id] == rows[id]
            && before[id := rows[id].(snapshot := rows[id].snapshot.(reminded := Some(now)))] ==
               Reminding(rows, Ids(queue + [id]), now)
  {
    IdsAppend(queue, id);
  }

  lemma RemindingAll(rows: map<nat, Row>, listing: seq<nat>, tenant: string, now: int)
    requires Ids(listing) == ListedIds(rows, tenant) && NewestFirst(rows, listing)
    ensures Reminding(rows, Ids(DueIn(rows, listing, tenant, now)), now) == RemindedRows(rows, tenant, now)
  {
    DueInIds(rows, listing, tenant, now);
  }

  /** The due rows among those listed. */
  function DueIn(rows: map<nat, Row>, listing: seq<nat>, tenant: string, now: int): seq<nat>
    requires forall i :: 0 <= i < |listing| ==> listing[i] in rows
  {
    if listing == [] then []
    else
      var front, id := listing[..|listing| - 1], listing[|listing| - 1];
      DueIn(rows, front, tenant, now) + if ReminderDue(rows[id], tenant, now) then [id] else []
  }

  lemma IdsAppend(listing: seq<nat>, id: nat)
    ensures Ids(listing + [id]) == Ids(listing) + {id}
  {
  }

  lemma {:induction false} DueInIds(rows: map<nat, Row>, listing: seq<nat>, tenant: string, now: int)
    requires forall i :: 0 <= i < |listing| ==> listing[i] in rows
    ensures Ids(DueIn(rows, listing, tenant, now)) ==
            set id | id in Ids(listing) && id in rows && ReminderDue(rows[id], tenant, now)
    decreases |listing|
  {
    if listing != [] {
      var front, id := listing[..|listing| - 1], listing[|listing| - 1];
      DueInIds(rows, front, tenant, now);
      assert listing == front + [id];
      IdsAppend(front, id);
      var queue := DueIn(rows, front, tenant, now);
      IdsAppend(queue, id);
      assert queue + [] == queue;
      assert id in rows;
    }
  }

  /** One more listed row: not queued before, and queued now exactly if it is due. */
  lemma DueInStep(rows: map<nat, Row>, listing: seq<nat>, i: nat, tenant: string, now: int)
    requires NewestFirst(rows, listing) && i < |listing|
    ensures listing[i] !in Ids(DueIn(rows, listing[..i], tenant, now))
    ensures DueIn(rows, listing[..i + 1], tenant, now) ==
            DueIn(rows, listing[..i], tenant, now) +
            if ReminderDue(rows[listing[i]], tenant, now) then [listing[i]] else []
  {
    DueInIds(rows, listing[..i], tenant, now);
    assert listing[..i + 1][..i] == listing[..i];
  }

  lemma {:induction false} DueInOrder(rows: map<nat, Row>, listing: seq<nat>, tenant: string, now: int)
    requires NewestFirst(rows, listing)
    ensures NewestFirst(rows, DueIn(rows, listing, tenant, now))
    decreases |listing|
  {
    if listing != [] {
      var front, id := listing[..|listing| - 1], listing[|listing| - 1];
      DueInOrder(rows, front, tenant, now);
      DueInIds(rows, front, tenant, now);
      var queue := DueIn(rows, front, tenant, now);
      forall i | 0 <= i < |queue|
        ensures queue[i] in rows && queue[i] != id && rows[queue[i]].expiresAt >= rows[id].expiresAt
      {
        assert queue[i] in Ids(queue);
        var k :| 0 <= k < |front| && front[k] == queue[i];
        assert front[k] == listing[k];
      }
    }
  }

  lemma {:induction false} IdsCount(rows: map<nat, Row>, listing: seq<nat>)
    requires NewestFirst(rows, listing)
    ensures |listing| == |Ids(listing)|
    decreases |listing|
  {
    if listing != [] {
      var front, id := listing[..|listing| - 1], listing[|listing| - 1];
      IdsCount(rows, front);
      assert listing == front + [id];
      IdsAppend(front, id);
    }
  }

  lemma LastIsEarliest(rows: map<nat, Row>, listing: seq<nat>)
    requires NewestFirst(rows, listing) && listing != []
    ensures var last := listing[|listing| - 1]; last in rows && Earliest(rows, Ids(listing), rows[last].expiresAt)
  {
    var last := listing[|listing| - 1];
    assert last in Ids(listing);
    forall id | id in Ids(listing) ensures id in rows && rows[last].expiresAt <= rows[id].expiresAt {
      var k :| 0 <= k < |listing| && listing[k] == id;
    }
  }

  /** The cards of the pushes queued for some rows. */
  function Delivered(queue: seq<nat>, shown: nat, expiry: int): (cards: seq<Card>)
    ensures |cards| == |queue| && forall j :: 0 <= j < |queue| ==> cards[j] == Card(queue[j], shown, expiry)
  {
    seq(|queue|, j requires 0 <= j < |queue| => Card(queue[j], shown, expiry))
  }

  lemma QueueCards(rows: map<nat, Row>, listing: seq<nat>, tenant: string, now: int, shown: nat, expiry: int)
    requires Ids(listing) == ListedIds(rows, tenant) && NewestFirst(rows, listing)
    requires listing != [] ==> shown == listing[|listing| - 1]
    requires var queue := DueIn(rows, listing, tenant, now);
             queue != [] ==> queue[|queue| - 1] in rows && expiry == rows[queue[|queue| - 1]].expiresAt
    ensures CardsOf(rows, tenant, now, Delivered(DueIn(rows, listing, tenant, now), shown, expiry))
  {
    var queue := DueIn(rows, listing, tenant, now);
    QueueIsDue(rows, listing, tenant, now);
    if queue != [] {
      LastIsEarliest(rows, listing);
      LastIsEarliest(rows, queue);
      OldestIsEarliest(rows, tenant, shown);
    }
    DeliveredCards(rows, tenant, now, queue, shown, expiry);
  }

  lemma DeliveredCards(rows: map<nat, Row>, tenant: string, now: int, queue: seq<nat>, shown: nat, expiry: int)
    requires Ids(queue) == DueReminders(rows, tenant, now) && |queue| == |DueReminders(rows, tenant, now)|
    requires queue != [] ==> OldestListed(rows, tenant, shown) && Earliest(rows, Ids(queue), expiry)
    ensures CardsOf(rows, tenant, now, Delivered(queue, shown, expiry))
  {
    QueuedFor(queue, shown, expiry);
  }

  lemma QueueIsDue(rows: map<nat, Row>, listing: seq<nat>, tenant: string, now: int)
    requires Ids(listing) == ListedIds(rows, tenant) && NewestFirst(rows, listing)
    ensures var queue := DueIn(rows, listing, tenant, now);
            && Ids(queue) == DueReminders(rows, tenant, now) && |queue| == |DueReminders(rows, tenant, now)|
            && NewestFirst(rows, queue) && (queue != [] ==> listing != [])
  {
    DueInIds(rows, listing, tenant, now);
    DueInOrder(rows, listing, tenant, now);
    IdsCount(rows, DueIn(rows, listing, tenant, now));
    assert Ids(DueIn(rows, listing, tenant, now)) == DueReminders(rows, tenant, now);
  }

  lemma OldestIsEarliest(rows: map<nat, Row>, tenant: string, last: nat)
    requires last in ListedIds(rows, tenant) && Earliest(rows, ListedIds(rows, tenant), rows[last].expiresAt)
    ensures OldestListed(rows, tenant, last)
  {
  }

  lemma QueuedFor(queue: seq<nat>, shown: nat, expiry: int)
    ensures (set card | card in Delivered(queue, shown, expiry) :: card.queuedFor) == Ids(queue)
  {
    var cards := Delivered(queue, shown, expiry);
    forall id | id in Ids(queue) ensures id in (set card | card in cards :: card.queuedFor) {
      var j :| 0 <= j < |queue| && queue[j] == id;
      assert cards[j] in cards;
    }
  }

  lemma InsertListed(rows: map<nat, Row>, listing: seq<nat>, id: nat, k: nat)
    requires NewestFirst(rows, listing) && id in rows && id !in Ids(listing) && k <= |listing|
    requires forall i :: 0 <= i < k ==> rows[listing[i]].expiresAt >= rows[id].expiresAt
    requires k < |listing| ==> rows[listing[k]].expiresAt < rows[id].expiresAt
    ensures var longer := listing[..k] + [id] + listing[k..];
            NewestFirst(rows, longer) && Ids(longer) == Ids(listing) + {id}
  {
    InsertedIds(listing, id, k);
    forall i | 0 <= i < |listing| ensures listing[i] != id { assert listing[i] in Ids(listing); }
    InsertedOrder(rows, listing, id, k);
  }

  lemma InsertedIds(listing: seq<nat>, id: nat, k: nat)
    requires k <= |listing|
    ensures Ids(listing[..k] + [id] + listing[k..]) == Ids(listing) + {id}
  {
    assert listing == listing[..k] + listing[k..];
  }

  lemma InsertedOrder(rows: map<nat, Row>, listing: seq<nat>, id: nat, k: nat)
    requires NewestFirst(rows, listing) && id in rows && k <= |listing|
    requires forall i :: 0 <= i < |listing| ==> listing[i] != id
    requires forall i :: 0 <= i < k ==> rows[listing[i]].expiresAt >= rows[id].expiresAt
    requires forall i :: k <= i < |listing| ==> rows[listing[i]].expiresAt < rows[id].expiresAt
    ensures NewestFirst(rows, listing[..k] + [id] + listing[k..])
  {
    var longer := listing[..k] + [id] + listing[k..];
    forall i | 0 <= i < |longer|
      ensures longer[i] == if i < k then listing[i] else if i == k then id else listing[i - 1]
    {
    }
  }
}
