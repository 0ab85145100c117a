/** The local approval table: the sync pass over open rows, the scheduled publisher,
    and what repeated passes achieve. */
module ApprovalSync {
  import opened Common
  import opened Approvals

  /** A row of the pending approvals table; times are points on one clock. */
  datatype Record = Record(
    workflow: Workflow, status: Status, scheduledFor: Option<int>, updated: int, created: int)

  type Table = map<string, Record>

  const MICROS_PER_SECOND := 1_000_000
  const MICROS_PER_DAY := 86_400 * MICROS_PER_SECOND
  const NINE := 9 * 3600 * MICROS_PER_SECOND
  const TEN_MINUTES := 600 * MICROS_PER_SECOND

  // ── Listing ─────────────────────────────────────────────────────────────

  predicate Syncable(r: Record) {
    (r.status == Pending || r.status == DeliveryFailed) && r.workflow.Backed?
  }

  function OpenRuns(t: Table): set<string> {
    set run | run in t && Syncable(t[run])
  }

  predicate Older(a: Record, b: Record) {
    a.updated < b.updated || (a.updated == b.updated && a.created < b.created)
  }

  function Cap(limit: int): (n: nat)
    ensures limit >= 1 ==> n == limit
    ensures limit < 1 ==> n == 1
  {
    if limit > 1 then limit else 1
  }

  /** A run that is open and must come before the last listed one if it is older. */
  predicate Passed(t: Table, listing: seq<string>, run: string)
    requires run in t && forall i :: 0 <= i < |listing| ==> listing[i] in t
  {
    forall i :: 0 <= i < |listing| ==> !Older(t[run], t[listing[i]])
  }

  /** The oldest open runs, at most `limit` (at least 1) of them, oldest first. */
  ghost predicate IsListing(t: Table, limit: int, listing: seq<string>) {
    && |listing| <= Cap(limit)
    && (forall i :: 0 <= i < |listing| ==> listing[i] in OpenRuns(t))
    && (forall i, j :: 0 <= i < j < |listing| ==> listing[i] != listing[j] && !Older(t[listing[j]], t[listing[i]]))
    && (forall run :: run in OpenRuns(t) && run !in listing ==> |listing| == Cap(limit) && Passed(t, listing, run))
  }

  /** What a listing holds: runs of AgentOS workflows that are pending or whose delivery
      failed, by the time of their last change and then of their creation; an open run
      that is not in it stands behind a full one. */
  lemma ListingMeans(t: Table, limit: int, listing: seq<string>)
    requires IsListing(t, limit, listing)
    ensures |listing| <= if limit >= 1 then limit else 1
    ensures forall i :: 0 <= i < |listing| ==>
      listing[i] in t && t[listing[i]].workflow.Backed? && t[listing[i]].status in {Pending, DeliveryFailed}
    ensures forall i, j :: 0 <= i < j < |listing| ==>
      var a, b := t[listing[i]], t[listing[j]];
      listing[i] != listing[j] && (a.updated < b.updated || (a.updated == b.updated && a.created <= b.created))
    ensures forall run ::
      run in t && run !in listing && t[run].workflow.Backed? && t[run].status in {Pending, DeliveryFailed} ==>
      |listing| == (if limit >= 1 then limit else 1) &&
      forall i :: 0 <= i < |listing| ==>
        var a, b := t[listing[i]], t[run];
        a.updated < b.updated || (a.updated == b.updated && a.created <= b.created)
  {
    forall run | run in t && run !in listing && t[run].workflow.Backed? && t[run].status in {Pending, DeliveryFailed}
      ensures |listing| == Cap(limit) && Passed(t, listing, run)
    {
      assert run in OpenRuns(t);
    }
  }

  // ── One pass ────────────────────────────────────────────────────────────

  /** What AgentOS answers for each reachable run; the others raise. */
  type Answers = map<string, View>

  function Terminal(answers: Answers, run: string): Option<Decision> {
    if run in answers then LastDecision(answers[run]) else None
  }

  function SyncRecord(r: Record, d: Option<Decision>, now: int): Record {
    if d.Some? then r.(status := Decided(d.value), updated := now) else r
  }

  function Synced(t: Table, listing: seq<string>, answers: Answers, now: int): Table {
    map run | run in t :: if run in listing then SyncRecord(t[run], Terminal(answers, run), now) else t[run]
  }

  /** What a pass may leave of a table: every listed run gets the decision that AgentOS
      says last, and every other row stays as it was. */
  ghost predicate TakesDecisions(t: Table, u: Table, listing: seq<string>, answers: Answers, now: int) {
    && u.Keys == t.Keys
    && (forall run, i: nat :: run in t && run in listing && run in answers && SaidLast(answers[run], i) ==>
          u[run] == t[run].(status := Decided(answers[run][i].value), updated := now))
    && (forall run :: run in t && (run !in listing || run !in answers || NothingSaid(answers[run])) ==>
          u[run] == t[run])
  }

  lemma SyncedExact(t: Table, listing: seq<string>, answers: Answers, now: int)
    ensures TakesDecisions(t, Synced(t, listing, answers, now), listing, answers, now)
  {
    forall run | run in answers
      ensures forall i: nat :: SaidLast(answers[run], i) ==> LastDecision(answers[run]) == answers[run][i]
      ensures LastDecision(answers[run]).None? <==> NothingSaid(answers[run])
    {
      LastDecisionIs(answers[run]);
    }
  }

  predicate NotReached(listing: seq<string>, answers: Answers, i: nat) { i < |listing| && listing[i] !in answers }

  predicate Reached(listing: seq<string>, answers: Answers, i: nat) {
    i < |listing| && listing[i] in answers && !NothingSaid(answers[listing[i]])
  }

  /** The counters count positions of the listing. */
  lemma {:induction false} UnreachableExact(listing: seq<string>, answers: Answers)
    ensures Unreachable(listing, answers) == |set i: nat | i < |listing| && NotReached(listing, answers, i)|
    decreases |listing|
  {
    if listing != [] {
      var k := |listing| - 1;
      UnreachableExact(listing[..k], answers);
      var before := set i: nat | i < k && NotReached(listing[..k], answers, i);
      assert forall i: nat :: i < k ==> (NotReached(listing[..k], answers, i) <==> NotReached(listing, answers, i));
      assert (set i: nat | i < |listing| && NotReached(listing, answers, i)) ==
             before + if NotReached(listing, answers, k) then {k} else {};
    }
  }

  lemma {:induction false} TerminatedExact(listing: seq<string>, answers: Answers)
    ensures Terminated(listing, answers) == |set i: nat | i < |listing| && Reached(listing, answers, i)|
    decreases |listing|
  {
    if listing != [] {
      var k := |listing| - 1;
      TerminatedExact(listing[..k], answers);
      if listing[k] in answers { LastDecisionIs(answers[listing[k]]); }
      var before := set i: nat | i < k && Reached(listing[..k], answers, i);
      assert forall i: nat :: i < k ==> (Reached(listing[..k], answers, i) <==> Reached(listing, answers, i));
      assert (set i: nat | i < |listing| && Reached(listing, answers, i)) ==
             before + if Reached(listing, answers, k) then {k} else {};
    }
  }

  function Unreachable(listing: seq<string>, answers: Answers): nat {
    if listing == [] then 0
    else Unreachable(listing[..|listing| - 1], answers) + if listing[|listing| - 1] in answers then 0 else 1
  }

  function Terminated(listing: seq<string>, answers: Answers): nat {
    if listing == [] then 0
    else
      var last := Terminal(answers, listing[|listing| - 1]);
      Terminated(listing[..|listing| - 1], answers) + if last.Some? then 1 else 0
  }

  predicate ListedAt(t: Table, items: seq<string>, i: nat) {
    i < |items| && items[i] in t && items[i] !in items[..i]
  }

  lemma ListedOnce(t: Table, limit: int, items: seq<string>)
    requires IsListing(t, limit, items)
    ensures forall i: nat :: i < |items| ==> ListedAt(t, items, i)
  {
  }

  lemma SyncedSnoc(t: Table, items: seq<string>, i: nat, answers: Answers, now: int)
    requires ListedAt(t, items, i)
    ensures var done, more := Synced(t, items[..i], answers, now), Synced(t, items[..i + 1], answers, now);
            && done[items[i]] == t[items[i]]
            && more == done[items[i] := SyncRecord(t[items[i]], Terminal(answers, items[i]), now)]
    ensures Unreachable(items[..i + 1], answers) ==
            Unreachable(items[..i], answers) + if items[i] in answers then 0 else 1
    ensures Terminated(items[..i + 1], answers) ==
            Terminated(items[..i], answers) + if Terminal(answers, items[i]).Some? then 1 else 0
  {
    assert items[..i + 1] == items[..i] + [items[i]];
    assert items[..i + 1][..i] == items[..i];
  }

  /** With AgentOS unchanged, the next pass writes nothing exactly if everything it
      lists and the first pass did not list is undecided or unreachable. */
  lemma SecondPassExact(t: Table, limit: int, l1: seq<string>, l2: seq<string>, answers: Answers, now: int, later: int)
    requires IsListing(t, limit, l1)
    requires var u := Synced(t, l1, answers, now); IsListing(u, limit, l2)
    ensures var u := Synced(t, l1, answers, now);
            Synced(u, l2, answers, later) == u <==>
            forall i :: 0 <= i < |l2| ==> l2[i] in l1 || Terminal(answers, l2[i]).None?
  {
  }

  lemma {:induction false} DistinctSize(s: seq<string>)
    requires forall i, j :: 0 <= i < j < |s| ==> s[i] != s[j]
    ensures |set x | x in s| == |s|
    decreases |s|
  {
    if s != [] {
      var init := s[..|s| - 1];
      DistinctSize(init);
      var last := s[|s| - 1];
      assert (set x | x in s) == (set x | x in init) + {last};
      assert forall i :: 0 <= i < |init| ==> init[i] == s[i];
      assert last !in init;
    }
  }

  lemma SubsetSize(a: set<string>, b: set<string>)
    requires a <= b
    ensures |a| <= |b| && (|a| == |b| ==> a == b)
  {
    assert b == a + (b - a);
  }

  /** How many rows a pass lists: all open ones, up to the limit. */
  lemma ListingSize(t: Table, limit: int, listing: seq<string>)
    requires IsListing(t, limit, listing)
    ensures (set x | x in listing) <= OpenRuns(t) && |set x | x in listing| == |listing|
    ensures |listing| == if |OpenRuns(t)| < Cap(limit) then |OpenRuns(t)| else Cap(limit)
  {
    var listed := set x | x in listing;
    DistinctSize(listing);
    assert listed <= OpenRuns(t);
    SubsetSize(listed, OpenRuns(t));
    if |listing| < Cap(limit) {
      assert forall run :: run in OpenRuns(t) ==> run in listed;
      assert listed == OpenRuns(t);
    }
  }

  /** When no more rows are open than one pass lists, a second pass changes nothing. */
  lemma QuietWithinLimit(t: Table, limit: int, l1: seq<string>, l2: seq<string>, answers: Answers, now: int, later: int)
    requires IsListing(t, limit, l1) && |OpenRuns(t)| <= Cap(limit)
    requires var u := Synced(t, l1, answers, now); IsListing(u, limit, l2)
    ensures var u := Synced(t, l1, answers, now); Synced(u, l2, answers, later) == u
  {
    var u := Synced(t, l1, answers, now);
    ListingSize(t, limit, l1);
    var listed := set x | x in l1;
    SubsetSize(listed, OpenRuns(t));
    forall i | 0 <= i < |l2| ensures l2[i] in l1 {
      assert l2[i] in OpenRuns(u) && Syncable(t[l2[i]]);
      assert l2[i] in listed;
    }
    SecondPassExact(t, limit, l1, l2, answers, now, later);
  }

  /** If AgentOS has decided every open run, a pass closes as many as it lists. */
  lemma PassDrains(t: Table, limit: int, listing: seq<string>, answers: Answers, now: int)
    requires IsListing(t, limit, listing)
    requires forall run :: run in OpenRuns(t) ==> Terminal(answers, run).Some?
    ensures var u := Synced(t, listing, answers, now);
            && OpenRuns(u) <= OpenRuns(t)
            && |OpenRuns(u)| == (if |OpenRuns(t)| < Cap(limit) then 0 else |OpenRuns(t)| - Cap(limit))
  {
    var u := Synced(t, listing, answers, now);
    var listed := set x | x in listing;
    ListingSize(t, limit, listing);
    assert OpenRuns(u) == OpenRuns(t) - listed;
    assert OpenRuns(t) == OpenRuns(u) + listed;
  }

  // ── Many passes ─────────────────────────────────────────────────────────

  ghost predicate IsPass(t: Table, u: Table, limit: int, answers: Answers) {
    exists listing, now :: IsListing(t, limit, listing) && u == Synced(t, listing, answers, now)
  }

  ghost predicate Passes(ts: seq<Table>, limit: int, answers: Answers) {
    forall i :: 0 < i < |ts| ==> IsPass(ts[i - 1], ts[i], limit, answers)
  }

  /** Liveness: passes that reach all decided runs close them all. */
  lemma {:induction false} PassesDrainAll(ts: seq<Table>, limit: int, answers: Answers)
    requires ts != [] && Passes(ts, limit, answers)
    requires forall run :: run in OpenRuns(ts[0]) ==> Terminal(answers, run).Some?
    ensures OpenRuns(ts[|ts| - 1]) <= OpenRuns(ts[0])
    ensures var left := |OpenRuns(ts[0])| - (|ts| - 1) * Cap(limit);
            |OpenRuns(ts[|ts| - 1])| == if left < 0 then 0 else left
    decreases |ts|
  {
    if |ts| > 1 {
      var init := ts[..|ts| - 1];
      assert Passes(init, limit, answers);
      PassesDrainAll(init, limit, answers);
      var t, u := ts[|ts| - 2], ts[|ts| - 1];
      assert init[|init| - 1] == t;
      assert IsPass(t, u, limit, answers);
      var listing, now :| IsListing(t, limit, listing) && u == Synced(t, listing, answers, now);
      PassDrains(t, limit, listing, answers, now);
      assert (|ts| - 1) * Cap(limit) == (|ts| - 2) * Cap(limit) + Cap(limit);
    }
  }

  /** Open runs that AgentOS has not decided, all older than `run`. */
  predicate Block(t: Table, head: set<string>, answers: Answers, run: string) {
    run in t && forall h :: h in head ==> h in OpenRuns(t) && Terminal(answers, h).None? && Older(t[h], t[run])
  }

  /** The listing is by age and skipped rows keep theirs, so as many older undecided
      rows as the limit keep a decided row out of every pass, for ever. */
  lemma {:induction false} HeadOfLineBlocks(
      ts: seq<Table>, limit: int, answers: Answers, head: set<string>, run: string)
    requires ts != [] && Passes(ts, limit, answers)
    requires |head| >= Cap(limit) && Block(ts[0], head, answers, run)
    ensures run in ts[|ts| - 1] && ts[|ts| - 1][run] == ts[0][run] && Block(ts[|ts| - 1], head, answers, run)
    decreases |ts|
  {
    if |ts| > 1 {
      var init := ts[..|ts| - 1];
      assert Passes(init, limit, answers);
      HeadOfLineBlocks(init, limit, answers, head, run);
      var t, u := ts[|ts| - 2], ts[|ts| - 1];
      assert init[|init| - 1] == t;
      assert IsPass(t, u, limit, answers);
      var listing, now :| IsListing(t, limit, listing) && u == Synced(t, listing, answers, now);
      BlockedPass(t, limit, listing, answers, now, head, run);
    }
  }

  lemma BlockedPass(
      t: Table, limit: int, listing: seq<string>, answers: Answers, now: int, head: set<string>, run: string)
    requires IsListing(t, limit, listing) && |head| >= Cap(limit) && Block(t, head, answers, run)
    ensures var u := Synced(t, listing, answers, now); Block(u, head, answers, run) && u[run] == t[run]
  {
    var listed := set x | x in listing;
    DistinctSize(listing);
    if head <= listed {
      SubsetSize(head, listed);
      assert run !in listed;
    } else {
      var h :| h in head && h !in listed;
      assert h in OpenRuns(t) && h !in listing;
      assert Passed(t, listing, h);
    }
    assert run !in listing;
    var u := Synced(t, listing, answers, now);
    forall h | h in head ensures u[h] == t[h] && h in OpenRuns(u) { assert h in OpenRuns(t); }
  }

  /** Open runs that a listing may put before `run`: those that are not younger. */
  function Ahead(t: Table, run: string): set<string>
    requires run in t
  {
    set h | h in OpenRuns(t) && h != run && !Older(t[run], t[h])
  }

  function UndecidedAhead(t: Table, answers: Answers, run: string): set<string>
    requires run in t
  {
    set h | h in Ahead(t, run) && Terminal(answers, h).None?
  }

  function DecidedAhead(t: Table, answers: Answers, run: string): set<string>
    requires run in t
  {
    set h | h in Ahead(t, run) && Terminal(answers, h).Some?
  }

  lemma OpenIsUntouched(t: Table, listing: seq<string>, answers: Answers, now: int)
    ensures var u := Synced(t, listing, answers, now);
            && u.Keys == t.Keys
            && forall h :: h in OpenRuns(u) ==> h in OpenRuns(t) && u[h] == t[h]
  {
    var u := Synced(t, listing, answers, now);
    forall h | h in OpenRuns(u) ensures h in OpenRuns(t) && u[h] == t[h] { assert Syncable(u[h]); }
  }

  /** A pass closes a decided run, or closes a decided run ahead of it. */
  lemma PassClosesOrAdvances(
      t: Table, limit: int, listing: seq<string>, answers: Answers, now: int, run: string)
    requires IsListing(t, limit, listing) && run in OpenRuns(t) && Terminal(answers, run).Some?
    requires |UndecidedAhead(t, answers, run)| < Cap(limit)
    ensures var u := Synced(t, listing, answers, now);
            run in OpenRuns(u) ==>
              && UndecidedAhead(u, answers, run) <= UndecidedAhead(t, answers, run)
              && DecidedAhead(u, answers, run) < DecidedAhead(t, answers, run)
  {
    var u := Synced(t, listing, answers, now);
    OpenIsUntouched(t, listing, answers, now);
    if run in OpenRuns(u) {
      assert run !in listing;
      assert Ahead(u, run) <= Ahead(t, run);
      var x := ListedAhead(t, limit, listing, answers, run);
      assert x !in OpenRuns(u) by { assert u[x].status.Decided?; }
      assert x in DecidedAhead(t, answers, run) && x !in DecidedAhead(u, answers, run);
    }
  }

  /** With fewer undecided runs ahead than a pass lists, a full listing without `run` holds
      a decided run that is ahead of it. */
  lemma ListedAhead(t: Table, limit: int, listing: seq<string>, answers: Answers, run: string) returns (x: string)
    requires IsListing(t, limit, listing) && run in OpenRuns(t) && run !in listing
    requires |UndecidedAhead(t, answers, run)| < Cap(limit)
    ensures x in listing && x in DecidedAhead(t, answers, run)
  {
    var listed := set h | h in listing;
    DistinctSize(listing);
    assert |listing| == Cap(limit) && Passed(t, listing, run);
    forall h | h in listed ensures h in Ahead(t, run) {
      var i :| 0 <= i < |listing| && listing[i] == h;
      assert listing[i] in OpenRuns(t);
    }
    if listed <= UndecidedAhead(t, answers, run) {
      SubsetSize(listed, UndecidedAhead(t, answers, run));
      assert false;
    }
    x :| x in listed && x !in UndecidedAhead(t, answers, run);
  }

  lemma {:induction false} ClosedStaysClosed(ts: seq<Table>, limit: int, answers: Answers, run: string)
    requires ts != [] && Passes(ts, limit, answers) && run !in OpenRuns(ts[0])
    ensures run !in OpenRuns(ts[|ts| - 1])
    decreases |ts|
  {
    if |ts| > 1 {
      FirstPass(ts, limit, answers);
      var listing, now :| IsListing(ts[0], limit, listing) && ts[1] == Synced(ts[0], listing, answers, now);
      OpenIsUntouched(ts[0], listing, answers, now);
      ClosedStaysClosed(ts[1..], limit, answers, run);
    }
  }

  lemma FirstPass(ts: seq<Table>, limit: int, answers: Answers)
    requires |ts| > 1 && Passes(ts, limit, answers)
    ensures IsPass(ts[0], ts[1], limit, answers) && Passes(ts[1..], limit, answers)
  {
    assert IsPass(ts[1 - 1], ts[1], limit, answers);
    forall i | 0 < i < |ts[1..]| ensures IsPass(ts[1..][i - 1], ts[1..][i], limit, answers) {
      assert IsPass(ts[i + 1 - 1], ts[i + 1], limit, answers);
    }
  }

  /** Liveness for one run: with fewer undecided open runs ahead than a pass lists, it is
      closed after one pass more than there are decided runs ahead of it. */
  lemma {:induction false} EventuallyClosed(ts: seq<Table>, limit: int, answers: Answers, run: string)
    requires ts != [] && Passes(ts, limit, answers)
    requires run in OpenRuns(ts[0]) && Terminal(answers, run).Some?
    requires |UndecidedAhead(ts[0], answers, run)| < Cap(limit)
    requires |ts| - 1 > |DecidedAhead(ts[0], answers, run)|
    ensures run !in OpenRuns(ts[|ts| - 1])
    decreases |ts|
  {
    FirstPass(ts, limit, answers);
    var listing, now :| IsListing(ts[0], limit, listing) && ts[1] == Synced(ts[0], listing, answers, now);
    if run in OpenRuns(ts[1]) {
      PassClosesOrAdvances(ts[0], limit, listing, answers, now, run);
      SubsetSize(UndecidedAhead(ts[1], answers, run), UndecidedAhead(ts[0], answers, run));
      SubsetSize(DecidedAhead(ts[1], answers, run), DecidedAhead(ts[0], answers, run));
      EventuallyClosed(ts[1..], limit, answers, run);
    } else {
      ClosedStaysClosed(ts[1..], limit, answers, run);
    }
  }

  /** With fixed answers and no undecided run of exactly its age, a decided open run is
      closed by enough passes exactly if fewer undecided open runs than the limit are
      ahead of it. */
  lemma ClosedExactly(ts: seq<Table>, limit: int, answers: Answers, run: string)
    requires ts != [] && Passes(ts, limit, answers)
    requires run in OpenRuns(ts[0]) && Terminal(answers, run).Some?
    requires forall h :: h in UndecidedAhead(ts[0], answers, run) ==> Older(ts[0][h], ts[0][run])
    requires |ts| - 1 > |DecidedAhead(ts[0], answers, run)|
    ensures run !in OpenRuns(ts[|ts| - 1]) <==> |UndecidedAhead(ts[0], answers, run)| < Cap(limit)
  {
    if |UndecidedAhead(ts[0], answers, run)| < Cap(limit) {
      EventuallyClosed(ts, limit, answers, run);
    } else {
      HeadOfLineBlocks(ts, limit, answers, UndecidedAhead(ts[0], answers, run), run);
    }
  }

  // ── The scheduled time ──────────────────────────────────────────────────

  /** The default slot: nine o'clock, at least ten minutes ahead. Local microseconds
      since some midnight, in a zone of fixed offset. */
  function ScheduledPublishAt(now: int): (r: int)
    ensures r % MICROS_PER_DAY == NINE && r > now + TEN_MINUTES
    ensures forall other :: other % MICROS_PER_DAY == NINE && other > now + TEN_MINUTES ==> r <= other
  {
    var today := now - now % MICROS_PER_DAY + NINE;
    var r := if today <= now + TEN_MINUTES then today + MICROS_PER_DAY else today;
    forall other | other % MICROS_PER_DAY == NINE && other > now + TEN_MINUTES ensures r <= other {
      SlotsApart(r, other);
    }
    r
  }

  lemma SlotsApart(a: int, b: int)
    requires a % MICROS_PER_DAY == NINE && b % MICROS_PER_DAY == NINE
    ensures b < a ==> b + MICROS_PER_DAY <= a
  {
  }

  // ── The services ────────────────────────────────────────────────────────

  /** How `handle_postback(APPROVE)` ends for a scheduled row. */
  datatype Outcome = Approves | Missing | Raises

  datatype SyncOutcome = Wrote | Undecided | Failed

  predicate Due(r: Record, now: int) {
    r.status == Scheduled && r.scheduledFor.Some? && r.scheduledFor.value <= now
  }

  /** What the publisher takes up: scheduled rows whose time has come. */
  lemma DueExact(r: Record, now: int, at: int)
    requires r.scheduledFor == Some(at)
    ensures Due(r, now) <==> r.status == Scheduled && at <= now
  {
  }

  function ApprovedRows(t: Table, due: seq<string>, outcomes: map<string, Outcome>, now: int): Table {
    map run | run in t ::
      if run in due && run in outcomes && outcomes[run] == Approves
      then t[run].(status := Decided(Approved), updated := now) else t[run]
  }

  /** Missing runs stay due, approved ones are decided. */
  lemma ApprovedRowsSpec(t: Table, due: seq<string>, done: nat, outcomes: map<string, Outcome>, now: int)
    requires done <= |due|
    requires forall i :: 0 <= i < |due| ==> due[i] in outcomes && due[i] in t && Due(t[due[i]], now)
    ensures var u := ApprovedRows(t, due[..done], outcomes, now);
            && (forall i :: 0 <= i < |due| && outcomes[due[i]] == Missing ==> Due(u[due[i]], now))
            && (forall i :: 0 <= i < done && outcomes[due[i]] == Approves ==>
                  u[due[i]] == t[due[i]].(status := Decided(Approved), updated := now))
            && u.Keys == t.Keys
            && forall run :: run in t && !(run in due[..done] && run in outcomes && outcomes[run] == Approves) ==>
                 u[run] == t[run]
  {
    forall i | 0 <= i < done ensures due[i] in due[..done] { assert due[..done][i] == due[i]; }
  }

  lemma ApprovedSnoc(t: Table, due: seq<string>, i: nat, outcomes: map<string, Outcome>, now: int)
    requires i < |due| && due[i] in t && due[i] in outcomes
    ensures var before, run := ApprovedRows(t, due[..i], outcomes, now), due[i];
            ApprovedRows(t, due[..i + 1], outcomes, now) ==
            if outcomes[run] != Approves then before
            else before[run := before[run].(status := Decided(Approved), updated := now)]
  {
  }

  class ApprovalTable {
    var table: Table

    constructor ()
      ensures table == map[]
    {
      table := map[];
    }

    /** `save_pending_approval`: an existing row becomes pending again. */
    method SavePendingApproval(run: string, workflow: Workflow, now: int)
      modifies this
      ensures run in table && table[run].workflow == workflow && table[run].status == Pending
      ensures table[run].updated == now
      ensures table == old(table)[run := table[run]]
      ensures table[run].created == if run in old(table) then old(table)[run].created else now
      ensures table[run].scheduledFor == if run in old(table) then old(table)[run].scheduledFor else None
    {
      table := table[run := if run in table
        then table[run].(workflow := workflow, status := Pending, updated := now)
        else Record(workflow, Pending, None, now, now)];
    }

    /** `decide_pending_approval` */
    method DecidePendingApproval(run: string, status: Status, now: int) returns (found: bool)
      modifies this
      ensures found <==> run in old(table)
      ensures !found ==> table == old(table)
      ensures found ==> table == old(table)[run := old(table)[run].(status := status, updated := now)]
    {
      found := run in table;
      if found { table := table[run := table[run].(status := status, updated := now)]; }
    }

    /** `defer_with_schedule`; None is a time that does not parse. */
    method DeferWithSchedule(run: string, at: Option<int>, now: int) returns (scheduled: bool)
      modifies this
      ensures scheduled <==> run in old(table) && at.Some?
      ensures !scheduled ==> table == old(table)
      ensures scheduled ==>
        table == old(table)[run := old(table)[run].(status := Scheduled, scheduledFor := at, updated := now)]
    {
      scheduled := run in table && at.Some?;
      if scheduled { table := table[run := table[run].(status := Scheduled, scheduledFor := at, updated := now)]; }
    }

    method Oldest(runs: set<string>) returns (oldest: string)
      requires runs != {} && runs <= table.Keys
      ensures oldest in runs && forall run :: run in runs ==> !Older(table[run], table[oldest])
    {
      oldest :| oldest in runs;
      var rest := runs - {oldest};
      while rest != {}
        invariant rest <= runs && oldest in runs
        invariant forall run :: run in runs && run !in rest ==> !Older(table[run], table[oldest])
      {
        var run :| run in rest;
        if Older(table[run], table[oldest]) { oldest := run; }
        rest := rest - {run};
      }
    }

    method ListPendingApprovals(limit: int) returns (listing: seq<string>)
      ensures IsListing(table, limit, listing)
    {
      listing := [];
      var rest := OpenRuns(table);
      while rest != {} && |listing| < Cap(limit)
        invariant |listing| <= Cap(limit) && rest <= OpenRuns(table)
        invariant forall i :: 0 <= i < |listing| ==> listing[i] in OpenRuns(table) && listing[i] !in rest
        invariant forall run :: run in OpenRuns(table) ==> run in rest || run in listing
        invariant forall run :: run in rest ==> Passed(table, listing, run)
        invariant forall i, j :: 0 <= i < j < |listing| ==>
          listing[i] != listing[j] && !Older(table[listing[j]], table[listing[i]])
        decreases rest
      {
        var run := Oldest(rest);
        assert Passed(table, listing, run);
        listing := listing + [run];
        rest := rest - {run};
      }
    }

    /** The loop over `reversed(run_view.approvals)`. */
    method LatestTerminal(view: View) returns (terminal: Option<Decision>)
      ensures terminal == LastDecision(view)
    {
      terminal := None;
      var i := |view|;
      assert view[..i] == view;
      while i > 0
        invariant 0 <= i <= |view| && terminal.None?
        invariant LastDecision(view) == LastDecision(view[..i])
      {
        i := i - 1;
        if view[i].Some? { return view[i]; }
        assert view[..i + 1][..i] == view[..i];
      }
      assert view[..0] == [];
    }

    /** One sync pass: every listed run that AgentOS has decided gets that decision,
        nothing else changes, and each listed row is counted once. */
    method SyncOpenApprovals(limit: int, answers: Answers, now: int)
      returns (checked: nat, synced: nat, skipped: nat, failed: nat, ghost listing: seq<string>)
      modifies this
      ensures IsListing(old(table), limit, listing)
      ensures table == Synced(old(table), listing, answers, now)
      ensures TakesDecisions(old(table), table, listing, answers, now)
      ensures checked == |listing| && checked == synced + skipped + failed
      ensures synced == Terminated(listing, answers) && failed == Unreachable(listing, answers)
    {
      var items := ListPendingApprovals(limit);
      listing := items;
      ListedOnce(table, limit, items);
      SyncedExact(table, items, answers, now);
      synced, skipped, failed := SyncListed(items, answers, now);
      checked := |items|;
    }

    /** The loop over the listed runs. */
    method SyncListed(items: seq<string>, answers: Answers, now: int) returns (synced: nat, skipped: nat, failed: nat)
      requires forall i: nat :: i < |items| ==> ListedAt(table, items, i)
      modifies this
      ensures table == Synced(old(table), items, answers, now)
      ensures |items| == synced + skipped + failed
      ensures synced == Terminated(items, answers) && failed == Unreachable(items, answers)
    {
      synced, skipped, failed := 0, 0, 0;
      ghost var was := table;
      assert Synced(was, [], answers, now) == was;
      for i := 0 to |items|
        invariant table == Synced(was, items[..i], answers, now)
        invariant i == synced + skipped + failed
        invariant synced == Terminated(items[..i], answers) && failed == Unreachable(items[..i], answers)
      {
        assert ListedAt(was, items, i);
        SyncedSnoc(was, items, i, answers, now);
        var outcome := SyncOne(items[i], answers, now);
        match outcome
        case Wrote => synced := synced + 1;
        case Undecided => skipped := skipped + 1;
        case Failed => failed := failed + 1;
      }
      assert items[..|items|] == items;
    }

    /** The body of the loop for one listed run. */
    method SyncOne(run: string, answers: Answers, now: int) returns (outcome: SyncOutcome)
      requires run in table
      modifies this
      ensures table == old(table)[run := SyncRecord(old(table)[run], Terminal(answers, run), now)]
      ensures outcome.Failed? <==> run !in answers
      ensures outcome.Wrote? <==> Terminal(answers, run).Some?
    {
      if run !in answers { return Failed; }
      var terminal := LatestTerminal(answers[run]);
      if terminal.None? { return Undecided; }
      var found := DecidePendingApproval(run, Decided(terminal.value), now);
      return Wrote;
    }

    /** The scheduled publisher over the due runs it listed. An exception ends the pass;
        a run that AgentOS no longer waits for stays due and is tried again. */
    method ProcessDueApprovals(due: seq<string>, outcomes: map<string, Outcome>, now: int)
      returns (approved: nat, failed: nat, done: nat)
      requires forall i :: 0 <= i < |due| ==> due[i] in outcomes && due[i] in table && Due(table[due[i]], now)
      modifies this
      ensures done <= |due| && approved + failed == done
      ensures done < |due| <==> exists i :: 0 <= i < |due| && outcomes[due[i]] == Raises
      ensures forall i :: 0 <= i < done ==> outcomes[due[i]] != Raises
      ensures done < |due| ==> outcomes[due[done]] == Raises
      ensures table == ApprovedRows(old(table), due[..done], outcomes, now)
      ensures forall i :: 0 <= i < |due| && outcomes[due[i]] == Missing ==> Due(table[due[i]], now)
      ensures forall i :: 0 <= i < done && outcomes[due[i]] == Approves ==>
        table[due[i]] == old(table)[due[i]].(status := Decided(Approved), updated := now)
      ensures table.Keys == old(table).Keys
      ensures forall run ::
        run in old(table) && !(run in due[..done] && run in outcomes && outcomes[run] == Approves) ==>
        table[run] == old(table)[run]
    {
      approved, failed, done := 0, 0, 0;
      ghost var was := table;
      while done < |due|
        invariant done <= |due| && approved + failed == done
        invariant forall i :: 0 <= i < done ==> outcomes[due[i]] != Raises
        invariant table == ApprovedRows(was, due[..done], outcomes, now)
      {
        var run := due[done];
        ApprovedSnoc(was, due, done, outcomes, now);
        if outcomes[run] == Raises { break; }
        if outcomes[run] == Approves {
          var found := DecidePendingApproval(run, Decided(Approved), now);
          approved := approved + 1;
        } else {
          failed := failed + 1;
        }
        done := done + 1;
      }
      ApprovedRowsSpec(was, due, done, outcomes, now);
    }
  }
}
