/** Which suggestion a reminder shows. The pushes that a reminder loop queues run after it
    and read its loop variable then, so each of them sends the card of the row listed
    last, an oldest open one, whatever row it was queued for. */
module SuggestionCards {
  import opened Common
  import opened Suggestions
  import opened SuggestionRuns
  import opened SuggestionResults
  import opened SuggestionFaults

  // ── One pass ────────────────────────────────────────────────────────────

  /** The rows that a reminder pass finds due after it expired what was overdue. */
  function Due(s: State, step: Step): set<nat>
    requires step.Remind?
  {
    DueIds(ExpireAll(s, step.tenant, step.at).table, step.tenant, step.later)
  }

  /** A whole pass: its listing ends with `last`, and no crash cuts it short. */
  predicate Passes(s: State, step: Step) {
    && step.Remind? && step.missed == {}
    && var table := ExpireAll(s, step.tenant, step.at).table;
       NoneListed(table, step.tenant) || ListedLast(table, step.tenant, step.last)
  }

  /** The pushes that a pass queues, as `Pushes` defines them. */
  function Queue(s: State, step: Step): set<Task>
    requires step.Remind?
  {
    Pushes(ExpireAll(s, step.tenant, step.at).table, step.tenant, step.later, step.last)
  }

  /** One push for each row that was stamped between two states, showing that row. */
  function Deserved(s: State, t: State): set<Task> {
    set id | id in s.table && id in t.table && |s.table[id].hist.reminders| < |t.table[id].hist.reminders| ::
      Pushing(id, |s.table[id].hist.reminders|, id)
  }

  lemma PassStamps(mode: Merge, s: State, step: Step, id: nat)
    requires Passes(s, step) && id in s.table
    ensures id in Apply(mode, s, step).table
    ensures |s.table[id].hist.reminders| < |Apply(mode, s, step).table[id].hist.reminders| <==> id in Due(s, step)
  {
    NextIsApply(mode, s, step, id);
  }

  lemma PassQueues(mode: Merge, s: State, step: Step)
    requires Inv(false, s) && Passes(s, step)
    ensures Apply(mode, s, step).tasks == s.tasks + Queue(s, step) && s.tasks !! Queue(s, step)
    ensures forall id :: id in Due(s, step) ==> Pushing(id, |s.table[id].hist.reminders|, step.last) in Queue(s, step)
    ensures forall task :: task in Queue(s, step) ==>
      && task.Pushing? && task.id in Due(s, step) && task.nth == |s.table[task.id].hist.reminders|
      && task.shown == step.last
  {
    forall task | task in s.tasks ensures task !in Queue(s, step) { assert TaskOk(false, s.table, task); }
  }

  lemma DeservedExact(mode: Merge, s: State, step: Step)
    requires Passes(s, step)
    ensures Deserved(s, Apply(mode, s, step)) ==
            set id | id in Due(s, step) :: Pushing(id, |s.table[id].hist.reminders|, id)
  {
    forall id | id in s.table
      ensures id in Apply(mode, s, step).table
      ensures |s.table[id].hist.reminders| < |Apply(mode, s, step).table[id].hist.reminders| <==> id in Due(s, step)
    {
      PassStamps(mode, s, step, id);
    }
  }

  /** Every row stamped in a pass is shown, and nothing else is, exactly if no row is due
      or only the one listed last. */
  lemma PassShowsOwnExact(mode: Merge, s: State, step: Step)
    requires Inv(false, s) && Passes(s, step)
    ensures var t := Apply(mode, s, step);
            t.tasks - s.tasks == Deserved(s, t) <==> Due(s, step) <= {step.last}
  {
    var t := Apply(mode, s, step);
    PassQueues(mode, s, step);
    DeservedExact(mode, s, step);
    if !(Due(s, step) <= {step.last}) {
      var d :| d in Due(s, step) && d != step.last;
      assert Pushing(d, |s.table[d].hist.reminders|, d) in Deserved(s, t);
    }
  }

  /** The pushes of the rows `ids`, sent in that order. */
  function Sends(s: State, ids: seq<nat>, last: nat): (steps: seq<Step>)
    requires forall i :: 0 <= i < |ids| ==> ids[i] in s.table
    ensures |steps| == |ids|
    ensures forall i :: 0 <= i < |ids| ==>
      steps[i] == Push(Pushing(ids[i], |s.table[ids[i]].hist.reminders|, last), true)
  {
    seq(|ids|, i requires 0 <= i < |ids| => Push(Pushing(ids[i], |s.table[ids[i]].hist.reminders|, last), true))
  }

  predicate Distinct<T(==)>(xs: seq<T>) { forall i, j :: 0 <= i < j < |xs| ==> xs[i] != xs[j] }

  /** The same rows, the last one shown that many times more. */
  ghost predicate ShownMore(s: State, t: State, last: nat, times: nat) {
    t.table.Keys == s.table.Keys &&
    forall id :: id in s.table ==>
      |t.table[id].hist.cards| == |s.table[id].hist.cards| + if id == last then times else 0
  }

  lemma {:induction false} PushesRun(mode: Merge, s: State, steps: seq<Step>, last: nat)
    requires Distinct(steps) && (steps != [] ==> last in s.table)
    requires forall i :: 0 <= i < |steps| ==>
      steps[i].Push? && steps[i].ok && steps[i].task in s.tasks && steps[i].task.Pushing? && steps[i].task.shown == last
    ensures TimelyRun(mode, s, steps) && ShownMore(s, Run(mode, s, steps), last, |steps|)
    decreases |steps|
  {
    if steps != [] {
      var t := Apply(mode, s, steps[0]);
      forall i | 0 <= i < |steps[1..]| ensures steps[1..][i].task in t.tasks {
        assert steps[1..][i] == steps[i + 1] != steps[0];
      }
      PushesRun(mode, t, steps[1..], last);
    }
  }

  /** Some due rows, each once. */
  predicate SomeDue(s: State, step: Step, ids: seq<nat>)
    requires step.Remind?
  {
    Distinct(ids) && forall i :: 0 <= i < |ids| ==> ids[i] in s.table && ids[i] in Due(s, step)
  }

  lemma SendsQueued(mode: Merge, s: State, step: Step, ids: seq<nat>)
    requires Inv(false, s) && Passes(s, step) && SomeDue(s, step, ids)
    ensures var sends := Sends(s, ids, step.last);
            && Distinct(sends)
            && forall i :: 0 <= i < |sends| ==>
                 && sends[i].Push? && sends[i].ok && sends[i].task in Apply(mode, s, step).tasks
                 && sends[i].task.Pushing? && sends[i].task.shown == step.last
  {
    PassQueues(mode, s, step);
  }

  lemma DueMeansListed(s: State, step: Step)
    requires Passes(s, step) && Due(s, step) != {}
    ensures step.last in s.table
  {
    var d :| d in Due(s, step);
    assert Listed(ExpireAll(s, step.tenant, step.at).table[d].row, step.tenant);
  }

  lemma PassShowsNothingYet(mode: Merge, s: State, step: Step)
    requires Inv(false, s) && Timely(s, step) && Passes(s, step)
    ensures ShownMore(s, Apply(mode, s, step), step.last, 0)
  {
    TableCards(mode, s, step);
  }

  /** Whichever pushes of a pass go out, the row listed last is shown once for each of
      them, and no other row is shown at all. */
  lemma PassDelivered(mode: Merge, s: State, step: Step, ids: seq<nat>)
    requires Inv(false, s) && Timely(s, step) && Passes(s, step) && SomeDue(s, step, ids)
    ensures var steps := [step] + Sends(s, ids, step.last);
            TimelyRun(mode, s, steps) && ShownMore(s, Run(mode, s, steps), step.last, |ids|)
  {
    var sends := Sends(s, ids, step.last);
    RunOne(mode, s, step);
    RunAppend(mode, s, [step], sends);
    SendsQueued(mode, s, step, ids);
    PassShowsNothingYet(mode, s, step);
    if ids != [] {
      assert ids[0] in Due(s, step);
      DueMeansListed(s, step);
    }
    PushesRun(mode, Apply(mode, s, step), sends, step.last);
  }

  lemma AtMostFour(table: map<nat, Entry>, ids: set<nat>)
    requires forall id :: id in ids ==> id in table
    requires forall a, b :: a in ids && b in ids && table[a].row.kind == table[b].row.kind ==> a == b
    ensures |ids| <= 4
  {
    var kinds := set id | id in ids :: table[id].row.kind;
    KindsCount(table, ids);
    var all := {ContentGap, UnansweredReviews, StaleKnowledge, RecoverSleeping};
    assert kinds <= all;
    SubsetCount(kinds, all);
  }

  lemma {:induction false} KindsCount(table: map<nat, Entry>, ids: set<nat>)
    requires forall id :: id in ids ==> id in table
    requires forall a, b :: a in ids && b in ids && table[a].row.kind == table[b].row.kind ==> a == b
    ensures |set id | id in ids :: table[id].row.kind| == |ids|
    decreases ids
  {
    if ids != {} {
      var x :| x in ids;
      KindsCount(table, ids - {x});
      assert (set id | id in ids :: table[id].row.kind) ==
             (set id | id in ids - {x} :: table[id].row.kind) + {table[x].row.kind};
    }
  }

  lemma {:induction false} SubsetCount<T>(a: set<T>, b: set<T>)
    requires a <= b
    ensures |a| <= |b|
    decreases a
  {
    if a != {} {
      var x :| x in a;
      SubsetCount(a - {x}, b - {x});
    }
  }

  /** As long as nothing reverted, that is four times at most, once per type. */
  lemma PassQueuesAtMostFour(s: State, step: Step)
    requires Inv(true, s) && Timely(s, step) && step.Remind?
    ensures |Due(s, step)| <= 4
  {
    var e := ExpireAll(s, step.tenant, step.at);
    ExpireInv(true, s, step.tenant, step.at);
    forall a, b | a in Due(s, step) && b in Due(s, step) && e.table[a].row.kind == e.table[b].row.kind
      ensures a == b
    {
      assert a != b ==> Rivals(e.table[a].row, e.table[b].row);
    }
    AtMostFour(e.table, Due(s, step));
  }

  // ── The cards of a run ──────────────────────────────────────────────────

  predicate IsCard(table: map<nat, Entry>, id: nat, i: nat) { id in table && i < |table[id].hist.cards| }

  function CardAt(table: map<nat, Entry>, id: nat, i: nat): (nat, nat)
    requires IsCard(table, id, i)
  {
    table[id].hist.cards[i]
  }

  /** A card that went out belongs to a stamped reminder whose push is over. */
  ghost predicate Spent(s: State, card: (nat, nat)) {
    && card.0 in s.table && card.1 < |s.table[card.0].hist.reminders|
    && forall task :: task in s.tasks && task.Pushing? ==> (task.id, task.nth) != card
  }

  /** No push sends two cards. */
  ghost predicate Apart(table: map<nat, Entry>) {
    forall id, i, k, j :: IsCard(table, id, i) && IsCard(table, k, j) && CardAt(table, id, i) == CardAt(table, k, j) ==>
      id == k && i == j
  }

  /** Each stamped reminder has one push at most, and each push sends one card. */
  ghost predicate CardInv(s: State) {
    && (forall id, i :: IsCard(s.table, id, i) ==> Spent(s, CardAt(s.table, id, i)))
    && (forall x, y :: x in s.tasks && y in s.tasks && SamePush(x, y) ==> x == y)
    && Apart(s.table)
  }

  predicate SamePush(x: Task, y: Task) { x.Pushing? && y.Pushing? && x.id == y.id && x.nth == y.nth }

  /** The cards are those of `s`, the reminders of `s` are still there, and no push is new. */
  ghost predicate SameCards(s: State, t: State) {
    && (forall id :: id in s.table ==> id in t.table && s.table[id].hist.reminders <= t.table[id].hist.reminders)
    && (forall id :: id in t.table ==> t.table[id].hist.cards == if id in s.table then s.table[id].hist.cards else [])
    && (forall task :: task in t.tasks && task.Pushing? ==> task in s.tasks)
  }

  lemma SameCardsInv(s: State, t: State)
    requires CardInv(s) && SameCards(s, t)
    ensures CardInv(t)
  {
    forall id, i | IsCard(t.table, id, i) ensures IsCard(s.table, id, i) && Spent(t, CardAt(t.table, id, i)) {
      assert Spent(s, CardAt(s.table, id, i));
    }
  }

  lemma NextCards(mode: Merge, s: State, step: Step, id: nat)
    requires Inv(false, s) && Timely(s, step) && !step.Push? && id in Apply(mode, s, step).table
    ensures Apply(mode, s, step).table[id].hist.cards == if id in s.table then s.table[id].hist.cards else []
  {
    if id in s.table {
      NextIsApply(mode, s, step, id);
      NextKeepsCards(mode, s, step, id);
    } else {
      NewHistory(mode, s, step, id);
    }
  }

  lemma NextKeepsCards(mode: Merge, s: State, step: Step, id: nat)
    requires id in s.table && !step.Push?
    ensures Next(mode, s, step, id).hist.cards == s.table[id].hist.cards
  {
  }

  /** Only a reminder pass queues pushes. */
  lemma OldPushes(mode: Merge, s: State, step: Step)
    requires !Passes(s, step)
    ensures forall task :: task in Apply(mode, s, step).tasks && task.Pushing? ==> task in s.tasks
  {
  }

  /** Every step but a push leaves the cards of the table alone. */
  lemma TableCards(mode: Merge, s: State, step: Step)
    requires Inv(false, s) && Timely(s, step) && !step.Push?
    ensures SameCards(s, Apply(mode, s, step).(tasks := s.tasks))
  {
    var t := Apply(mode, s, step);
    StepInv(false, mode, s, step);
    forall id | id in s.table ensures id in t.table && s.table[id].hist.reminders <= t.table[id].hist.reminders {
      assert Follows(false, s.table[id], t.table[id]);
    }
    forall id | id in t.table
      ensures t.table[id].hist.cards == if id in s.table then s.table[id].hist.cards else []
    {
      NextCards(mode, s, step, id);
    }
  }

  lemma QuietStep(mode: Merge, s: State, step: Step)
    requires Inv(false, s) && Timely(s, step) && !step.Push? && !Passes(s, step)
    ensures SameCards(s, Apply(mode, s, step))
  {
    TableCards(mode, s, step);
    OldPushes(mode, s, step);
  }

  /** Pushes for reminders that were not counted yet, one each. */
  ghost predicate NewPushes(s: State, queue: set<Task>) {
    forall x :: x in queue ==> x.Pushing? && x.id in s.table && x.nth == |s.table[x.id].hist.reminders|
  }

  ghost predicate OneTarget(queue: set<Task>, last: nat) {
    forall x :: x in queue ==> x.Pushing? && x.shown == last
  }

  lemma AddedPushes(s: State, t: State, queue: set<Task>, last: nat)
    requires Inv(false, s) && CardInv(s) && SameCards(s, t.(tasks := s.tasks)) && t.tasks == s.tasks + queue
    requires NewPushes(s, queue) && OneTarget(queue, last)
    ensures CardInv(t)
  {
    SameCardsInv(s, t.(tasks := s.tasks));
    forall id, i | IsCard(t.table, id, i) ensures Spent(t, CardAt(t.table, id, i)) {
      assert IsCard(s.table, id, i) && Spent(s, CardAt(s.table, id, i));
      assert Spent(t.(tasks := s.tasks), CardAt(t.table, id, i));
    }
    forall x, y | x in t.tasks && y in t.tasks && SamePush(x, y) ensures x == y {
      OldOrNew(s, queue, last, x, y);
    }
  }

  lemma OldOrNew(s: State, queue: set<Task>, last: nat, x: Task, y: Task)
    requires Inv(false, s) && CardInv(s) && NewPushes(s, queue) && OneTarget(queue, last)
    requires x in s.tasks + queue && y in s.tasks + queue && SamePush(x, y)
    ensures x == y
  {
    if x in s.tasks { assert TaskOk(false, s.table, x); }
    if y in s.tasks { assert TaskOk(false, s.table, y); }
  }

  lemma PassCards(mode: Merge, s: State, step: Step)
    requires Inv(false, s) && CardInv(s) && Timely(s, step) && Passes(s, step)
    ensures CardInv(Apply(mode, s, step))
  {
    TableCards(mode, s, step);
    PassQueues(mode, s, step);
    AddedPushes(s, Apply(mode, s, step), Queue(s, step), step.last);
  }

  lemma PushCards(s: State, task: Task, ok: bool)
    requires Inv(false, s) && CardInv(s) && task in s.tasks && task.Pushing?
    ensures CardInv(PushStep(s, task, ok))
  {
    var t := PushStep(s, task, ok);
    assert TaskOk(false, s.table, task);
    if ok {
      var card := (task.id, task.nth);
      forall id, i | IsCard(t.table, id, i)
        ensures if IsCard(s.table, id, i) then CardAt(t.table, id, i) == CardAt(s.table, id, i) != card
                else id == task.shown && i == |s.table[id].hist.cards| && CardAt(t.table, id, i) == card
      {
        if IsCard(s.table, id, i) { assert Spent(s, CardAt(s.table, id, i)); }
      }
      forall id, i | IsCard(t.table, id, i) ensures Spent(t, CardAt(t.table, id, i)) {
        if IsCard(s.table, id, i) { assert Spent(s, CardAt(s.table, id, i)); } else { LastPush(s, task); }
      }
    } else {
      SameCardsInv(s, t);
    }
  }

  lemma LastPush(s: State, task: Task)
    requires CardInv(s) && task in s.tasks && task.Pushing?
    ensures forall x :: x in s.tasks - {task} && x.Pushing? ==> (x.id, x.nth) != (task.id, task.nth)
  {
    forall x | x in s.tasks - {task} && x.Pushing? ensures (x.id, x.nth) != (task.id, task.nth) {
      assert !SamePush(x, task);
    }
  }

  lemma StepCards(mode: Merge, s: State, step: Step)
    requires Inv(false, s) && CardInv(s) && Timely(s, step)
    ensures CardInv(Apply(mode, s, step))
  {
    if Passes(s, step) {
      PassCards(mode, s, step);
    } else if step.Push? {
      if step.task in s.tasks && step.task.Pushing? { PushCards(s, step.task, step.ok); }
    } else {
      QuietStep(mode, s, step);
      SameCardsInv(s, Apply(mode, s, step));
    }
  }

  /** Along every run no stamped reminder sends more than one card, to whichever
      suggestion the card belongs. */
  lemma {:induction false} RunCards(mode: Merge, s: State, steps: seq<Step>)
    requires Inv(false, s) && CardInv(s) && TimelyRun(mode, s, steps)
    ensures CardInv(Run(mode, s, steps))
    decreases |steps|
  {
    if steps != [] {
      StepInv(false, mode, s, steps[0]);
      StepCards(mode, s, steps[0]);
      RunCards(mode, Apply(mode, s, steps[0]), steps[1..]);
    }
  }

  // ── Own cards ───────────────────────────────────────────────────────────

  ghost predicate OwnCards(table: map<nat, Entry>) {
    forall id, i :: IsCard(table, id, i) ==> CardAt(table, id, i).0 == id
  }

  predicate OwnPushes(tasks: set<Task>) {
    forall task :: task in tasks && task.Pushing? ==> task.shown == task.id
  }

  /** Whatever was pushed or is queued shows the row it was queued for. */
  ghost predicate AllOwn(s: State) { OwnCards(s.table) && OwnPushes(s.tasks) }

  /** A pass with a due row that is not the last one listed. */
  predicate Misdirects(s: State, step: Step) { Passes(s, step) && !(Due(s, step) <= {step.last}) }

  /** Cards stay with their rows exactly until such a pass. */
  lemma MisdirectsExact(mode: Merge, s: State, step: Step)
    requires Inv(false, s) && CardInv(s) && AllOwn(s) && Timely(s, step)
    ensures AllOwn(Apply(mode, s, step)) <==> !Misdirects(s, step)
  {
    var t := Apply(mode, s, step);
    if Passes(s, step) {
      TableCards(mode, s, step);
      SameCardsOwn(s, t.(tasks := s.tasks));
      PassOwn(mode, s, step);
    } else if step.Push? {
      if step.task in s.tasks && step.task.Pushing? { PushOwn(s, step.task, step.ok); }
    } else {
      QuietStep(mode, s, step);
      SameCardsOwn(s, t);
    }
  }

  /** The pushes of a pass alone. */
  lemma PassOwn(mode: Merge, s: State, step: Step)
    requires Inv(false, s) && AllOwn(s) && Passes(s, step)
    ensures OwnPushes(Apply(mode, s, step).tasks) <==> Due(s, step) <= {step.last}
  {
    PassQueues(mode, s, step);
    if !(Due(s, step) <= {step.last}) {
      var d :| d in Due(s, step) && d != step.last;
      assert Pushing(d, |s.table[d].hist.reminders|, step.last) in Apply(mode, s, step).tasks;
    }
  }

  lemma SameCardsOwn(s: State, t: State)
    requires AllOwn(s) && SameCards(s, t)
    ensures AllOwn(t)
  {
    assert OwnPushes(t.tasks);
    forall id, i | IsCard(t.table, id, i) ensures CardAt(t.table, id, i).0 == id { assert IsCard(s.table, id, i); }
  }

  lemma PushOwn(s: State, task: Task, ok: bool)
    requires AllOwn(s) && task in s.tasks && task.Pushing?
    ensures AllOwn(PushStep(s, task, ok))
  {
    var t := PushStep(s, task, ok);
    forall id, i | IsCard(t.table, id, i) ensures CardAt(t.table, id, i).0 == id {
      assert IsCard(s.table, id, i) ==> CardAt(s.table, id, i).0 == id;
    }
  }

  // ── At most once ────────────────────────────────────────────────────────

  /** Each row is stamped and shown once at most, with its own card, and the rest of what
      the full invariant says. */
  ghost predicate Sound(s: State) { Inv(true, s) && CardInv(s) && AllOwn(s) }

  /** A step breaks that, or lets a row reopen, exactly if it reverts a row or is a pass
      with a due row that is not the last one listed. */
  lemma SoundStepExact(mode: Merge, s: State, step: Step)
    requires Sound(s) && Timely(s, step)
    ensures Sound(Apply(mode, s, step)) && Evolves(true, s, Apply(mode, s, step)) <==>
            !Reverts(mode, s, step) && !Misdirects(s, step)
  {
    StampedRevertsExact(mode, s, step);
    StepCards(mode, s, step);
    MisdirectsExact(mode, s, step);
  }

  /** No pass of the run finds a due row that is not the last one listed. */
  ghost predicate OwnPasses(mode: Merge, s: State, steps: seq<Step>)
    decreases |steps|
  {
    steps != [] ==> !Misdirects(s, steps[0]) && OwnPasses(mode, Apply(mode, s, steps[0]), steps[1..])
  }

  lemma {:induction false} OwnRun(mode: Merge, s: State, steps: seq<Step>)
    requires Inv(false, s) && CardInv(s) && AllOwn(s) && TimelyRun(mode, s, steps) && OwnPasses(mode, s, steps)
    ensures CardInv(Run(mode, s, steps)) && AllOwn(Run(mode, s, steps))
    decreases |steps|
  {
    if steps != [] {
      StepInv(false, mode, s, steps[0]);
      StepCards(mode, s, steps[0]);
      MisdirectsExact(mode, s, steps[0]);
      OwnRun(mode, Apply(mode, s, steps[0]), steps[1..]);
    }
  }

  /** Different pushes for one row have different numbers. */
  lemma {:induction false} NumbersBounded(cards: seq<(nat, nat)>, id: nat, bound: nat)
    requires Distinct(cards) && forall i :: 0 <= i < |cards| ==> cards[i].0 == id && cards[i].1 < bound
    ensures |cards| <= bound
    decreases bound
  {
    assert cards != [] ==> cards[0].1 < bound;
    if i :| 0 <= i < |cards| && cards[i].1 == bound - 1 {
      NumbersBounded(cards[..i] + cards[i + 1..], id, bound - 1);
    } else if bound > 0 {
      NumbersBounded(cards, id, bound - 1);
    }
  }

  /** Then a row is shown no more often than it is stamped. */
  lemma ShownWithinStamped(s: State, id: nat)
    requires CardInv(s) && AllOwn(s) && id in s.table
    ensures |s.table[id].hist.cards| <= |s.table[id].hist.reminders|
  {
    var cards := s.table[id].hist.cards;
    forall i, j | 0 <= i < j < |cards| ensures cards[i] != cards[j] {
      assert IsCard(s.table, id, i) && IsCard(s.table, id, j);
    }
    forall i | 0 <= i < |cards| ensures cards[i].0 == id && cards[i].1 < |s.table[id].hist.reminders| {
      assert IsCard(s.table, id, i) && Spent(s, CardAt(s.table, id, i));
    }
    NumbersBounded(cards, id, |s.table[id].hist.reminders|);
  }

  /** At most one execution and one reminder card, in every run in which no step reverts a
      row and every pass finds no row due or just the last one listed. */
  lemma AtMostOnce(mode: Merge, steps: seq<Step>, id: nat)
    requires TimelyRun(mode, EMPTY, steps) && Unreverted(mode, EMPTY, steps) && OwnPasses(mode, EMPTY, steps)
    requires id in Run(mode, EMPTY, steps).table
    ensures var e := Run(mode, EMPTY, steps).table[id]; e.hist.executions <= 1 && |e.hist.cards| <= 1
  {
    OwnRun(mode, EMPTY, steps);
    StampedAtMostOnce(mode, steps, id);
    ShownWithinStamped(Run(mode, EMPTY, steps), id);
  }

  /** If only the run id were written, that would hold whatever crashes. */
  lemma ColumnSavesAtMostOnce(steps: seq<Step>, id: nat)
    requires TimelyRun(ChangedColumn, EMPTY, steps) && OwnPasses(ChangedColumn, EMPTY, steps)
    requires id in Run(ChangedColumn, EMPTY, steps).table
    ensures var e := Run(ChangedColumn, EMPTY, steps).table[id]; e.hist.executions <= 1 && |e.hist.cards| <= 1
  {
    ColumnsNeverRevert(EMPTY, steps);
    AtMostOnce(ChangedColumn, steps, id);
  }

  /** Whatever is reverted, two executions and two reminder cards at most, as long as
      passes show what they stamp. */
  lemma NeverMoreThanTwice(mode: Merge, steps: seq<Step>, id: nat)
    requires TimelyRun(mode, EMPTY, steps) && OwnPasses(mode, EMPTY, steps)
    requires id in Run(mode, EMPTY, steps).table
    ensures var e := Run(mode, EMPTY, steps).table[id]; e.hist.executions <= 2 && |e.hist.cards| <= 2
  {
    OwnRun(mode, EMPTY, steps);
    StampedNeverMoreThanTwice(mode, EMPTY, steps);
    ShownWithinStamped(Run(mode, EMPTY, steps), id);
  }

  // ── The failing run ─────────────────────────────────────────────────────

  const HOUR := 3600

  function Scans(tenant: string, a: Kind, b: Kind): seq<Step> {
    [Scan(tenant, Some(a), 1, false, 0, 0), Scan(tenant, Some(b), 2, false, HOUR, HOUR)]
  }

  function OnePass(tenant: string, now: int, id: nat): seq<Step> {
    [Remind(tenant, 1, now, now, {}), Push(Pushing(id, 0, 1), true)]
  }

  /** Two suggestions of different types an hour apart, then a pass twelve hours after
      each, its one push sent. */
  function TwoPasses(tenant: string, a: Kind, b: Kind): seq<Step> {
    Scans(tenant, a, b) + (OnePass(tenant, HALF_DAY, 1) + OnePass(tenant, HALF_DAY + HOUR, 2))
  }

  function Two(x: Entry, y: Entry, tasks: set<Task>, clock: int): State { State(map[1 := x, 2 := y], tasks, clock) }

  /** A time at which only `id` of two listed rows is due for its first reminder. */
  predicate OneDue(x: Entry, y: Entry, tenant: string, now: int, id: nat) {
    && Listed(x.row, tenant) && Listed(y.row, tenant) && now <= x.row.expiresAt <= y.row.expiresAt
    && id in {1, 2} && (id == 1 <==> ReminderDue(x.row, tenant, now)) && (id == 2 <==> ReminderDue(y.row, tenant, now))
    && (if id == 1 then x else y).hist.reminders == []
  }

  lemma PassOfTwo(x: Entry, y: Entry, tenant: string, clock: int, now: int, id: nat)
    requires OneDue(x, y, tenant, now, id)
    ensures RemindStep(Two(x, y, {}, clock), tenant, 1, now, now, {}) ==
            Two(RemindEntry(x, tenant, now, now), RemindEntry(y, tenant, now, now), {Pushing(id, 0, 1)}, now)
  {
    var e := ExpireAll(Two(x, y, {}, clock), tenant, now);
    assert e.table == map[1 := x, 2 := y];
    assert DueIds(e.table, tenant, now) == {id};
    assert Pushes(e.table, tenant, now, 1) == {Pushing(id, 0, 1)};
    assert RemindAll(e, tenant, now, now, {}) ==
           map[1 := RemindEntry(x, tenant, now, now), 2 := RemindEntry(y, tenant, now, now)];
    assert ListedLast(e.table, tenant, 1);
  }

  lemma PushOfTwo(mode: Merge, x: Entry, y: Entry, id: nat, nth: nat, clock: int)
    ensures var task := Pushing(id, nth, 1);
            Apply(mode, Two(x, y, {task}, clock), Push(task, true)) == Two(ShowEntry(x, task), y, {}, clock)
  {
  }

  function First(tenant: string, a: Kind): State {
    State(map[1 := Entry(NewRow(tenant, a, 0), NO_HISTORY)], {}, 0)
  }

  function Both(tenant: string, a: Kind, b: Kind): State {
    Two(Entry(NewRow(tenant, a, 0), NO_HISTORY), Entry(NewRow(tenant, b, HOUR), NO_HISTORY), {}, HOUR)
  }

  lemma ScannedOnce(mode: Merge, tenant: string, a: Kind)
    ensures Apply(mode, EMPTY, Scan(tenant, Some(a), 1, false, 0, 0)) == First(tenant, a)
  {
    assert ExpireAll(EMPTY, tenant, 0).table == map[];
  }

  lemma ScannedTwice(mode: Merge, tenant: string, a: Kind, b: Kind)
    requires a != b
    ensures Apply(mode, First(tenant, a), Scan(tenant, Some(b), 2, false, HOUR, HOUR)) == Both(tenant, a, b)
  {
    assert ExpireAll(First(tenant, a), tenant, HOUR).table == First(tenant, a).table;
  }

  lemma BothScanned(mode: Merge, tenant: string, a: Kind, b: Kind)
    requires a != b
    ensures TimelyRun(mode, EMPTY, Scans(tenant, a, b))
    ensures Run(mode, EMPTY, Scans(tenant, a, b)) == Both(tenant, a, b)
  {
    ScannedOnce(mode, tenant, a);
    ScannedTwice(mode, tenant, a, b);
    RunTwo(mode, EMPTY, Scans(tenant, a, b)[0], Scans(tenant, a, b)[1]);
  }

  /** What a pass at `now` with its push leaves of the first row. */
  function Nagged(x: Entry, tenant: string, now: int, id: nat): Entry {
    ShowEntry(RemindEntry(x, tenant, now, now), Pushing(id, 0, 1))
  }

  lemma PassesRun(mode: Merge, tenant: string, x: Entry, y: Entry, clock: int, a: int, b: int)
    requires clock <= a <= b && OneDue(x, y, tenant, a, 1) && OneDue(Nagged(x, tenant, a, 1), y, tenant, b, 2)
    ensures var s, steps := Two(x, y, {}, clock), OnePass(tenant, a, 1) + OnePass(tenant, b, 2);
            && TimelyRun(mode, s, steps)
            && Run(mode, s, steps) ==
               Two(Nagged(Nagged(x, tenant, a, 1), tenant, b, 2), RemindEntry(y, tenant, b, b), {}, b)
  {
    PassAndPush(mode, tenant, x, y, clock, a, 1);
    PassAndPush(mode, tenant, Nagged(x, tenant, a, 1), y, a, b, 2);
    RunAppend(mode, Two(x, y, {}, clock), OnePass(tenant, a, 1), OnePass(tenant, b, 2));
  }

  /** Both ways of saving, no crash: the first suggestion's card goes out twice, the
      second suggestion is stamped as reminded and never shown. */
  lemma ShownTwice(mode: Merge, tenant: string, a: Kind, b: Kind)
    requires a != b
    ensures var steps := TwoPasses(tenant, a, b);
            var t := Run(mode, EMPTY, steps);
            && TimelyRun(mode, EMPTY, steps) && t.table.Keys == {1, 2}
            && t.table[1].hist.cards == [(1, 0), (2, 0)] && t.table[2].hist.cards == []
            && |t.table[1].hist.reminders| == 1 && |t.table[2].hist.reminders| == 1
            && t.table[2].row.snapshot.reminded.Some?
  {
    var x, y := Entry(NewRow(tenant, a, 0), NO_HISTORY), Entry(NewRow(tenant, b, HOUR), NO_HISTORY);
    BothScanned(mode, tenant, a, b);
    PassesRun(mode, tenant, x, y, HOUR, HALF_DAY, HALF_DAY + HOUR);
    RunAppend(mode, EMPTY, Scans(tenant, a, b), OnePass(tenant, HALF_DAY, 1) + OnePass(tenant, HALF_DAY + HOUR, 2));
  }

  /** A pass over two rows of which only `id` is due. */
  lemma PassAndPush(mode: Merge, tenant: string, x: Entry, y: Entry, clock: int, now: int, id: nat)
    requires OneDue(x, y, tenant, now, id) && clock <= now
    ensures var s, steps := Two(x, y, {}, clock), OnePass(tenant, now, id);
            && TimelyRun(mode, s, steps)
            && Run(mode, s, steps) == Two(ShowEntry(RemindEntry(x, tenant, now, now), Pushing(id, 0, 1)),
                                          RemindEntry(y, tenant, now, now), {}, now)
  {
    var s, steps := Two(x, y, {}, clock), OnePass(tenant, now, id);
    PassOfTwo(x, y, tenant, clock, now, id);
    PushOfTwo(mode, RemindEntry(x, tenant, now, now), RemindEntry(y, tenant, now, now), id, 0, now);
    RunTwo(mode, s, steps[0], steps[1]);
  }
}
