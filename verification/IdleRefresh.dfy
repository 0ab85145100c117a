/** The idle refresher: rewrite a tenant's conversation summary once its latest
    conversation has been quiet long enough and the summary is older than it. */
module IdleRefresh {
  import opened Common

  /** Creation times of a tenant's conversations, and when its summary was last saved. */
  type Conversations = map<string, seq<int>>
  type Summaries = map<string, int>

  /** A refresh saves the summary at some time; it may raise before or after that. */
  datatype Refresh = Saved(at: int) | RaisedBefore | RaisedAfter(at: int)

  predicate Raises(r: Refresh) { !r.Saved? }

  /** `max(int(setting), 30)` */
  function IdleSeconds(setting: int): (n: int)
    ensures setting >= 30 ==> n == setting
    ensures setting < 30 ==> n == 30
  {
    if setting > 30 then setting else 30
  }

  function Latest(times: seq<int>): Option<int>
    decreases |times|
  {
    if times == [] then None
    else match Latest(times[..|times| - 1])
      case None => Some(times[|times| - 1])
      case Some(t) => Some(if times[|times| - 1] > t then times[|times| - 1] else t)
  }

  lemma {:induction false} LatestSpec(times: seq<int>)
    ensures Latest(times).None? <==> times == []
    ensures Latest(times).Some? ==> Latest(times).value in times
    ensures Latest(times).Some? ==> forall i :: 0 <= i < |times| ==> times[i] <= Latest(times).value
    decreases |times|
  {
    if times != [] {
      var init := times[..|times| - 1];
      LatestSpec(init);
      assert times == init + [times[|times| - 1]];
    }
  }

  function LatestOf(c: Conversations, tenant: string): Option<int> {
    if tenant in c then Latest(c[tenant]) else None
  }

  predicate Idle(c: Conversations, tenant: string, now: int, idle: int) {
    LatestOf(c, tenant).Some? && now - LatestOf(c, tenant).value >= idle
  }

  predicate UpToDate(c: Conversations, s: Summaries, tenant: string) {
    tenant in s && LatestOf(c, tenant).Some? && s[tenant] >= LatestOf(c, tenant).value
  }

  predicate Due(c: Conversations, s: Summaries, tenant: string, now: int, idle: int) {
    tenant != "" && Idle(c, tenant, now, idle) && !UpToDate(c, s, tenant)
  }

  /** A tenant with an id is due exactly if its newest conversation is at least `idle` old
      and its summary is missing or older than that conversation. */
  lemma DueExact(c: Conversations, s: Summaries, tenant: string, now: int, idle: int, newest: int)
    requires tenant in c && newest in c[tenant] && forall t :: t in c[tenant] ==> t <= newest
    ensures Due(c, s, tenant, now, idle) <==>
            tenant != "" && newest + idle <= now && (tenant !in s || s[tenant] < newest)
  {
    LatestSpec(c[tenant]);
  }

  lemma NeverDue(c: Conversations, s: Summaries, tenant: string, now: int, idle: int)
    requires tenant in c ==> c[tenant] == []
    ensures !Due(c, s, tenant, now, idle)
  {
  }

  /** What a refresh leaves: the time of its save, also if it raised after that. */
  lemma SavingExact(s: Summaries, tenant: string, at: int)
    ensures Saving(s, tenant, Saved(at)) == s[tenant := at] && Saving(s, tenant, RaisedAfter(at)) == s[tenant := at]
    ensures Saving(s, tenant, RaisedBefore) == s
  {
  }

  function Saving(s: Summaries, tenant: string, r: Refresh): Summaries {
    match r case RaisedBefore => s case Saved(at) => s[tenant := at] case RaisedAfter(at) => s[tenant := at]
  }

  /** The summaries after the first tenants of the list were handled. */
  function After(
      c: Conversations, s: Summaries, tenants: seq<string>, refreshes: seq<Refresh>, now: int, idle: int): Summaries
    requires |refreshes| == |tenants|
    decreases |tenants|
  {
    if tenants == [] then s
    else
      var k := |tenants| - 1;
      var before := After(c, s, tenants[..k], refreshes[..k], now, idle);
      var tenant := Strip(tenants[k]);
      if Due(c, before, tenant, now, idle) then Saving(before, tenant, refreshes[k]) else before
  }

  /** The tenants refreshed, in order. */
  function Refreshed(
      c: Conversations, s: Summaries, tenants: seq<string>, refreshes: seq<Refresh>, now: int, idle: int): seq<string>
    requires |refreshes| == |tenants|
    decreases |tenants|
  {
    if tenants == [] then []
    else
      var k := |tenants| - 1;
      var before := After(c, s, tenants[..k], refreshes[..k], now, idle);
      var tenant := Strip(tenants[k]);
      Refreshed(c, s, tenants[..k], refreshes[..k], now, idle) +
      if Due(c, before, tenant, now, idle) then [tenant] else []
  }

  predicate Listed(tenants: seq<string>, tenant: string) {
    exists i :: 0 <= i < |tenants| && Strip(tenants[i]) == tenant
  }

  /** Nothing raises, and the clock at a save is not behind the time the run works with. */
  predicate Clean(refreshes: seq<Refresh>, now: int) {
    forall i :: 0 <= i < |refreshes| ==> refreshes[i].Saved? && refreshes[i].at >= now
  }

  lemma ListedSnoc(tenants: seq<string>, tenant: string)
    requires tenants != []
    ensures Listed(tenants, tenant) <==>
            Listed(tenants[..|tenants| - 1], tenant) || Strip(tenants[|tenants| - 1]) == tenant
  {
  }

  /** After a run no listed tenant is due, tenants that are not due, not listed or not
      idle are untouched, and a summary never gets older than a due conversation. */
  lemma {:induction false} RunSettles(
      c: Conversations, s: Summaries, tenants: seq<string>, refreshes: seq<Refresh>, now: int, idle: int,
      tenant: string)
    requires |refreshes| == |tenants| && Clean(refreshes, now) && idle >= 0
    ensures var t := After(c, s, tenants, refreshes, now, idle);
            && (Listed(tenants, tenant) ==> !Due(c, t, tenant, now, idle))
            && (!Listed(tenants, tenant) || !Due(c, s, tenant, now, idle) ==>
                  (tenant in t <==> tenant in s) && (tenant in s ==> t[tenant] == s[tenant]))
            && (UpToDate(c, s, tenant) ==> UpToDate(c, t, tenant))
    decreases |tenants|
  {
    if tenants != [] {
      var k := |tenants| - 1;
      assert Clean(refreshes[..k], now);
      RunSettles(c, s, tenants[..k], refreshes[..k], now, idle, tenant);
      ListedSnoc(tenants, tenant);
    }
  }

  predicate NoneDue(c: Conversations, s: Summaries, tenants: seq<string>, now: int, idle: int) {
    forall i :: 0 <= i < |tenants| ==> !Due(c, s, Strip(tenants[i]), now, idle)
  }

  lemma NoneDueSnoc(c: Conversations, s: Summaries, tenants: seq<string>, now: int, idle: int)
    requires tenants != []
    ensures var k := |tenants| - 1;
            NoneDue(c, s, tenants, now, idle) <==>
            NoneDue(c, s, tenants[..k], now, idle) && !Due(c, s, Strip(tenants[k]), now, idle)
  {
    var init := tenants[..|tenants| - 1];
    assert forall i :: 0 <= i < |init| ==> init[i] == tenants[i];
  }

  /** A run refreshes nobody exactly if none of its tenants is due when it starts. */
  lemma {:induction false} RefreshedNobody(
      c: Conversations, s: Summaries, tenants: seq<string>, refreshes: seq<Refresh>, now: int, idle: int)
    requires |refreshes| == |tenants|
    ensures Refreshed(c, s, tenants, refreshes, now, idle) == [] <==> NoneDue(c, s, tenants, now, idle)
    ensures NoneDue(c, s, tenants, now, idle) ==> After(c, s, tenants, refreshes, now, idle) == s
    decreases |tenants|
  {
    if tenants != [] {
      NoneDueSnoc(c, s, tenants, now, idle);
      RefreshedNobody(c, s, tenants[..|tenants| - 1], refreshes[..|tenants| - 1], now, idle);
    }
  }

  function SavedAt(r: Refresh): Option<int> {
    match r case RaisedBefore => None case Saved(at) => Some(at) case RaisedAfter(at) => Some(at)
  }

  predicate OnTime(c: Conversations, tenant: string, r: Refresh) {
    SavedAt(r).Some? && LatestOf(c, tenant).Some? && SavedAt(r).value >= LatestOf(c, tenant).value
  }

  /** Some refresh of the tenant is stamped no earlier than its latest conversation. */
  predicate SavedOnTime(c: Conversations, tenants: seq<string>, refreshes: seq<Refresh>, tenant: string)
    requires |refreshes| == |tenants|
  {
    exists i :: 0 <= i < |tenants| && Strip(tenants[i]) == tenant && OnTime(c, tenant, refreshes[i])
  }

  lemma SavedOnTimeSnoc(c: Conversations, tenants: seq<string>, refreshes: seq<Refresh>, tenant: string)
    requires |refreshes| == |tenants| && tenants != []
    ensures var k := |tenants| - 1;
            SavedOnTime(c, tenants, refreshes, tenant) <==>
            || SavedOnTime(c, tenants[..k], refreshes[..k], tenant)
            || (Strip(tenants[k]) == tenant && OnTime(c, tenant, refreshes[k]))
  {
    var k := |tenants| - 1;
    if SavedOnTime(c, tenants[..k], refreshes[..k], tenant) {
      var i :| 0 <= i < k && Strip(tenants[..k][i]) == tenant && OnTime(c, tenant, refreshes[..k][i]);
      assert Strip(tenants[i]) == tenant && OnTime(c, tenant, refreshes[i]);
    }
    if SavedOnTime(c, tenants, refreshes, tenant) {
      var i :| 0 <= i <= k && Strip(tenants[i]) == tenant && OnTime(c, tenant, refreshes[i]);
      if i < k { assert Strip(tenants[..k][i]) == tenant && OnTime(c, tenant, refreshes[..k][i]); }
    }
  }

  /** Whatever the stamps and exceptions: a run settles a due tenant exactly if one of its
      refreshes is stamped in time. */
  lemma {:induction false} SettledExact(
      c: Conversations, s: Summaries, tenants: seq<string>, refreshes: seq<Refresh>, now: int, idle: int,
      tenant: string)
    requires |refreshes| == |tenants| && Due(c, s, tenant, now, idle)
    ensures Due(c, After(c, s, tenants, refreshes, now, idle), tenant, now, idle) <==>
            !SavedOnTime(c, tenants, refreshes, tenant)
    decreases |tenants|
  {
    if tenants != [] {
      var k := |tenants| - 1;
      SettledExact(c, s, tenants[..k], refreshes[..k], now, idle, tenant);
      SavedOnTimeSnoc(c, tenants, refreshes, tenant);
    }
  }

  /** A tenant that is not due stays so. */
  lemma {:induction false} StaysSettled(
      c: Conversations, s: Summaries, tenants: seq<string>, refreshes: seq<Refresh>, now: int, idle: int,
      tenant: string)
    requires |refreshes| == |tenants| && !Due(c, s, tenant, now, idle)
    ensures !Due(c, After(c, s, tenants, refreshes, now, idle), tenant, now, idle)
    decreases |tenants|
  {
    if tenants != [] {
      StaysSettled(c, s, tenants[..|tenants| - 1], refreshes[..|tenants| - 1], now, idle, tenant);
    }
  }

  /** Fixpoint: the same run again refreshes nobody and changes nothing exactly if every
      tenant that was due has been saved with a stamp no earlier than its conversation. */
  lemma RunIsFixpoint(
      c: Conversations, s: Summaries, tenants: seq<string>, first: seq<Refresh>, second: seq<Refresh>,
      now: int, idle: int)
    requires |first| == |second| == |tenants|
    ensures var t := After(c, s, tenants, first, now, idle);
            && (Refreshed(c, t, tenants, second, now, idle) == [] <==>
                forall i :: 0 <= i < |tenants| && Due(c, s, Strip(tenants[i]), now, idle) ==>
                  SavedOnTime(c, tenants, first, Strip(tenants[i])))
            && (Refreshed(c, t, tenants, second, now, idle) == [] ==> After(c, t, tenants, second, now, idle) == t)
  {
    var t := After(c, s, tenants, first, now, idle);
    RefreshedNobody(c, t, tenants, second, now, idle);
    forall i | 0 <= i < |tenants|
      ensures Due(c, t, Strip(tenants[i]), now, idle) <==>
        Due(c, s, Strip(tenants[i]), now, idle) && !SavedOnTime(c, tenants, first, Strip(tenants[i]))
    {
      var tenant := Strip(tenants[i]);
      if Due(c, s, tenant, now, idle) { SettledExact(c, s, tenants, first, now, idle, tenant); }
      else { StaysSettled(c, s, tenants, first, now, idle, tenant); }
    }
  }

  /** With a clock that does not run backward that is always so: every idle tenant then
      has a summary at least as new as its latest conversation. */
  lemma CleanRunIsFixpoint(
      c: Conversations, s: Summaries, tenants: seq<string>, first: seq<Refresh>, second: seq<Refresh>,
      now: int, idle: int)
    requires |first| == |second| == |tenants| && Clean(first, now) && idle >= 0
    ensures var t := After(c, s, tenants, first, now, idle);
            && Refreshed(c, t, tenants, second, now, idle) == []
            && forall tenant :: Listed(tenants, tenant) && tenant != "" && Idle(c, tenant, now, idle) ==>
                 UpToDate(c, t, tenant)
  {
    var t := After(c, s, tenants, first, now, idle);
    forall tenant | Listed(tenants, tenant) ensures !Due(c, t, tenant, now, idle) {
      RunSettles(c, s, tenants, first, now, idle, tenant);
    }
    forall i | 0 <= i < |tenants| ensures !Due(c, t, Strip(tenants[i]), now, idle) {
      assert Listed(tenants, Strip(tenants[i]));
    }
    RefreshedNobody(c, t, tenants, second, now, idle);
  }

  /** A later run, with no new conversation, refreshes a listed tenant exactly if its
      latest conversation was not idle yet the first time and is not summarised since. */
  lemma LaterRunExact(
      c: Conversations, s: Summaries, tenants: seq<string>, first: seq<Refresh>, now: int, later: int, idle: int,
      tenant: string)
    requires |first| == |tenants| && Clean(first, now) && idle >= 0 && now <= later && Listed(tenants, tenant)
    ensures Due(c, After(c, s, tenants, first, now, idle), tenant, later, idle) <==>
            Due(c, s, tenant, later, idle) && !Idle(c, tenant, now, idle)
  {
    RunSettles(c, s, tenants, first, now, idle, tenant);
  }

  /** With a clock behind `now` the fixpoint is lost: the summary is saved with a time
      before the conversation it covers, and the next run saves it again. */
  lemma ClockBehindRepeats(tenant: string, at: int, idle: int, stamp: int)
    requires tenant != "" && Trimmed(tenant) && idle >= 0 && stamp < at
    ensures var c, now := map[tenant := [at]], at + idle;
            var t := After(c, map[], [tenant], [Saved(stamp)], now, idle);
            Due(c, t, tenant, now, idle)
  {
    var c := map[tenant := [at]];
    assert [at][..0] == [] && [tenant][..0] == [];
    assert Latest([at]) == Some(at);
  }

  lemma HandledSnoc(
      c: Conversations, s: Summaries, tenants: seq<string>, refreshes: seq<Refresh>, k: nat, now: int, idle: int)
    requires |refreshes| == |tenants| && k < |tenants|
    ensures var before, tenant := After(c, s, tenants[..k], refreshes[..k], now, idle), Strip(tenants[k]);
            var due := Due(c, before, tenant, now, idle);
            && After(c, s, tenants[..k + 1], refreshes[..k + 1], now, idle) ==
               (if due then Saving(before, tenant, refreshes[k]) else before)
            && Refreshed(c, s, tenants[..k + 1], refreshes[..k + 1], now, idle) ==
               Refreshed(c, s, tenants[..k], refreshes[..k], now, idle) + (if due then [tenant] else [])
  {
    assert tenants[..k + 1][..k] == tenants[..k] && refreshes[..k + 1][..k] == refreshes[..k];
  }

  class Refresher {
    var conversations: Conversations
    var summaries: Summaries
    const idle: int

    constructor (setting: int)
      ensures idle == IdleSeconds(setting) >= 30 && conversations == map[] && summaries == map[]
    {
      idle := IdleSeconds(setting);
      conversations, summaries := map[], map[];
    }

    method LatestConversation(tenant: string) returns (latest: Option<int>)
      ensures latest == LatestOf(conversations, tenant)
    {
      latest := None;
      if tenant !in conversations { return; }
      var times := conversations[tenant];
      for i := 0 to |times|
        invariant latest == Latest(times[..i])
      {
        assert times[..i + 1][..i] == times[..i];
        if latest.None? || times[i] > latest.value { latest := Some(times[i]); }
      }
      assert times[..|times|] == times;
    }

    /** A refresh that raises ends the run; the tenants before it stay refreshed. */
    method RunOnce(tenants: seq<string>, refreshes: seq<Refresh>, now: int)
      returns (refreshed: seq<string>, handled: nat)
      requires |refreshes| == |tenants|
      modifies this`summaries
      ensures handled <= |tenants|
      ensures summaries == After(conversations, old(summaries), tenants[..handled], refreshes[..handled], now, idle)
      ensures handled == |tenants| || (handled > 0 && !refreshes[handled - 1].Saved?)
      ensures (forall i :: 0 <= i < |tenants| ==> refreshes[i].Saved?) ==>
        handled == |tenants| && refreshed == Refreshed(conversations, old(summaries), tenants, refreshes, now, idle)
    {
      refreshed, handled := [], 0;
      ghost var was := summaries;
      while handled < |tenants|
        invariant handled <= |tenants|
        invariant summaries == After(conversations, was, tenants[..handled], refreshes[..handled], now, idle)
        invariant refreshed == Refreshed(conversations, was, tenants[..handled], refreshes[..handled], now, idle)
      {
        var k := handled;
        HandledSnoc(conversations, was, tenants, refreshes, k, now, idle);
        handled := handled + 1;
        var tenant := Strip(tenants[k]);
        if tenant == "" { continue; }
        var latest := LatestConversation(tenant);
        if latest.None? || now - latest.value < idle { continue; }
        if tenant in summaries && summaries[tenant] >= latest.value { continue; }
        summaries := Saving(summaries, tenant, refreshes[k]);
        if Raises(refreshes[k]) { return; }
        refreshed := refreshed + [tenant];
      }
      assert tenants[..|tenants|] == tenants && refreshes[..|tenants|] == refreshes;
    }
  }
}
