/** Which page ids a Meta token grants, read from its granular scopes: the nested loop of
    the page discovery fallback, and what its shared `seen` set does to the answer. */
module GranularScopes {
  import opened Common

  /** An entry of `granular_scopes`; anything that is not an object is skipped. */
  datatype Entry = NotAnObject | Scope(name: string, targets: seq<string>)

  /** A usable target id in reading order. */
  datatype Mention = Mention(listed: bool, id: string)

  const SHOW_LIST := "pages_show_list"
  const TARGET_SCOPES := {
    "pages_read_engagement", "pages_read_user_content", "pages_manage_posts",
    "pages_manage_engagement", "pages_manage_metadata"}

  predicate Relevant(e: Entry) {
    e.Scope? && (Strip(e.name) == SHOW_LIST || Strip(e.name) in TARGET_SCOPES)
  }

  function MentionsOf(listed: bool, targets: seq<string>): seq<Mention>
    decreases |targets|
  {
    if targets == [] then []
    else
      var last := Strip(targets[|targets| - 1]);
      MentionsOf(listed, targets[..|targets| - 1]) + if last == "" then [] else [Mention(listed, last)]
  }

  function Mentions(entries: seq<Entry>): seq<Mention>
    decreases |entries|
  {
    if entries == [] then []
    else
      var e := entries[|entries| - 1];
      Mentions(entries[..|entries| - 1]) + if Relevant(e) then MentionsOf(Strip(e.name) == SHOW_LIST, e.targets) else []
  }

  /** The scopes that are read: the listing, and five others that name pages. */
  lemma RelevantExact(e: Entry)
    ensures Relevant(e) <==> e.Scope? && Strip(e.name) in {
      "pages_show_list", "pages_read_engagement", "pages_read_user_content", "pages_manage_posts",
      "pages_manage_engagement", "pages_manage_metadata"}
  {
  }

  /** The mentions, one target and one entry more at a time: every target of a relevant
      scope that is not blank, trimmed, with whether the scope is the listing. */
  lemma MentionsSteps(listed: bool, targets: seq<string>, x: string, entries: seq<Entry>, e: Entry)
    ensures MentionsOf(listed, []) == [] && Mentions([]) == []
    ensures MentionsOf(listed, targets + [x]) ==
            MentionsOf(listed, targets) + if Strip(x) == "" then [] else [Mention(listed, Strip(x))]
    ensures Mentions(entries + [e]) ==
            if Relevant(e) then Mentions(entries) + MentionsOf(Strip(e.name) == "pages_show_list", e.targets)
            else Mentions(entries)
  {
    assert (targets + [x])[..|targets|] == targets && (entries + [e])[..|entries|] == entries;
  }

  predicate Mentioned(ms: seq<Mention>, id: string) {
    exists i :: 0 <= i < |ms| && ms[i].id == id
  }

  /** Ids whose first mention is (or is not) in `pages_show_list`. */
  function Firsts(ms: seq<Mention>, listed: bool): (r: seq<string>)
    decreases |ms|
  {
    if ms == [] then []
    else
      var init, last := ms[..|ms| - 1], ms[|ms| - 1];
      Firsts(init, listed) + if last.listed == listed && !Mentioned(init, last.id) then [last.id] else []
  }

  function PageIds(ms: seq<Mention>): seq<string> {
    if Firsts(ms, true) != [] then Firsts(ms, true) else Firsts(ms, false)
  }

  predicate FirstAt(ms: seq<Mention>, i: nat) {
    i < |ms| && forall j :: 0 <= j < i ==> ms[j].id != ms[i].id
  }

  ghost predicate FirstMention(ms: seq<Mention>, id: string, listed: bool) {
    exists i: nat :: FirstAt(ms, i) && ms[i] == Mention(listed, id)
  }

  predicate Distinct(s: seq<string>) {
    forall i, j :: 0 <= i < j < |s| ==> s[i] != s[j]
  }

  lemma FirstMentionSnoc(init: seq<Mention>, last: Mention, id: string, listed: bool)
    ensures FirstMention(init + [last], id, listed) <==>
            FirstMention(init, id, listed) || (last == Mention(listed, id) && !Mentioned(init, id))
  {
    var ms := init + [last];
    if FirstMention(init, id, listed) {
      var i: nat :| FirstAt(init, i) && init[i] == Mention(listed, id);
      assert FirstAt(ms, i) && ms[i] == Mention(listed, id);
    }
    if FirstMention(ms, id, listed) {
      var i: nat :| FirstAt(ms, i) && ms[i] == Mention(listed, id);
      assert forall j :: 0 <= j < |init| ==> init[j] == ms[j];
      if i < |init| { assert FirstAt(init, i); }
    }
    if last == Mention(listed, id) && !Mentioned(init, id) {
      assert FirstAt(ms, |init|);
    }
  }

  lemma FirstIsMentioned(ms: seq<Mention>, id: string, listed: bool)
    requires FirstMention(ms, id, listed)
    ensures Mentioned(ms, id)
  {
  }

  lemma {:induction false} FirstsExact(ms: seq<Mention>, listed: bool)
    ensures Distinct(Firsts(ms, listed))
    ensures forall id :: id in Firsts(ms, listed) <==> FirstMention(ms, id, listed)
    decreases |ms|
  {
    if ms != [] {
      var init, last := ms[..|ms| - 1], ms[|ms| - 1];
      assert ms == init + [last];
      FirstsExact(init, listed);
      if FirstMention(init, last.id, listed) { FirstIsMentioned(init, last.id, listed); }
      forall id ensures id in Firsts(ms, listed) <==> FirstMention(ms, id, listed) {
        FirstMentionSnoc(init, last, id, listed);
      }
    }
  }

  /** An id is returned exactly if its first mention is in `pages_show_list`, or if it is
      mentioned at all and no id is mentioned first there. */
  lemma PageIdsExact(ms: seq<Mention>, id: string)
    ensures Distinct(PageIds(ms))
    ensures id in PageIds(ms) <==>
      FirstMention(ms, id, true) || (FirstMention(ms, id, false) && forall other :: !FirstMention(ms, other, true))
  {
    FirstsExact(ms, true);
    FirstsExact(ms, false);
    if Firsts(ms, true) != [] { assert FirstMention(ms, Firsts(ms, true)[0], true); }
    else { assert forall other :: other !in Firsts(ms, true); }
  }

  /** Hence the order of scopes matters: a page granted by `pages_show_list` is lost when
      another scope names it earlier and `pages_show_list` adds a further page. */
  lemma ListedPageLost(a: string, b: string)
    requires a != b && a != "" && b != "" && Trimmed(a) && Trimmed(b)
    ensures PageIds([Mention(false, a), Mention(true, a), Mention(true, b)]) == [b]
    ensures PageIds([Mention(true, a), Mention(true, b), Mention(false, a)]) == [a, b]
  {
    FirstsOfThree(Mention(false, a), Mention(true, a), Mention(true, b), true);
    FirstsOfThree(Mention(true, a), Mention(true, b), Mention(false, a), true);
  }

  lemma FirstsSnoc(ms: seq<Mention>, m: Mention, listed: bool)
    ensures Firsts(ms + [m], listed) ==
            if m.listed == listed && !Mentioned(ms, m.id) then Firsts(ms, listed) + [m.id] else Firsts(ms, listed)
    ensures forall id :: Mentioned(ms + [m], id) <==> Mentioned(ms, id) || id == m.id
  {
    var all := ms + [m];
    assert all[..|all| - 1] == ms && all[|all| - 1] == m;
    forall id | Mentioned(ms, id) ensures Mentioned(all, id) {
      var i :| 0 <= i < |ms| && ms[i].id == id;
      assert all[i].id == id;
    }
  }

  lemma FirstsOfTwo(x: Mention, y: Mention, listed: bool)
    ensures Firsts([x, y], listed) ==
            (if x.listed == listed then [x.id] else []) + if y.listed == listed && y.id != x.id then [y.id] else []
    ensures forall id :: Mentioned([x, y], id) <==> id == x.id || id == y.id
  {
    assert [] + [x] == [x];
    FirstsSnoc([], x, listed);
    assert [x] + [y] == [x, y];
    FirstsSnoc([x], y, listed);
  }

  lemma FirstsOfThree(x: Mention, y: Mention, z: Mention, listed: bool)
    ensures Firsts([x, y, z], listed) ==
            (if x.listed == listed then [x.id] else []) +
            (if y.listed == listed && y.id != x.id then [y.id] else []) +
            if z.listed == listed && z.id != x.id && z.id != y.id then [z.id] else []
  {
    FirstsOfTwo(x, y, listed);
    assert [x, y] + [z] == [x, y, z];
    FirstsSnoc([x, y], z, listed);
  }

  // ── The loop ────────────────────────────────────────────────────────────

  /** What the three variables hold after the mentions `ms`. */
  ghost predicate Read(ms: seq<Mention>, listedIds: seq<string>, otherIds: seq<string>, seen: set<string>) {
    && listedIds == Firsts(ms, true) && otherIds == Firsts(ms, false)
    && forall id :: id in seen <==> Mentioned(ms, id)
  }

  lemma ReadSnoc(ms: seq<Mention>, m: Mention, listedIds: seq<string>, otherIds: seq<string>, seen: set<string>)
    requires Read(ms, listedIds, otherIds, seen)
    ensures m.id in seen ==> Read(ms + [m], listedIds, otherIds, seen)
    ensures m.id !in seen && m.listed ==> Read(ms + [m], listedIds + [m.id], otherIds, seen + {m.id})
    ensures m.id !in seen && !m.listed ==> Read(ms + [m], listedIds, otherIds + [m.id], seen + {m.id})
  {
    FirstsSnoc(ms, m, true);
    FirstsSnoc(ms, m, false);
  }

  method ReadTargets(listed: bool, targets: seq<string>, ghost before: seq<Mention>,
                     listedIds0: seq<string>, otherIds0: seq<string>, seen0: set<string>)
    returns (listedIds: seq<string>, otherIds: seq<string>, seen: set<string>)
    requires Read(before, listedIds0, otherIds0, seen0)
    ensures Read(before + MentionsOf(listed, targets), listedIds, otherIds, seen)
  {
    listedIds, otherIds, seen := listedIds0, otherIds0, seen0;
    assert before + [] == before;
    for k := 0 to |targets|
      invariant Read(before + MentionsOf(listed, targets[..k]), listedIds, otherIds, seen)
    {
      MentionsOfSnoc(before, listed, targets, k);
      var id := Strip(targets[k]);
      if id == "" { continue; }
      ReadSnoc(before + MentionsOf(listed, targets[..k]), Mention(listed, id), listedIds, otherIds, seen);
      if id in seen { continue; }
      seen := seen + {id};
      if listed { listedIds := listedIds + [id]; } else { otherIds := otherIds + [id]; }
    }
    assert targets[..|targets|] == targets;
  }

  lemma MentionsOfSnoc(before: seq<Mention>, listed: bool, targets: seq<string>, k: nat)
    requires k < |targets|
    ensures var ms := before + MentionsOf(listed, targets[..k]);
            before + MentionsOf(listed, targets[..k + 1]) ==
            if Strip(targets[k]) == "" then ms else ms + [Mention(listed, Strip(targets[k]))]
  {
    assert targets[..k + 1][..k] == targets[..k];
  }

  lemma MentionsSnoc(entries: seq<Entry>, i: nat)
    requires i < |entries|
    ensures var e := entries[i];
            var before := Mentions(entries[..i]);
            Mentions(entries[..i + 1]) ==
            if Relevant(e) then before + MentionsOf(Strip(e.name) == SHOW_LIST, e.targets) else before
  {
    assert entries[..i + 1][..i] == entries[..i];
  }

  method GranularScopePageIds(entries: seq<Entry>) returns (ids: seq<string>)
    ensures ids == PageIds(Mentions(entries))
  {
    var listedIds: seq<string>, otherIds: seq<string>, seen: set<string> := [], [], {};
    for i := 0 to |entries|
      invariant Read(Mentions(entries[..i]), listedIds, otherIds, seen)
    {
      MentionsSnoc(entries, i);
      var e := entries[i];
      if !Relevant(e) { continue; }
      listedIds, otherIds, seen :=
        ReadTargets(Strip(e.name) == SHOW_LIST, e.targets, Mentions(entries[..i]), listedIds, otherIds, seen);
    }
    assert entries[..|entries|] == entries;
    ids := if listedIds != [] then listedIds else otherIds;
  }
}
