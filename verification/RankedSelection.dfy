/** Ranking by a two-part key, cutting to the best few, and collecting distinct texts:
    retrieval plans and knowledge highlights. */
module RankedSelection {
  import opened Common

  /** An item with its sort key; a larger major, then a larger minor part ranks first. */
  datatype Ranked<T> = Ranked(item: T, major: real, minor: int)

  predicate Beats<T>(a: Ranked<T>, b: Ranked<T>) {
    a.major > b.major || (a.major == b.major && a.minor > b.minor)
  }

  predicate SameKey<T>(a: Ranked<T>, b: Ranked<T>) { a.major == b.major && a.minor == b.minor }

  predicate Sorted<T>(s: seq<Ranked<T>>) {
    forall i, j :: 0 <= i < j < |s| ==> !Beats(s[j], s[i])
  }

  /** Before the first element it beats, so after its equals. */
  function Insert<T>(x: Ranked<T>, s: seq<Ranked<T>>): seq<Ranked<T>>
    decreases |s|
  {
    if s == [] || Beats(x, s[0]) then [x] + s else [s[0]] + Insert(x, s[1..])
  }

  /** A stable sort, best first. */
  function Sort<T>(s: seq<Ranked<T>>): seq<Ranked<T>>
    decreases |s|
  {
    if s == [] then [] else Insert(s[|s| - 1], Sort(s[..|s| - 1]))
  }

  /** The elements with the key of `k`, in order. */
  function WithKey<T>(s: seq<Ranked<T>>, k: Ranked<T>): seq<Ranked<T>>
    decreases |s|
  {
    if s == [] then [] else (if SameKey(s[0], k) then [s[0]] else []) + WithKey(s[1..], k)
  }

  lemma {:induction false} InsertKeeps<T>(x: Ranked<T>, s: seq<Ranked<T>>)
    ensures multiset(Insert(x, s)) == multiset(s) + multiset{x}
    decreases |s|
  {
    if s != [] && !Beats(x, s[0]) {
      InsertKeeps(x, s[1..]);
      assert s == [s[0]] + s[1..];
    }
  }

  lemma {:induction false} InsertSorted<T>(x: Ranked<T>, s: seq<Ranked<T>>)
    requires Sorted(s)
    ensures Sorted(Insert(x, s))
    decreases |s|
  {
    if s != [] && !Beats(x, s[0]) {
      InsertSorted(x, s[1..]);
      InsertKeeps(x, s[1..]);
      var t := Insert(x, s[1..]);
      forall j | 0 <= j < |t| ensures !Beats(t[j], s[0]) {
        assert t[j] in multiset(t);
        if t[j] != x { assert t[j] in multiset(s[1..]); }
      }
    }
  }

  lemma {:induction false} SortSorted<T>(s: seq<Ranked<T>>)
    ensures Sorted(Sort(s)) && multiset(Sort(s)) == multiset(s) && |Sort(s)| == |s|
    decreases |s|
  {
    if s != [] {
      var init := s[..|s| - 1];
      SortSorted(init);
      InsertSorted(s[|s| - 1], Sort(init));
      InsertKeeps(s[|s| - 1], Sort(init));
      assert s == init + [s[|s| - 1]];
      assert |multiset(Sort(s))| == |multiset(s)|;
    }
  }

  lemma {:induction false} WithKeyConcat<T>(a: seq<Ranked<T>>, b: seq<Ranked<T>>, k: Ranked<T>)
    ensures WithKey(a + b, k) == WithKey(a, k) + WithKey(b, k)
    decreases |a|
  {
    if a == [] { assert a + b == b; } else {
      assert (a + b)[1..] == a[1..] + b;
      WithKeyConcat(a[1..], b, k);
    }
  }

  lemma {:induction false} NoneWithKey<T>(s: seq<Ranked<T>>, k: Ranked<T>)
    requires forall i :: 0 <= i < |s| ==> !SameKey(s[i], k)
    ensures WithKey(s, k) == []
    decreases |s|
  {
    if s != [] { NoneWithKey(s[1..], k); }
  }

  lemma {:induction false} InsertStable<T>(x: Ranked<T>, s: seq<Ranked<T>>, k: Ranked<T>)
    requires Sorted(s)
    ensures WithKey(Insert(x, s), k) == WithKey(s, k) + WithKey([x], k)
    decreases |s|
  {
    if s == [] {
    } else if Beats(x, s[0]) {
      WithKeyConcat([x], s, k);
      if SameKey(x, k) {
        forall i | 0 <= i < |s| ensures !SameKey(s[i], k) { if i > 0 { assert !Beats(s[i], s[0]); } }
        NoneWithKey(s, k);
      }
    } else {
      InsertStable(x, s[1..], k);
    }
  }

  /** Equal keys keep their order. */
  lemma {:induction false} SortStable<T>(s: seq<Ranked<T>>, k: Ranked<T>)
    ensures WithKey(Sort(s), k) == WithKey(s, k)
    decreases |s|
  {
    if s != [] {
      var init, last := s[..|s| - 1], s[|s| - 1];
      SortStable(init, k);
      SortSorted(init);
      InsertStable(last, Sort(init), k);
      assert s == init + [last];
      WithKeyConcat(init, [last], k);
    }
  }

  lemma {:induction false} MemberHasKey<T>(s: seq<Ranked<T>>, k: Ranked<T>)
    requires WithKey(s, k) != []
    ensures exists i :: 0 <= i < |s| && SameKey(s[i], k)
    decreases |s|
  {
    if SameKey(s[0], k) {} else {
      MemberHasKey(s[1..], k);
      var i :| 0 <= i < |s[1..]| && SameKey(s[1..][i], k);
      assert s[i + 1] == s[1..][i];
    }
  }

  lemma HeadBeatsNone<T>(a: seq<Ranked<T>>, b: seq<Ranked<T>>)
    requires Sorted(b) && a != [] && WithKey(b, a[0]) != []
    ensures b != [] && !Beats(a[0], b[0])
  {
  }

  lemma WithKeyTail<T>(s: seq<Ranked<T>>, k: Ranked<T>)
    requires s != []
    ensures WithKey(s[1..], k) == if SameKey(s[0], k) then WithKey(s, k)[1..] else WithKey(s, k)
  {
  }

  lemma HeadHasKey<T>(s: seq<Ranked<T>>)
    ensures s != [] ==> WithKey(s, s[0]) != []
  {
  }

  /** The reference definition: sorted and stable leaves exactly one result, so any
      stable sort by this key gives the same list. */
  lemma {:induction false} StableSortUnique<T>(a: seq<Ranked<T>>, b: seq<Ranked<T>>)
    requires Sorted(a) && Sorted(b) && forall k :: WithKey(a, k) == WithKey(b, k)
    ensures a == b
    decreases |a|
  {
    if a != [] {
      assert WithKey(a, a[0])[0] == a[0];
      HeadBeatsNone(a, b);
      assert WithKey(b, b[0])[0] == b[0];
      HeadBeatsNone(b, a);
      assert SameKey(a[0], b[0]);
      assert WithKey(b, a[0])[0] == b[0];
      forall k ensures WithKey(a[1..], k) == WithKey(b[1..], k) {
        assert WithKey(a, k) == WithKey(b, k);
        WithKeyTail(a, k);
        WithKeyTail(b, k);
      }
      StableSortUnique(a[1..], b[1..]);
    } else {
      HeadHasKey(b);
    }
  }

  // ── The best few ────────────────────────────────────────────────────────

  function Cut(n: nat, size: nat): (k: nat)
    ensures k <= n && k <= size && (k == n || k == size)
  {
    if n < size then n else size
  }

  /** `sorted(...)[:limit]` */
  function Top<T>(s: seq<Ranked<T>>, limit: nat): seq<Ranked<T>> {
    SortSorted(s);
    Sort(s)[..Cut(limit, |s|)]
  }

  /** What is kept is in order, what is left out never outranks it, nothing is lost. */
  lemma TopSpec<T>(s: seq<Ranked<T>>, limit: nat) returns (omitted: seq<Ranked<T>>)
    ensures Sorted(Top(s, limit)) && |Top(s, limit)| == Cut(limit, |s|)
    ensures multiset(Top(s, limit)) + multiset(omitted) == multiset(s)
    ensures forall i, j :: 0 <= i < |Top(s, limit)| && 0 <= j < |omitted| ==> !Beats(omitted[j], Top(s, limit)[i])
  {
    SortSorted(s);
    var all := Sort(s);
    omitted := all[Cut(limit, |s|)..];
    assert all == Top(s, limit) + omitted;
  }

  // ── Distinct texts ──────────────────────────────────────────────────────

  predicate Distinct(s: seq<string>) {
    forall i, j :: 0 <= i < j < |s| ==> s[i] != s[j]
  }

  /** The non-blank texts at their first occurrence. */
  function Firsts(texts: seq<string>): seq<string>
    decreases |texts|
  {
    if texts == [] then []
    else
      var init, last := texts[..|texts| - 1], texts[|texts| - 1];
      Firsts(init) + if last != "" && last !in init then [last] else []
  }

  /** `r` lists every text of `texts` but the blank one, once, by first occurrence. */
  ghost predicate FirstOccurrences(texts: seq<string>, r: seq<string>) {
    && Distinct(r)
    && (forall x :: x in r <==> x in texts && x != "")
    && (forall i, j, p: nat, q: nat :: 0 <= i < j < |r| && FirstAt(texts, p, r[i]) && TextAt(texts, q, r[j]) ==> p < q)
  }

  predicate FirstAt(texts: seq<string>, p: nat, x: string) {
    p < |texts| && texts[p] == x && forall q :: 0 <= q < p ==> texts[q] != x
  }

  predicate TextAt(texts: seq<string>, q: nat, x: string) { q < |texts| && texts[q] == x }

  lemma {:induction false} FirstsSpec(texts: seq<string>)
    ensures FirstOccurrences(texts, Firsts(texts))
    decreases |texts|
  {
    if texts != [] {
      var init, last := texts[..|texts| - 1], texts[|texts| - 1];
      FirstsSpec(init);
      var r, r0 := Firsts(texts), Firsts(init);
      assert texts == init + [last];
      forall i, j, p: nat, q: nat | 0 <= i < j < |r| && FirstAt(texts, p, r[i]) && TextAt(texts, q, r[j])
        ensures p < q
      {
        assert r[i] == r0[i] && r0[i] in init;
        var p0 :| 0 <= p0 < |init| && init[p0] == r0[i];
        assert texts[p0] == r[i] && p < |init| && FirstAt(init, p, r0[i]);
        if q < |init| && j < |r0| { assert TextAt(init, q, r0[j]); }
      }
    }
  }

  // ── Query terms ─────────────────────────────────────────────────────────

  const MAX_TERMS := 12

  function LongOnes(values: seq<string>): seq<string>
    decreases |values|
  {
    if values == [] then []
    else LongOnes(values[..|values| - 1]) + if |values[|values| - 1]| >= 2 then [values[|values| - 1]] else []
  }

  /** `values` are the lower-cased tokens, `whole` the lower-cased trimmed query. */
  function QueryTerms(values: seq<string>, whole: string): seq<string> {
    if whole == "" then []
    else
      var terms := Firsts(LongOnes(values) + [whole]);
      terms[..Cut(MAX_TERMS, |terms|)]
  }

  /** The terms are the first twelve distinct texts among the long tokens and the whole
      query, in that order; all of them if there are no more. */
  lemma QueryTermsSpec(values: seq<string>, whole: string)
    ensures Distinct(QueryTerms(values, whole)) && |QueryTerms(values, whole)| <= 12
    ensures whole == "" ==> QueryTerms(values, whole) == []
    ensures forall x :: x in LongOnes(values) <==> x in values && |x| >= 2
    ensures whole != "" ==>
      var texts := LongOnes(values) + [whole];
      && FirstOccurrences(texts, Firsts(texts))
      && QueryTerms(values, whole) <= Firsts(texts)
      && (|QueryTerms(values, whole)| < 12 ==> QueryTerms(values, whole) == Firsts(texts))
  {
    FirstsSpec(LongOnes(values) + [whole]);
    LongOnesExact(values);
  }

  lemma LongOnesSnoc(values: seq<string>, i: nat)
    requires i < |values|
    ensures LongOnes(values[..i + 1]) ==
            if |values[i]| >= 2 then LongOnes(values[..i]) + [values[i]] else LongOnes(values[..i])
  {
    assert values[..i + 1][..i] == values[..i];
  }

  lemma FirstsAdd(texts: seq<string>, x: string)
    ensures Firsts(texts + [x]) == if x != "" && x !in texts then Firsts(texts) + [x] else Firsts(texts)
  {
  }

  lemma {:induction false} LongOnesExact(values: seq<string>)
    ensures forall x :: x in LongOnes(values) <==> x in values && |x| >= 2
    decreases |values|
  {
    if values != [] {
      LongOnesExact(values[..|values| - 1]);
      assert values == values[..|values| - 1] + [values[|values| - 1]];
    }
  }

  method CollectQueryTerms(values: seq<string>, whole: string) returns (terms: seq<string>)
    ensures terms == QueryTerms(values, whole)
  {
    if whole == "" { return []; }
    var seen: set<string> := {};
    terms := [];
    for i := 0 to |values|
      invariant terms == Firsts(LongOnes(values[..i]))
      invariant forall x :: x in seen <==> x in LongOnes(values[..i])
    {
      LongOnesSnoc(values, i);
      var value := values[i];
      if |value| < 2 { continue; }
      FirstsAdd(LongOnes(values[..i]), value);
      if value in seen { continue; }
      seen := seen + {value};
      terms := terms + [value];
    }
    assert values[..|values|] == values;
    FirstsAdd(LongOnes(values), whole);
    if whole !in seen { terms := terms + [whole]; }
    terms := terms[..Cut(MAX_TERMS, |terms|)];
  }

  // ── Knowledge highlights ────────────────────────────────────────────────

  datatype Entry = Entry(priority: int, createdAt: int, content: string)

  /** Sort key (priority, newest): a smaller priority number ranks first. */
  function Rank(e: Entry): Ranked<Entry> { Ranked(e, -(e.priority as real), e.createdAt) }

  function RankAll(entries: seq<Entry>): (r: seq<Ranked<Entry>>)
    ensures |r| == |entries| && forall i :: 0 <= i < |r| ==> r[i] == Rank(entries[i])
  {
    seq(|entries|, i requires 0 <= i < |entries| => Rank(entries[i]))
  }

  function Contents(s: seq<Ranked<Entry>>): (r: seq<string>)
    ensures |r| == |s| && forall i :: 0 <= i < |r| ==> r[i] == Strip(s[i].item.content)
  {
    seq(|s|, i requires 0 <= i < |s| => Strip(s[i].item.content))
  }

  /** The loop stops after an append once the limit is reached, so at least one. */
  function Highlights(entries: seq<Entry>, limit: int): seq<string> {
    var all := Firsts(Contents(Sort(RankAll(entries))));
    all[..Cut(Most(limit), |all|)]
  }

  function Most(limit: int): (n: nat)
    ensures limit >= 1 ==> n == limit
    ensures limit < 1 ==> n == 1
  {
 if limit > 1 then limit else 1
  }

  method SelectKnowledgeHighlights(entries: seq<Entry>, limit: int) returns (highlights: seq<string>)
    ensures highlights == Highlights(entries, limit)
  {
    var ordered := Sort(RankAll(entries));
    highlights := CollectDistinct(Contents(ordered), limit);
  }

  /** The loop over the stripped contents. */
  method CollectDistinct(texts: seq<string>, limit: int) returns (kept: seq<string>)
    ensures kept == Firsts(texts)[..Cut(Most(limit), |Firsts(texts)|)]
  {
    var seen: set<string> := {};
    kept := [];
    for i := 0 to |texts|
      invariant kept == Firsts(texts[..i]) && |kept| < Most(limit)
      invariant SeenOk(texts[..i], seen)
    {
      var content := texts[i];
      PrefixStep(texts, i, seen);
      if content == "" || content in seen { continue; }
      seen := seen + {content};
      kept := kept + [content];
      if |kept| >= limit {
        FirstsPrefix(texts, i + 1);
        return;
      }
    }
    assert texts[..|texts|] == texts;
  }

  predicate SeenOk(texts: seq<string>, seen: set<string>) {
    seen == set x | x in texts && x != ""
  }

  lemma PrefixStep(texts: seq<string>, i: nat, seen: set<string>)
    requires i < |texts| && SeenOk(texts[..i], seen)
    ensures var x := texts[i];
            var known := x == "" || x in seen;
            && Firsts(texts[..i + 1]) == (if known then Firsts(texts[..i]) else Firsts(texts[..i]) + [x])
            && SeenOk(texts[..i + 1], if known then seen else seen + {x})
  {
    assert texts[..i + 1] == texts[..i] + [texts[i]];
    FirstsAdd(texts[..i], texts[i]);
  }

  lemma {:induction false} FirstsPrefix(texts: seq<string>, n: nat)
    requires n <= |texts|
    ensures Firsts(texts[..n]) <= Firsts(texts)
    decreases |texts| - n
  {
    if n < |texts| {
      FirstsPrefix(texts, n + 1);
      assert texts[..n + 1][..n] == texts[..n];
    } else {
      assert texts[..n] == texts;
    }
  }

  /** For a positive limit: the first `limit` distinct non-blank contents in (priority,
      newest) order. For any other limit one highlight is returned if there is one. */
  lemma HighlightsSpec(entries: seq<Entry>, limit: int)
    ensures var ordered := Sort(RankAll(entries));
            var all := Firsts(Contents(ordered));
            && Sorted(ordered) && multiset(ordered) == multiset(RankAll(entries))
            && FirstOccurrences(Contents(ordered), all)
            && Highlights(entries, limit) <= all
            && (limit > 0 ==> |Highlights(entries, limit)| == Cut(limit, |all|))
            && (limit <= 0 ==> |Highlights(entries, limit)| == Cut(1, |all|))
  {
    SortSorted(RankAll(entries));
    FirstsSpec(Contents(Sort(RankAll(entries))));
  }

  /** A highlight ranks by its best entry: no entry with an omitted text outranks the
      best entry of a text that was kept. */
  lemma OmittedNeverOutranks(entries: seq<Entry>, limit: int, p: nat, q: nat)
    requires var ordered := Sort(RankAll(entries)); p < |ordered| && q < |ordered|
    requires var ordered := Sort(RankAll(entries));
             var texts := Contents(ordered);
             && texts[p] in Highlights(entries, limit) && FirstAt(texts, p, texts[p])
             && texts[q] != "" && texts[q] !in Highlights(entries, limit)
    ensures var ordered := Sort(RankAll(entries)); p < q && !Beats(ordered[q], ordered[p])
  {
    var ordered := Sort(RankAll(entries));
    var texts := Contents(ordered);
    var all, kept := Firsts(texts), Highlights(entries, limit);
    HighlightsSpec(entries, limit);
    KeptBeforeOmitted(texts, all, kept, p, q);
  }

  lemma KeptBeforeOmitted(texts: seq<string>, all: seq<string>, kept: seq<string>, p: nat, q: nat)
    requires FirstOccurrences(texts, all) && kept <= all && p < |texts| && q < |texts|
    requires texts[p] in kept && FirstAt(texts, p, texts[p]) && texts[q] != "" && texts[q] !in kept
    ensures p < q
  {
    var i :| 0 <= i < |kept| && kept[i] == texts[p];
    assert texts[q] in all;
    var j :| 0 <= j < |all| && all[j] == texts[q];
    assert i < j && FirstAt(texts, p, all[i]) && TextAt(texts, q, all[j]);
  }

  // ── Match scores ────────────────────────────────────────────────────────

  predicate OccursAt(text: string, part: string, i: nat) {
    i + |part| <= |text| && text[i..i + |part|] == part
  }

  predicate Contains(text: string, part: string) {
    exists i | 0 <= i <= |text| :: OccursAt(text, part, i)
  }

  function TermPoints(term: string, candidate: string): real {
    if term != "" && Contains(candidate, term) then (if |term| >= 4 then 1.5 else 1.0) else 0.0
  }

  function TermsPoints(terms: seq<string>, candidate: string): (r: real)
    ensures r >= 0.0
    decreases |terms|
  {
    if terms == [] then 0.0
    else TermsPoints(terms[..|terms| - 1], candidate) + TermPoints(terms[|terms| - 1], candidate)
  }

  /** One of the first four characters of the query occurs in the candidate. */
  predicate SharesLeadingChar(query: string, candidate: string) {
    exists i :: 0 <= i < Cut(4, |query|) && query[i] in candidate
  }

  /** Both texts trimmed and lower-cased. */
  function MatchScore(query: string, candidate: string, terms: seq<string>): real {
    if candidate == "" then 0.0
    else
      var whole := if query != "" && Contains(candidate, query) then 4.0 else 0.0;
      var score := whole + TermsPoints(terms, candidate);
      if score == 0.0 && SharesLeadingChar(query, candidate) then 0.2 else score
  }

  lemma {:induction false} TermsPointsExact(terms: seq<string>, candidate: string)
    ensures TermsPoints(terms, candidate) > 0.0 <==>
            exists i :: 0 <= i < |terms| && terms[i] != "" && Contains(candidate, terms[i])
    ensures TermsPoints(terms, candidate) > 0.0 ==> TermsPoints(terms, candidate) >= 1.0
    decreases |terms|
  {
    if terms != [] {
      var init := terms[..|terms| - 1];
      TermsPointsExact(init, candidate);
      assert forall i :: 0 <= i < |init| ==> init[i] == terms[i];
    }
  }

  /** A text contains a part exactly if it can be cut around it. */
  lemma CutAroundContains(before: string, part: string, after: string)
    ensures Contains(before + part + after, part)
  {
    assert OccursAt(before + part + after, part, |before|);
  }

  lemma ContainsCutsAround(text: string, part: string) returns (before: string, after: string)
    requires Contains(text, part)
    ensures text == before + part + after
  {
    var i :| 0 <= i <= |text| && OccursAt(text, part, i);
    before, after := text[..i], text[i + |part|..];
  }

  /** Term number `i` occurs and has fewer than four characters, or has at least four. */
  predicate Counts(terms: seq<string>, candidate: string, i: nat, long: bool) {
    i < |terms| && terms[i] != "" && Contains(candidate, terms[i]) && (long <==> |terms[i]| >= 4)
  }

  function Counted(terms: seq<string>, candidate: string, long: bool): set<nat> {
    set i: nat | i < |terms| && Counts(terms, candidate, i, long)
  }

  lemma CountedSnoc(terms: seq<string>, candidate: string, long: bool)
    requires terms != []
    ensures var k := |terms| - 1;
            && k !in Counted(terms[..k], candidate, long)
            && Counted(terms, candidate, long) ==
               Counted(terms[..k], candidate, long) + if Counts(terms, candidate, k, long) then {k} else {}
  {
    var k := |terms| - 1;
    assert forall i: nat :: i < k ==> (Counts(terms[..k], candidate, i, long) <==> Counts(terms, candidate, i, long));
  }

  /** Each term that occurs counts one point, one and a half from four characters on. */
  lemma {:induction false} TermsPointsCount(terms: seq<string>, candidate: string)
    ensures TermsPoints(terms, candidate) ==
            |Counted(terms, candidate, false)| as real + 1.5 * |Counted(terms, candidate, true)| as real
    decreases |terms|
  {
    if terms != [] {
      TermsPointsCount(terms[..|terms| - 1], candidate);
      CountedSnoc(terms, candidate, false);
      CountedSnoc(terms, candidate, true);
    }
  }

  /** The whole query counts four points more; a candidate with no point at all gets a
      fifth of one for a leading character. */
  lemma MatchScoreValue(query: string, candidate: string, terms: seq<string>)
    requires candidate != ""
    ensures var points := TermsPoints(terms, candidate);
            && (query != "" && Contains(candidate, query) ==> MatchScore(query, candidate, terms) == points + 4.0)
            && (!(query != "" && Contains(candidate, query)) && points > 0.0 ==>
                  MatchScore(query, candidate, terms) == points)
            && (!(query != "" && Contains(candidate, query)) && points == 0.0 ==>
                  MatchScore(query, candidate, terms) ==
                  if exists i :: 0 <= i < |query| && i < 4 && query[i] in candidate then 0.2 else 0.0)
  {
  }

  /** What is added to the score of a conversation and of a knowledge row. */
  lemma PlanScores(c: Conversation, k: Knowledge, query: string, terms: seq<string>)
    ensures ConversationScore(c, query, terms) == MatchScore(query, c.text, terms) + 0.2
    ensures KnowledgeScore(k, query, terms) ==
            MatchScore(query, k.content, terms) + (if k.active then 0.5 else 0.0) +
            if k.confidence == 0.0 then 0.2 else k.confidence / 5.0
  {
  }

  /** The order of a plan: by score to three decimals, then the newer one first. */
  lemma PlanOrder(a: Knowledge, b: Knowledge, c: Conversation, d: Conversation, query: string, terms: seq<string>)
    ensures Beats(RankEntry(a, query, terms), RankEntry(b, query, terms)) <==>
            var x, y := Round3(KnowledgeScore(a, query, terms)), Round3(KnowledgeScore(b, query, terms));
            x > y || (x == y && a.createdAt > b.createdAt)
    ensures Beats(RankConversation(c, query, terms), RankConversation(d, query, terms)) <==>
            var x, y := Round3(ConversationScore(c, query, terms)), Round3(ConversationScore(d, query, terms));
            x > y || (x == y && c.createdAt > d.createdAt)
    ensures RankEntry(a, query, terms).item == a && RankConversation(c, query, terms).item == c
  {
  }

  /** Highlights: a smaller priority number first, then the newer entry. */
  lemma RankOrder(a: Entry, b: Entry)
    ensures Beats(Rank(a), Rank(b)) <==>
            a.priority < b.priority || (a.priority == b.priority && a.createdAt > b.createdAt)
    ensures Rank(a).item == a
  {
  }

  /** A candidate scores exactly if it shares a term, the query or a leading character;
      a shared character alone ranks below any shared term. */
  lemma MatchScoreExact(query: string, candidate: string, terms: seq<string>)
    ensures MatchScore(query, candidate, terms) > 0.0 <==>
      candidate != "" && (
        || (query != "" && Contains(candidate, query))
        || (exists i :: 0 <= i < |terms| && terms[i] != "" && Contains(candidate, terms[i]))
        || (exists i :: 0 <= i < |query| && i < 4 && query[i] in candidate))
    ensures 0.0 < MatchScore(query, candidate, terms) < 1.0 ==> MatchScore(query, candidate, terms) == 0.2
  {
    TermsPointsExact(terms, candidate);
  }

  // ── Retrieval plans ─────────────────────────────────────────────────────

  datatype Conversation = Conversation(text: string, createdAt: int)

  datatype Knowledge = Knowledge(content: string, active: bool, confidence: real, createdAt: int)

  /** The nearest whole number, halves to the even one. */
  function Nearest(x: real): (n: int)
    ensures n as real - 0.5 <= x <= n as real + 0.5
    ensures x == n as real - 0.5 || x == n as real + 0.5 ==> n % 2 == 0
  {
    var n := x.Floor;
    var rest := x - n as real;
    if rest < 0.5 || (rest == 0.5 && n % 2 == 0) then n else n + 1
  }

  /** Three decimals. */
  function Round3(x: real): (r: real)
    ensures x - 0.0005 <= r <= x + 0.0005
    ensures r * 1000.0 == Nearest(x * 1000.0) as real
  {
    Nearest(x * 1000.0) as real / 1000.0
  }

  function ConversationScore(c: Conversation, query: string, terms: seq<string>): real {
    MatchScore(query, c.text, terms) + 0.2
  }

  /** A confidence of zero counts as one. */
  function KnowledgeScore(k: Knowledge, query: string, terms: seq<string>): real {
    var confidence := if k.confidence == 0.0 then 1.0 else k.confidence;
    MatchScore(query, k.content, terms) + (if k.active then 0.5 else 0.0) + confidence * 0.2
  }

  function RankConversation(c: Conversation, query: string, terms: seq<string>): Ranked<Conversation> {
    Ranked(c, Round3(ConversationScore(c, query, terms)), c.createdAt)
  }

  function RankEntry(k: Knowledge, query: string, terms: seq<string>): Ranked<Knowledge> {
    Ranked(k, Round3(KnowledgeScore(k, query, terms)), k.createdAt)
  }

  function RankConversations(rows: seq<Conversation>, query: string, terms: seq<string>): (r: seq<Ranked<Conversation>>)
    ensures |r| == |rows|
    ensures forall i :: 0 <= i < |r| ==> r[i] == RankConversation(rows[i], query, terms)
  {
    seq(|rows|, i requires 0 <= i < |rows| => RankConversation(rows[i], query, terms))
  }

  function RankKnowledge(rows: seq<Knowledge>, query: string, terms: seq<string>): (r: seq<Ranked<Knowledge>>)
    ensures |r| == |rows|
    ensures forall i :: 0 <= i < |r| ==> r[i] == RankEntry(rows[i], query, terms)
  {
    seq(|rows|, i requires 0 <= i < |rows| => RankEntry(rows[i], query, terms))
  }

  lemma KeysFollow<T>(rows: seq<Ranked<T>>, some: multiset<Ranked<T>>, x: Ranked<T>)
    requires some <= multiset(rows) && x in some
    ensures exists i :: 0 <= i < |rows| && rows[i] == x
  {
  }

  /** The plan keeps eight knowledge rows: in (rounded score, newest) order, and no row
      left out has a score more than the rounding above one that was kept. */
  lemma KnowledgePlan(rows: seq<Knowledge>, query: string, terms: seq<string>) returns (omitted: seq<Ranked<Knowledge>>)
    ensures var ranked := RankKnowledge(rows, query, terms);
            var kept := Top(ranked, 8);
            && Sorted(kept) && |kept| == Cut(8, |rows|) && multiset(kept) + multiset(omitted) == multiset(ranked)
            && forall i, j :: 0 <= i < |kept| && 0 <= j < |omitted| ==>
                 && !Beats(omitted[j], kept[i])
                 && KnowledgeScore(omitted[j].item, query, terms) <= KnowledgeScore(kept[i].item, query, terms) + 0.001
  {
    var ranked := RankKnowledge(rows, query, terms);
    omitted := TopSpec(ranked, 8);
    var kept := Top(ranked, 8);
    forall x | x in multiset(kept) || x in multiset(omitted)
      ensures x.major == Round3(KnowledgeScore(x.item, query, terms))
    {
      KeysFollow(ranked, if x in multiset(kept) then multiset(kept) else multiset(omitted), x);
    }
    forall i, j | 0 <= i < |kept| && 0 <= j < |omitted|
      ensures KnowledgeScore(omitted[j].item, query, terms) <= KnowledgeScore(kept[i].item, query, terms) + 0.001
    {
      assert kept[i] in multiset(kept) && omitted[j] in multiset(omitted);
      assert !Beats(omitted[j], kept[i]);
    }
  }

  /** The same for the six conversations of the plan. */
  lemma ConversationPlan(rows: seq<Conversation>, query: string, terms: seq<string>)
    returns (omitted: seq<Ranked<Conversation>>)
    ensures var ranked := RankConversations(rows, query, terms);
            var kept := Top(ranked, 6);
            && Sorted(kept) && |kept| == Cut(6, |rows|) && multiset(kept) + multiset(omitted) == multiset(ranked)
            && forall i, j :: 0 <= i < |kept| && 0 <= j < |omitted| ==>
                 && !Beats(omitted[j], kept[i])
                 && ConversationScore(omitted[j].item, query, terms) <=
                    ConversationScore(kept[i].item, query, terms) + 0.001
  {
    var ranked := RankConversations(rows, query, terms);
    omitted := TopSpec(ranked, 6);
    var kept := Top(ranked, 6);
    forall x | x in multiset(kept) || x in multiset(omitted)
      ensures x.major == Round3(ConversationScore(x.item, query, terms))
    {
      KeysFollow(ranked, if x in multiset(kept) then multiset(kept) else multiset(omitted), x);
    }
    forall i, j | 0 <= i < |kept| && 0 <= j < |omitted|
      ensures ConversationScore(omitted[j].item, query, terms) <= ConversationScore(kept[i].item, query, terms) + 0.001
    {
      assert kept[i] in multiset(kept) && omitted[j] in multiset(omitted);
      assert !Beats(omitted[j], kept[i]);
    }
  }
}
