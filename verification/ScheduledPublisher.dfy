/** One pass of the scheduled publisher, and how it reads the answer of the publish
    endpoint: results nested by platform, sometimes twice. */
module ScheduledPublisher {
  import opened Common

  /** `status`, and `error` or else `reason`. */
  datatype Report = Report(status: string, message: string)

  datatype PlatformResult = PlatformResult(own: Report, nested: seq<Report>)

  /** The JSON answer. `results` is the object under that key, if there is one; `values`
      are the top-level values that are objects. */
  datatype Body = NotAnObject | Object(own: Report, results: Option<seq<PlatformResult>>, values: seq<PlatformResult>)

  /** What happens to one item: its draft does not parse, the request fails, or an answer. */
  datatype Response = DraftUnreadable | HttpError | Answered(body: Body)

  datatype Status = Pending | Publishing | Published | Failed

  datatype Row = Row(googlePost: bool, status: Status, posts: nat)

  const DEFAULT_MESSAGE := "scheduled publish did not complete"

  // ── Reading the answer ──────────────────────────────────────────────────

  function WithStatus(rs: seq<Report>): seq<Report>
    decreases |rs|
  {
    if rs == [] then []
    else WithStatus(rs[..|rs| - 1]) + if rs[|rs| - 1].status != "" then [rs[|rs| - 1]] else []
  }

  /** All reports that carry a status, in reading order. */
  function Statuses(ps: seq<PlatformResult>): seq<Report>
    decreases |ps|
  {
    if ps == [] then []
    else Statuses(ps[..|ps| - 1]) + WithStatus([ps[|ps| - 1].own]) + WithStatus(ps[|ps| - 1].nested)
  }

  predicate SaysPublished(rs: seq<Report>) {
    exists i :: 0 <= i < |rs| && rs[i].status == "published"
  }

  function Messages(rs: seq<Report>, failedOnly: bool): seq<string>
    decreases |rs|
  {
    if rs == [] then []
    else
      var last := rs[|rs| - 1];
      Messages(rs[..|rs| - 1], failedOnly) +
      if last.message != "" && (failedOnly ==> last.status == "failed") then [last.message] else []
  }

  function Join(ms: seq<string>): string
    decreases |ms|
  {
    if ms == [] then "" else if |ms| == 1 then ms[0] else Join(ms[..|ms| - 1]) + "; " + ms[|ms| - 1]
  }

  function Platforms(b: Body): seq<PlatformResult>
    requires b.Object?
  {
    if b.results.Some? then b.results.value else b.values
  }

  /** Published if the post, or any platform at either depth, says so. */
  predicate IsPublished(googlePost: bool, b: Body)
    requires b.Object?
  {
    if googlePost then b.own.status == "published" else SaysPublished(Statuses(Platforms(b)))
  }

  predicate AnyReport(p: PlatformResult) {
    p.own.status == "published" || exists j :: 0 <= j < |p.nested| && p.nested[j].status == "published"
  }

  lemma {:induction false} WithStatusPublished(rs: seq<Report>)
    ensures SaysPublished(WithStatus(rs)) <==> SaysPublished(rs)
    decreases |rs|
  {
    if rs != [] {
      var init, last := rs[..|rs| - 1], rs[|rs| - 1];
      WithStatusPublished(init);
      SaysConcat(WithStatus(init), if last.status != "" then [last] else []);
      SaysConcat(init, [last]);
      assert init + [last] == rs;
      assert SaysPublished([last]) <==> last.status == "published" by { assert [last][0] == last; }
    }
  }

  lemma SaysConcat(a: seq<Report>, b: seq<Report>)
    ensures SaysPublished(a + b) <==> SaysPublished(a) || SaysPublished(b)
  {
    if SaysPublished(a) {
      var i :| 0 <= i < |a| && a[i].status == "published";
      assert (a + b)[i] == a[i];
    }
    if SaysPublished(b) {
      var i :| 0 <= i < |b| && b[i].status == "published";
      assert (a + b)[|a| + i] == b[i];
    }
  }

  /** Flattening loses no platform: a bundle counts as published exactly if some
      platform says so itself or in one of its parts. */
  lemma {:induction false} BundlePublishedExact(ps: seq<PlatformResult>)
    ensures SaysPublished(Statuses(ps)) <==> exists i :: 0 <= i < |ps| && AnyReport(ps[i])
    decreases |ps|
  {
    if ps != [] {
      var init, last := ps[..|ps| - 1], ps[|ps| - 1];
      BundlePublishedExact(init);
      SaysConcat(Statuses(init) + WithStatus([last.own]), WithStatus(last.nested));
      SaysConcat(Statuses(init), WithStatus([last.own]));
      WithStatusPublished([last.own]);
      WithStatusPublished(last.nested);
      assert SaysPublished([last.own]) <==> last.own.status == "published" by { assert [last.own][0] == last.own; }
      forall i | 0 <= i < |init| ensures init[i] == ps[i] {}
    }
  }

  /** Which reports count, one report more at a time: those with a status, first what a
      platform says itself, then its parts. */
  lemma StatusesSnoc(ps: seq<PlatformResult>, p: PlatformResult, rs: seq<Report>, r: Report)
    ensures Statuses([]) == [] && WithStatus([]) == []
    ensures Statuses(ps + [p]) == Statuses(ps) + (if p.own.status != "" then [p.own] else []) + WithStatus(p.nested)
    ensures WithStatus(rs + [r]) == if r.status != "" then WithStatus(rs) + [r] else WithStatus(rs)
  {
    assert (ps + [p])[..|ps|] == ps && (rs + [r])[..|rs|] == rs;
    assert [p.own][..0] == [];
  }

  /** Which messages are told, one report more at a time: all that there are, of failed
      reports only if something was published. */
  lemma MessagesSnoc(rs: seq<Report>, r: Report, published: bool)
    ensures Messages([], published) == []
    ensures Messages(rs + [r], published) ==
            if r.message != "" && (!published || r.status == "failed") then Messages(rs, published) + [r.message]
            else Messages(rs, published)
  {
    assert (rs + [r])[..|rs|] == rs;
  }

  lemma JoinSnoc(ms: seq<string>, m: string)
    ensures Join([]) == "" && Join([m]) == m
    ensures ms != [] ==> Join(ms + [m]) == Join(ms) + "; " + m
  {
    assert (ms + [m])[..|ms|] == ms;
  }

  method CollectStatuses(platforms: seq<PlatformResult>) returns (statuses: seq<Report>)
    ensures statuses == Statuses(platforms)
  {
    statuses := [];
    for i := 0 to |platforms|
      invariant statuses == Statuses(platforms[..i])
    {
      var value := platforms[i];
      assert platforms[..i + 1][..i] == platforms[..i];
      ghost var before := statuses;
      if value.own.status != "" { statuses := statuses + [value.own]; }
      assert statuses == before + WithStatus([value.own]) by { OneStatus(value.own); }
      ghost var start := statuses;
      assert start + [] == start;
      for j := 0 to |value.nested|
        invariant statuses == start + WithStatus(value.nested[..j])
      {
        assert value.nested[..j + 1][..j] == value.nested[..j];
        if value.nested[j].status != "" { statuses := statuses + [value.nested[j]]; }
      }
      assert value.nested[..|value.nested|] == value.nested;
    }
    assert platforms[..|platforms|] == platforms;
  }

  method InterpretResult(googlePost: bool, b: Body) returns (published: bool, message: Option<string>)
    requires b.Object?
    ensures published <==> IsPublished(googlePost, b)
    ensures googlePost && published ==> message == None
    ensures googlePost && !published ==> message == Some(if b.own.message != "" then b.own.message else DEFAULT_MESSAGE)
    ensures !googlePost ==>
      var text := Join(Messages(Statuses(Platforms(b)), published));
      message == if text != "" then Some(text) else if published then None else Some(DEFAULT_MESSAGE)
  {
    if googlePost {
      if b.own.status == "published" { return true, None; }
      return false, Some(if b.own.message != "" then b.own.message else DEFAULT_MESSAGE);
    }
    var statuses := CollectStatuses(Platforms(b));
    published := false;
    for i := 0 to |statuses|
      invariant published <==> exists k :: 0 <= k < i && statuses[k].status == "published"
    {
      if statuses[i].status == "published" { published := true; }
    }
    var text := Join(Messages(statuses, published));
    message := if text != "" then Some(text) else if published then None else Some(DEFAULT_MESSAGE);
  }

  lemma OneStatus(r: Report)
    ensures WithStatus([r]) == if r.status != "" then [r] else []
  {
  }

  // ── The pass ────────────────────────────────────────────────────────────

  predicate Crashes(r: Response) { r.Answered? && r.body.NotAnObject? }

  /** One item: marked, posted at most once, and settled unless the answer crashes. */
  function Settle(x: Row, r: Response): Row {
    match r
    case DraftUnreadable => x.(status := Failed)
    case HttpError => x.(status := Failed, posts := x.posts + 1)
    case Answered(body) =>
      if body.NotAnObject? then x.(status := Publishing, posts := x.posts + 1)
      else x.(status := if IsPublished(x.googlePost, body) then Published else Failed, posts := x.posts + 1)
  }

  /** What the answer makes of an item: published exactly if it is an object that says so,
      failed otherwise, but for an answer that is no object, which leaves it publishing.
      Every item whose draft could be read was posted once. */
  lemma SettleExact(x: Row, r: Response)
    ensures var y := Settle(x, r);
            && y.googlePost == x.googlePost && y.posts == x.posts + (if r.DraftUnreadable? then 0 else 1)
            && (r.DraftUnreadable? || r.HttpError? ==> y.status == Failed)
            && (r.Answered? && r.body.NotAnObject? ==> y.status == Publishing)
            && (r.Answered? && r.body.Object? ==>
                  y.status == if SaysItIsPublished(x.googlePost, r.body) then Published else Failed)
  {
    if r.Answered? && r.body.Object? { BundlePublishedExact(Platforms(r.body)); }
  }

  /** A Google post by its own status; anything else by some platform, or a part of one,
      among the results, or among the values if there are no results. */
  predicate SaysItIsPublished(googlePost: bool, b: Body)
    requires b.Object?
  {
    if googlePost then b.own.status == "published"
    else if b.results.Some? then exists i :: 0 <= i < |b.results.value| && AnyReport(b.results.value[i])
    else exists i :: 0 <= i < |b.values| && AnyReport(b.values[i])
  }

  function SettleAll(rows: map<nat, Row>, due: seq<nat>, responses: map<nat, Response>): map<nat, Row> {
    map k | k in rows :: if k in due && k in responses then Settle(rows[k], responses[k]) else rows[k]
  }

  class Publisher {
    var rows: map<nat, Row>

    constructor ()
      ensures rows == map[]
    {
      rows := map[];
    }

    method UpdateStatus(k: nat, status: Status)
      requires k in rows
      modifies this
      ensures rows == old(rows)[k := old(rows)[k].(status := status)]
    {
      rows := rows[k := rows[k].(status := status)];
    }

    /** Returns whether the handler survived. */
    method PublishOne(k: nat, response: Response) returns (survived: bool)
      requires k in rows
      modifies this
      ensures rows == old(rows)[k := Settle(old(rows)[k], response)]
      ensures survived <==> !Crashes(response)
    {
      UpdateStatus(k, Publishing);
      if response.DraftUnreadable? {
        UpdateStatus(k, Failed);
        return true;
      }
      rows := rows[k := rows[k].(posts := rows[k].posts + 1)];
      if response.HttpError? {
        UpdateStatus(k, Failed);
        return true;
      }
      if response.body.NotAnObject? { return false; }
      var published, message := InterpretResult(rows[k].googlePost, response.body);
      UpdateStatus(k, if published then Published else Failed);
      return true;
    }

    /** The pass over what it listed as due. A crash leaves its own item publishing and
        everything after it untouched. */
    method DispatchScheduledPublishes(due: seq<nat>, responses: map<nat, Response>) returns (begun: nat)
      requires forall i :: 0 <= i < |due| ==> due[i] in rows && due[i] in responses && rows[due[i]].status == Pending
      requires forall i, j :: 0 <= i < j < |due| ==> due[i] != due[j]
      modifies this
      ensures begun <= |due|
      ensures rows == SettleAll(old(rows), due[..begun], responses)
      ensures forall i :: 0 <= i < begun - 1 ==> !Crashes(responses[due[i]])
      ensures begun < |due| ==> begun > 0 && Crashes(responses[due[begun - 1]])
      ensures forall i :: 0 <= i < |due| ==>
        rows[due[i]].posts - old(rows)[due[i]].posts ==
        (if i < begun && !responses[due[i]].DraftUnreadable? then 1 else 0)
    {
      begun := 0;
      ghost var was := rows;
      while begun < |due|
        invariant begun <= |due|
        invariant rows == SettleAll(was, due[..begun], responses)
        invariant forall i :: 0 <= i < begun ==> !Crashes(responses[due[i]])
      {
        var k := due[begun];
        SettleSnoc(was, due, begun, responses);
        var survived := PublishOne(k, responses[k]);
        begun := begun + 1;
        if !survived { break; }
      }
      PostsOnce(was, due, begun, responses);
    }
  }

  lemma SettleSnoc(rows: map<nat, Row>, due: seq<nat>, i: nat, responses: map<nat, Response>)
    requires i < |due| && due[i] in rows && due[i] in responses && due[i] !in due[..i]
    ensures var before, k := SettleAll(rows, due[..i], responses), due[i];
            && before[k] == rows[k]
            && SettleAll(rows, due[..i + 1], responses) == before[k := Settle(rows[k], responses[k])]
  {
  }

  lemma PostsOnce(rows: map<nat, Row>, due: seq<nat>, begun: nat, responses: map<nat, Response>)
    requires begun <= |due|
    requires forall i :: 0 <= i < |due| ==> due[i] in rows && due[i] in responses
    requires forall i, j :: 0 <= i < j < |due| ==> due[i] != due[j]
    ensures forall i :: 0 <= i < |due| ==>
      SettleAll(rows, due[..begun], responses)[due[i]].posts - rows[due[i]].posts ==
      (if i < begun && !responses[due[i]].DraftUnreadable? then 1 else 0)
  {
  }
}
