/** Meta webhook items: what live ingest reads from a payload, the event row it
    stores, and what an administrator's replay reads back from that row. */
module MetaEvents {
  import opened Common

  // ── JSON as Python shows it ─────────────────────────────────────────────

  /** A decoded JSON value. A leaf carries its `str()`, its `repr()` and its truth; the
      fields of an object keep their order. */
  datatype Json = Leaf(text: string, repr: string, truthy: bool) | Arr(items: Items) | Obj(fields: Fields)

  datatype Items = NoItems | Elem(head: Json, rest: Items)

  datatype Fields = NoFields | Field(key: string, keyRepr: string, value: Json, rest: Fields)

  const NONE := Leaf("None", "None", false)

  function Repr(j: Json): string {
    match j
    case Leaf(_, repr, _) => repr
    case Arr(items) => "[" + ReprItems(items) + "]"
    case Obj(fields) => "{" + ReprFields(fields) + "}"
  }

  function ReprItems(items: Items): string {
    match items
    case NoItems => ""
    case Elem(head, rest) => Repr(head) + if rest == NoItems then "" else ", " + ReprItems(rest)
  }

  function ReprFields(fields: Fields): string {
    match fields
    case NoFields => ""
    case Field(_, keyRepr, value, rest) =>
      keyRepr + ": " + Repr(value) + if rest == NoFields then "" else ", " + ReprFields(rest)
  }

  predicate Truthy(j: Json) {
    match j
    case Leaf(text, _, truthy) => truthy && text != ""
    case Arr(items) => items != NoItems
    case Obj(fields) => fields != NoFields
  }

  /** `str(x or "")` */
  function OrText(j: Json): string {
    if !Truthy(j) then "" else if j.Leaf? then j.text else Repr(j)
  }

  /** `d.get(key)`; a missing key reads as None. */
  function Get(d: Fields, key: string): Json {
    if d == NoFields then NONE else if d.key == key then d.value else Get(d.rest, key)
  }

  /** `x if isinstance(x, dict) else {}` */
  function AsDict(j: Json): Fields {
    if j.Obj? then j.fields else NoFields
  }

  /** Code point order of strings. */
  predicate Before(a: string, b: string) {
    b != "" && (a == "" || a[0] < b[0] || (a[0] == b[0] && Before(a[1..], b[1..])))
  }

  function Insert(key: string, keyRepr: string, value: Json, d: Fields): Fields {
    if d == NoFields || !Before(d.key, key) then Field(key, keyRepr, value, d)
    else Field(d.key, d.keyRepr, d.value, Insert(key, keyRepr, value, d.rest))
  }

  /** What `json.dumps(x, sort_keys=True)` and `json.loads` make of a value. */
  function KeySorted(j: Json): Json {
    match j
    case Leaf(_, _, _) => j
    case Arr(items) => Arr(KeySortedItems(items))
    case Obj(fields) => Obj(KeySortedFields(fields))
  }

  function KeySortedItems(items: Items): Items {
    match items case NoItems => NoItems case Elem(head, rest) => Elem(KeySorted(head), KeySortedItems(rest))
  }

  function KeySortedFields(d: Fields): Fields {
    match d
    case NoFields => NoFields
    case Field(key, keyRepr, value, rest) => Insert(key, keyRepr, KeySorted(value), KeySortedFields(rest))
  }

  /** Sorting the keys does not show when the value is written out. */
  predicate Survives(j: Json) { OrText(KeySorted(j)) == OrText(j) }

  lemma {:induction false} GetInsert(key: string, keyRepr: string, value: Json, d: Fields, wanted: string)
    ensures Get(Insert(key, keyRepr, value, d), wanted) == if wanted == key then value else Get(d, wanted)
  {
    if d != NoFields && Before(d.key, key) {
      GetInsert(key, keyRepr, value, d.rest, wanted);
      NotBeforeItself(key);
    }
  }

  lemma {:induction false} NotBeforeItself(s: string)
    ensures !Before(s, s)
  {
    if s != "" { NotBeforeItself(s[1..]); }
  }

  /** Looking a key up commutes with sorting. */
  lemma {:induction false} GetKeySorted(d: Fields, wanted: string)
    ensures Get(KeySortedFields(d), wanted) == KeySorted(Get(d, wanted))
  {
    match d
    case NoFields =>
    case Field(key, keyRepr, value, rest) =>
      GetInsert(key, keyRepr, KeySorted(value), KeySortedFields(rest), wanted);
      GetKeySorted(rest, wanted);
  }

  /** Keys in order at every level. */
  predicate Ordered(j: Json) {
    match j
    case Leaf(_, _, _) => true
    case Arr(items) => OrderedItems(items)
    case Obj(fields) => OrderedFields(fields)
  }

  predicate OrderedItems(items: Items) {
    match items case NoItems => true case Elem(head, rest) => Ordered(head) && OrderedItems(rest)
  }

  predicate OrderedFields(d: Fields) {
    match d
    case NoFields => true
    case Field(key, _, value, rest) =>
      Ordered(value) && OrderedFields(rest) && (rest != NoFields ==> !Before(rest.key, key))
  }

  /** Values without objects, and objects whose keys come in order, are stored as they are. */
  lemma {:induction false} OrderedSurvives(j: Json)
    requires Ordered(j)
    ensures KeySorted(j) == j && Survives(j)
  {
    match j
    case Leaf(_, _, _) =>
    case Arr(items) => OrderedItemsSame(items);
    case Obj(fields) => OrderedFieldsSame(fields);
  }

  lemma {:induction false} OrderedItemsSame(items: Items)
    requires OrderedItems(items)
    ensures KeySortedItems(items) == items
  {
    match items
    case NoItems =>
    case Elem(head, rest) => OrderedSurvives(head); OrderedItemsSame(rest);
  }

  lemma {:induction false} OrderedFieldsSame(d: Fields)
    requires OrderedFields(d)
    ensures KeySortedFields(d) == d
  {
    match d
    case NoFields =>
    case Field(_, _, value, rest) => OrderedSurvives(value); OrderedFieldsSame(rest);
  }

  lemma {:induction false} BeforeAsymmetric(a: string, b: string)
    ensures !(Before(a, b) && Before(b, a))
  {
    if a != "" && b != "" { BeforeAsymmetric(a[1..], b[1..]); }
  }

  lemma {:induction false} InsertOrdered(key: string, keyRepr: string, value: Json, d: Fields)
    requires Ordered(value) && OrderedFields(d)
    ensures OrderedFields(Insert(key, keyRepr, value, d))
  {
    if d != NoFields && Before(d.key, key) {
      InsertOrdered(key, keyRepr, value, d.rest);
      BeforeAsymmetric(d.key, key);
    }
  }

  /** What is stored has its keys in order at every level. */
  lemma {:induction false} StoredIsOrdered(j: Json)
    ensures Ordered(KeySorted(j))
  {
    match j
    case Leaf(_, _, _) =>
    case Arr(items) => StoredItemsOrdered(items);
    case Obj(fields) => StoredFieldsOrdered(fields);
  }

  lemma {:induction false} StoredItemsOrdered(items: Items)
    ensures OrderedItems(KeySortedItems(items))
  {
    match items
    case NoItems =>
    case Elem(head, rest) => StoredIsOrdered(head); StoredItemsOrdered(rest);
  }

  lemma {:induction false} StoredFieldsOrdered(d: Fields)
    ensures OrderedFields(KeySortedFields(d))
  {
    match d
    case NoFields =>
    case Field(key, keyRepr, value, rest) =>
      StoredIsOrdered(value);
      StoredFieldsOrdered(rest);
      InsertOrdered(key, keyRepr, KeySorted(value), KeySortedFields(rest));
  }

  /** How values are written: leaves as their text, lists and objects in brackets with
      commas, and nothing at all for a value that counts as false. */
  lemma Written(x: Json)
    ensures x.Leaf? ==> OrText(x) == (if x.truthy then x.text else "") && Repr(x) == x.repr
    ensures !x.Leaf? ==> OrText(x) == if x == Arr(NoItems) || x == Obj(NoFields) then "" else Repr(x)
    ensures Repr(Arr(NoItems)) == "[]" && Repr(Obj(NoFields)) == "{}"
  {
  }

  lemma ListWritten(x: Json, y: Json)
    ensures Repr(Arr(Elem(x, Elem(y, NoItems)))) == "[" + Repr(x) + ", " + Repr(y) + "]"
  {
    assert ReprItems(Elem(y, NoItems)) == Repr(y);
  }

  lemma ObjectWritten(x: Json, y: Json, k: string, l: string)
    ensures Repr(Obj(Field(k, l, x, Field(k, l, y, NoFields)))) ==
            "{" + l + ": " + Repr(x) + ", " + l + ": " + Repr(y) + "}"
  {
    assert ReprFields(Field(k, l, y, NoFields)) == l + ": " + Repr(y);
  }

  /** A container is written in brackets, so trimming leaves it alone; sorting keeps it a
      container and keeps its truth. */
  lemma Containers(j: Json)
    ensures Truthy(KeySorted(j)) == Truthy(j)
    ensures !j.Leaf? && Truthy(j) ==>
      OrText(j) != "" && Trimmed(OrText(j)) && OrText(KeySorted(j)) != "" && Trimmed(OrText(KeySorted(j)))
    ensures j.Leaf? || !Truthy(j) ==> Survives(j)
  {
    if j.Obj? && j.fields != NoFields { InsertSome(j.fields); }
    if !j.Leaf? {
      assert Trimmed(Repr(j)) && Repr(j) != "";
      assert Trimmed(Repr(KeySorted(j))) && Repr(KeySorted(j)) != "";
    }
  }

  lemma InsertSome(d: Fields)
    requires d != NoFields
    ensures KeySortedFields(d) != NoFields
  {
  }

  /** `a or b` on strings */
  function Or(a: string, b: string): string {
    if a != "" then a else b
  }

  datatype Kind = Comment | Message

  function KindText(kind: Kind): string {
    match kind case Comment => "comment" case Message => "message"
  }

  function Label(kind: Kind): string {
    match kind case Comment => "Facebook 留言" case Message => "Facebook 私訊"
  }

  const ANONYMOUS := "顧客"

  /** The keyword arguments of `_queue_meta_engagement`. */
  datatype Draft = Draft(
    kind: Kind, messageId: string, threadId: string, authorName: string, authorId: string,
    content: string, payload: Fields, sourceLabel: string)

  /** A row of `kachu_webhook_events`. */
  datatype Event = Event(
    tenant: string, provider: string, eventType: string,
    externalId: string, userId: string, threadId: string, payload: Fields)

  /** A reading always carries an identity and a text. */
  type Reading = r: Result<Draft, ReplayError> |
    r.Ok? ==> Usable(r.value)
    witness Err(NotMeta)

  datatype ReplayError = NotMeta | UnsupportedType | MissingIdentity

  // ── Live ingest ─────────────────────────────────────────────────────────

  function ReadLive(kind: Kind, payload: Fields): Draft {
    match kind
    case Comment =>
      var id := Strip(Or(OrText(Get(payload, "comment_id")), OrText(Get(payload, "id"))));
      var from := AsDict(Get(payload, "from"));
      Draft(Comment, id, Or(OrText(Get(payload, "post_id")), id),
            Or(OrText(Get(from, "name")), ANONYMOUS), Strip(OrText(Get(from, "id"))),
            Strip(OrText(Get(payload, "message"))), payload, Label(Comment))
    case Message =>
      var message := AsDict(Get(payload, "message"));
      var sender := AsDict(Get(payload, "sender"));
      var id := Strip(OrText(Get(message, "mid")));
      Draft(Message, id, id,
            Or(OrText(Get(sender, "name")), ANONYMOUS), Strip(OrText(Get(sender, "id"))),
            Strip(OrText(Get(message, "text"))), payload, Label(Message))
  }

  predicate Usable(d: Draft) {
    d.messageId != "" && d.content != ""
  }

  /** Items without identity or text, and the page's own posts, are skipped. */
  predicate Accepts(d: Draft, pageId: string) {
    Usable(d) && d.authorId != pageId
  }

  /** The row that `record_webhook_event_if_new` inserts: identity columns are trimmed and
      the payload is stored with sorted keys. */
  function Recorded(tenant: string, d: Draft): Event {
    Event(tenant, "meta", KindText(d.kind), Strip(d.messageId), Strip(d.authorId), Strip(d.threadId),
          KeySortedFields(d.payload))
  }

  /** The payload field that becomes the text, and the one that becomes the author's name. */
  function ContentField(kind: Kind, payload: Fields): Json {
    match kind
    case Comment => Get(payload, "message")
    case Message => Get(AsDict(Get(payload, "message")), "text")
  }

  function NameField(kind: Kind, payload: Fields): Json {
    match kind
    case Comment => Get(AsDict(Get(payload, "from")), "name")
    case Message => Get(AsDict(Get(payload, "sender")), "name")
  }

  function DedupeKey(tenant: string, kind: Kind, messageId: string): string {
    "meta:" + tenant + ":" + KindText(kind) + ":" + messageId
  }

  // ── Replay ──────────────────────────────────────────────────────────────

  /** What `replay_stored_meta_webhook_event` reads from a stored row before it
      touches any other table. */
  function ReadStored(e: Event): Reading {
    if e.provider != "meta" then Err(NotMeta)
    else if Strip(e.eventType) == "comment" then Checked(ReadStoredComment(e))
    else if Strip(e.eventType) == "message" then Checked(ReadStoredMessage(e))
    else Err(UnsupportedType)
  }

  function ReadStoredComment(e: Event): Draft {
    var from := AsDict(Get(e.payload, "from"));
    var id := Strip(Or(e.externalId, Or(OrText(Get(e.payload, "comment_id")), OrText(Get(e.payload, "id")))));
    Draft(Comment, id, Strip(Or(e.threadId, Or(OrText(Get(e.payload, "post_id")), id))),
          Or(OrText(Get(from, "name")), ANONYMOUS), Strip(Or(e.userId, OrText(Get(from, "id")))),
          Strip(OrText(Get(e.payload, "message"))), e.payload, Label(Comment))
  }

  function ReadStoredMessage(e: Event): Draft {
    var message := AsDict(Get(e.payload, "message"));
    var sender := AsDict(Get(e.payload, "sender"));
    var id := Strip(Or(e.externalId, OrText(Get(message, "mid"))));
    Draft(Message, id, Strip(Or(e.threadId, id)),
          Or(OrText(Get(sender, "name")), ANONYMOUS), Strip(Or(e.userId, OrText(Get(sender, "id")))),
          Strip(OrText(Get(message, "text"))), e.payload, Label(Message))
  }

  function Checked(d: Draft): Reading {
    if Usable(d) then Ok(d) else Err(MissingIdentity)
  }

  // ── What is read ────────────────────────────────────────────────────────

  /** A JSON string. */
  function Text(s: string): Json { Leaf(s, "'" + s + "'", s != "") }

  function One(key: string, value: Json, rest: Fields): Fields { Field(key, "'" + key + "'", value, rest) }

  function CommentPayload(comment: string, id: string, post: string, author: string, name: string, text: string)
    : Fields
  {
    One("comment_id", Text(comment), One("id", Text(id), One("post_id", Text(post),
      One("from", Obj(One("id", Text(author), One("name", Text(name), NoFields))),
        One("message", Text(text), NoFields)))))
  }

  function MessagePayload(mid: string, author: string, name: string, text: string): Fields {
    One("sender", Obj(One("id", Text(author), One("name", Text(name), NoFields))),
      One("message", Obj(One("mid", Text(mid), One("text", Text(text), NoFields))), NoFields))
  }

  lemma GetFirst(key: string, value: Json, rest: Fields, wanted: string)
    ensures Get(One(key, value, rest), wanted) == if wanted == key then value else Get(rest, wanted)
    ensures Get(NoFields, wanted) == NONE && AsDict(Obj(rest)) == rest && AsDict(NONE) == NoFields
  {
  }

  lemma KeysDiffer()
    ensures "comment_id" != "id" && "comment_id" != "post_id" && "comment_id" != "from" && "comment_id" != "message"
    ensures "id" != "post_id" && "id" != "from" && "id" != "message" && "id" != "name"
    ensures "post_id" != "from" && "post_id" != "message" && "from" != "message"
    ensures "sender" != "message" && "mid" != "text"
  {
    assert "comment_id"[0] != "message"[0] && "post_id"[0] != "message"[0] && "from"[0] != "message"[0];
    assert "id"[0] != "message"[0] && "id"[0] != "from"[0] && "mid"[0] != "text"[0] && "sender"[0] != "message"[0];
  }

  /** A live comment: its own id or else the general one, its post or else that id, the
      author's name if there is one, and the text; ids and text without blanks around. */
  lemma CommentRead(comment: string, id: string, post: string, author: string, name: string, text: string)
    ensures var d := ReadLive(Comment, CommentPayload(comment, id, post, author, name, text));
            && d.kind == Comment && d.sourceLabel == "Facebook 留言"
            && d.messageId == Strip(if comment != "" then comment else id)
            && d.threadId == (if post != "" then post else d.messageId)
            && d.authorName == (if name != "" then name else "顧客")
            && d.authorId == Strip(author) && d.content == Strip(text)
  {
    var p := CommentPayload(comment, id, post, author, name, text);
    var from := One("id", Text(author), One("name", Text(name), NoFields));
    KeysDiffer();
    var p4 := One("message", Text(text), NoFields);
    var p3 := One("from", Obj(from), p4);
    var p2 := One("post_id", Text(post), p3);
    var p1 := One("id", Text(id), p2);
    assert Get(p, "comment_id") == Text(comment);
    assert Get(p, "id") == Get(p1, "id") == Text(id);
    assert Get(p, "post_id") == Get(p1, "post_id") == Get(p2, "post_id") == Text(post);
    assert Get(p, "from") == Get(p1, "from") == Get(p2, "from") == Get(p3, "from") == Obj(from);
    assert Get(p, "message") == Get(p1, "message") == Get(p2, "message") == Get(p3, "message");
    assert Get(p3, "message") == Get(p4, "message") == Text(text);
    assert Get(from, "id") == Text(author) && Get(from, "name") == Text(name);
  }

  /** A live message: the id of the message for both ids, the sender, and the text. */
  lemma MessageRead(mid: string, author: string, name: string, text: string)
    ensures var d := ReadLive(Message, MessagePayload(mid, author, name, text));
            && d.kind == Message && d.sourceLabel == "Facebook 私訊"
            && d.messageId == Strip(mid) && d.threadId == d.messageId
            && d.authorName == (if name != "" then name else "顧客")
            && d.authorId == Strip(author) && d.content == Strip(text)
  {
    var p := MessagePayload(mid, author, name, text);
    var sender := One("id", Text(author), One("name", Text(name), NoFields));
    var message := One("mid", Text(mid), One("text", Text(text), NoFields));
    KeysDiffer();
    assert Get(p, "sender") == Obj(sender) && Get(p, "message") == Obj(message);
    assert Get(sender, "id") == Text(author) && Get(sender, "name") == Text(name);
    assert Get(message, "mid") == Text(mid) && Get(message, "text") == Text(text);
  }

  /** A payload in which nothing is where it is looked for gives nothing but the fallback
      name. */
  lemma NothingRead(kind: Kind, payload: Fields)
    requires forall key :: Get(payload, key) == NONE
    ensures var d := ReadLive(kind, payload);
            d.messageId == "" && d.threadId == "" && d.authorId == "" && d.content == "" && d.authorName == "顧客"
  {
    assert AsDict(NONE) == NoFields && OrText(NONE) == "" && Strip("") == "";
    assert forall key :: Get(NoFields, key) == NONE;
    if kind == Comment {
      assert Get(payload, "comment_id") == NONE && Get(payload, "id") == NONE && Get(payload, "post_id") == NONE;
      assert Get(payload, "from") == NONE && Get(payload, "message") == NONE;
    } else {
      assert Get(payload, "message") == NONE && Get(payload, "sender") == NONE;
    }
  }

  /** The row of a draft: its tenant, its kind by name, its identity columns trimmed. */
  lemma RecordedColumns(tenant: string, d: Draft)
    ensures var e := Recorded(tenant, d);
            && e.tenant == tenant && e.provider == "meta"
            && e.eventType == (if d.kind == Comment then "comment" else "message")
            && e.externalId == Strip(d.messageId) && e.userId == Strip(d.authorId) && e.threadId == Strip(d.threadId)
            && e.payload == KeySortedFields(d.payload)
            && Summary(e) == Stored(tenant, "meta", e.eventType, e.externalId, ReadStored(e))
  {
  }

  /** What a replay refuses, and where it takes the identity from: from the columns, and
      from the payload, as live ingest does, where a column is blank. */
  lemma StoredReading(e: Event, kind: Kind)
    requires e.provider == "meta" && e.eventType == if kind == Comment then "comment" else "message"
    ensures var d := if kind == Comment then ReadStoredComment(e) else ReadStoredMessage(e);
            var live := ReadLive(kind, e.payload);
            && ReadStored(e) == (if d.messageId != "" && d.content != "" then Ok(d) else Err(MissingIdentity))
            && d.kind == kind && d.content == live.content && d.authorName == live.authorName
            && d.sourceLabel == live.sourceLabel && d.payload == e.payload
            && d.messageId == (if e.externalId != "" then Strip(e.externalId) else live.messageId)
            && d.authorId == (if e.userId != "" then Strip(e.userId) else live.authorId)
            && (e.threadId != "" ==> d.threadId == Strip(e.threadId))
            && (e.threadId == "" && e.externalId == "" ==> d.threadId == Strip(live.threadId))
  {
    TrimmedType(kind);
  }

  lemma StoredRefused(e: Event)
    ensures e.provider != "meta" ==> ReadStored(e) == Err(NotMeta)
    ensures e.provider == "meta" && Strip(e.eventType) != "comment" && Strip(e.eventType) != "message" ==>
            ReadStored(e) == Err(UnsupportedType)
  {
  }

  /** What a replay reads back from the row of a live draft. */
  function Reread(live: Draft, payload: Fields): Draft {
    live.(threadId := Strip(live.threadId), payload := KeySortedFields(payload),
          content := Strip(OrText(KeySorted(ContentField(live.kind, payload)))),
          authorName := Or(OrText(KeySorted(NameField(live.kind, payload))), ANONYMOUS))
  }

  lemma AsDictKeySorted(d: Fields, outer: string, inner: string)
    ensures Get(AsDict(Get(KeySortedFields(d), outer)), inner) == KeySorted(Get(AsDict(Get(d, outer)), inner))
  {
    GetKeySorted(d, outer);
    GetKeySorted(AsDict(Get(d, outer)), inner);
  }

  /** A trimmed column, with the field it came from as the fallback for an empty one. */
  lemma ColumnWins(j: Json)
    ensures Strip(Or(Strip(OrText(j)), OrText(KeySorted(j)))) == Strip(OrText(j))
  {
    Containers(j);
  }

  lemma CommentReplays(tenant: string, payload: Fields)
    requires ReadLive(Comment, payload).messageId != ""
    ensures ReadStoredComment(Recorded(tenant, ReadLive(Comment, payload))) ==
            Reread(ReadLive(Comment, payload), payload)
  {
    var live := ReadLive(Comment, payload);
    var stored := ReadStoredComment(Recorded(tenant, live));
    AsDictKeySorted(payload, "from", "id");
    AsDictKeySorted(payload, "from", "name");
    GetKeySorted(payload, "message");
    GetKeySorted(payload, "post_id");
    ColumnWins(Get(AsDict(Get(payload, "from")), "id"));
    assert stored.messageId == live.messageId && stored.authorId == live.authorId;
    CommentThread(live.messageId, Get(payload, "post_id"));
    assert stored.threadId == Strip(live.threadId);
  }

  lemma CommentThread(id: string, post: Json)
    requires id != "" && Trimmed(id)
    ensures var thread := Or(OrText(post), id);
            Strip(Or(Strip(thread), Or(OrText(KeySorted(post)), id))) == Strip(thread)
  {
    Containers(post);
    ColumnWins(post);
  }

  lemma MessageReplays(tenant: string, payload: Fields)
    requires ReadLive(Message, payload).messageId != ""
    ensures ReadStoredMessage(Recorded(tenant, ReadLive(Message, payload))) ==
            Reread(ReadLive(Message, payload), payload)
  {
    var live := ReadLive(Message, payload);
    var stored := ReadStoredMessage(Recorded(tenant, live));
    AsDictKeySorted(payload, "sender", "id");
    AsDictKeySorted(payload, "sender", "name");
    AsDictKeySorted(payload, "message", "text");
    ColumnWins(Get(AsDict(Get(payload, "sender")), "id"));
    assert stored.messageId == live.messageId && stored.authorId == live.authorId;
  }

  /** What the rest of the system uses of a stored row: its identity columns and
      what a replay reads from it. */
  datatype Stored = Stored(
    tenant: string, provider: string, eventType: string, externalId: string,
    reading: Reading)

  function Summary(e: Event): Stored {
    Stored(e.tenant, e.provider, e.eventType, e.externalId, ReadStored(e))
  }

  lemma StoredByKind(e: Event, kind: Kind, d: Draft)
    requires e.provider == "meta" && e.eventType == KindText(kind)
    requires d == match kind case Comment => ReadStoredComment(e) case Message => ReadStoredMessage(e)
    requires Usable(d)
    ensures ReadStored(e) == Ok(d)
  {
    TrimmedType(kind);
  }

  /** A text stays a text, and what survives the key sort is reread as it was. */
  lemma RereadExact(kind: Kind, payload: Fields)
    ensures var live := ReadLive(kind, payload);
            && live.content == Strip(OrText(ContentField(kind, payload)))
            && live.authorName == Or(OrText(NameField(kind, payload)), ANONYMOUS)
            && (live.content != "" ==> Reread(live, payload).content != "")
            && (Reread(live, payload).content == live.content <==> Survives(ContentField(kind, payload)))
            && (Reread(live, payload).authorName == live.authorName <==> Survives(NameField(kind, payload)))
  {
    Containers(ContentField(kind, payload));
    Containers(NameField(kind, payload));
  }

  /** Every event recorded by live ingest can be replayed, whatever its payload holds: the
      replay finds the same message id, author id and label, and the trimmed thread id. */
  lemma LiveEventReplays(tenant: string, kind: Kind, payload: Fields)
    requires Usable(ReadLive(kind, payload))
    ensures var live := ReadLive(kind, payload);
            && ReadStored(Recorded(tenant, live)) == Ok(Reread(live, payload))
            && Reread(live, payload).messageId == live.messageId
            && Reread(live, payload).authorId == live.authorId
            && Reread(live, payload).sourceLabel == live.sourceLabel
  {
    var live := ReadLive(kind, payload);
    if kind == Comment { CommentReplays(tenant, payload); } else { MessageReplays(tenant, payload); }
    RereadExact(kind, payload);
    StoredByKind(Recorded(tenant, live), kind, Reread(live, payload));
  }

  /** It rebuilds the live draft, thread id trimmed and payload sorted, exactly if sorting
      the keys shows neither in the text nor in the author's name; texts, numbers and
      objects with ordered keys always do (`OrderedSurvives`). */
  lemma RebuildsExactly(tenant: string, kind: Kind, payload: Fields)
    requires Usable(ReadLive(kind, payload))
    ensures var live := ReadLive(kind, payload);
            ReadStored(Recorded(tenant, live)) ==
              Ok(live.(threadId := Strip(live.threadId), payload := KeySortedFields(payload))) <==>
            Survives(ContentField(kind, payload)) && Survives(NameField(kind, payload))
  {
    LiveEventReplays(tenant, kind, payload);
    RereadExact(kind, payload);
  }

  /** The objects {"b": 1, "a": 2} and {"a": 2, "b": 1}. */
  function BeforeSort(): Fields {
    Field("b", "'b'", Leaf("1", "1", true), Field("a", "'a'", Leaf("2", "2", true), NoFields))
  }

  function AfterSort(): Fields {
    Field("a", "'a'", Leaf("2", "2", true), Field("b", "'b'", Leaf("1", "1", true), NoFields))
  }

  lemma Reordered()
    ensures KeySortedFields(BeforeSort()) == AfterSort()
  {
    assert Before("a", "b") && !Before("b", "a");
  }

  lemma TextBeforeSort()
    ensures Repr(Obj(BeforeSort())) == "{'b': 1, 'a': 2}" && Trimmed("{'b': 1, 'a': 2}")
  {
    assert ReprFields(BeforeSort().rest) == "'a': 2";
    assert ReprFields(BeforeSort()) == "'b': 1, 'a': 2";
  }

  lemma TextAfterSort()
    ensures Repr(Obj(AfterSort())) == "{'a': 2, 'b': 1}" && Trimmed("{'a': 2, 'b': 1}")
  {
    assert ReprFields(AfterSort().rest) == "'b': 1";
    assert ReprFields(AfterSort()) == "'a': 2, 'b': 1";
  }

  /** A comment whose text is the object {"b": 1, "a": 2} is answered as `{'b': 1, 'a': 2}`
      when it arrives and as `{'a': 2, 'b': 1}` when it is replayed. */
  lemma ObjectTextIsReordered(tenant: string, payload: Fields)
    requires Get(payload, "message") == Obj(BeforeSort()) && ReadLive(Comment, payload).messageId != ""
    ensures var live := ReadLive(Comment, payload);
            && Usable(live) && live.content == "{'b': 1, 'a': 2}"
            && ReadStored(Recorded(tenant, live)).Ok?
            && ReadStored(Recorded(tenant, live)).value.content == "{'a': 2, 'b': 1}"
  {
    Reordered();
    TextBeforeSort();
    TextAfterSort();
    LiveEventReplays(tenant, Comment, payload);
  }

  lemma TrimmedType(kind: Kind)
    ensures Strip(KindText(kind)) == KindText(kind)
    ensures KindText(Comment) != KindText(Message)
  {
  }

  /** The repository trims the id column; with a trimmed, non-empty id the replayed
      message is the one the column names. */
  lemma StoredIdentity(e: Event)
    requires Trimmed(e.externalId) && e.externalId != "" && ReadStored(e).Ok?
    ensures ReadStored(e).value.messageId == e.externalId
  {
    assert Strip(Or(e.externalId, "")) == e.externalId;
    if Strip(e.eventType) == "comment" { assert ReadStoredComment(e).messageId == e.externalId; }
    else { assert ReadStoredMessage(e).messageId == e.externalId; }
  }

  /** A live webhook item: its draft and the row it records. A usable item always
      records a row that replays to the same message. */
  datatype Item = Item(tenant: string, draft: Draft, stored: Stored)

  type LiveItem = i: Item |
    i.stored.tenant == i.tenant && (Usable(i.draft) ==> RegularRow(i.stored, i.draft.kind, i.draft.messageId))
    witness Item("", Draft(Comment, "", "", "", "", "", NoFields, ""), Stored("", "", "", "", Err(NotMeta)))

  /** A Meta row whose id column names the message that it replays to. */
  predicate RegularRow(e: Stored, kind: Kind, messageId: string) {
    && e.provider == "meta" && e.eventType == KindText(kind) && e.externalId == messageId
    && e.reading.Ok? && e.reading.value.messageId == messageId
  }

  function LiveItemOf(tenant: string, kind: Kind, payload: Fields): (item: LiveItem)
    ensures item.tenant == tenant && item.draft == ReadLive(kind, payload)
    ensures item.stored == Summary(Recorded(tenant, item.draft))
  {
    var d := ReadLive(kind, payload);
    assert Usable(d) ==> RegularRow(Summary(Recorded(tenant, d)), d.kind, d.messageId) by {
      if Usable(d) { LiveEventReplays(tenant, kind, payload); }
    }
    Item(tenant, d, Summary(Recorded(tenant, d)))
  }

  /** Within one tenant the dedupe key determines the kind and the message id. */
  lemma DedupeKeyInjective(tenant: string, k1: Kind, m1: string, k2: Kind, m2: string)
    requires DedupeKey(tenant, k1, m1) == DedupeKey(tenant, k2, m2)
    ensures k1 == k2 && m1 == m2
  {
    var prefix := "meta:" + tenant + ":";
    assert DedupeKey(tenant, k1, m1) == prefix + (KindText(k1) + ":" + m1);
    assert DedupeKey(tenant, k2, m2) == prefix + (KindText(k2) + ":" + m2);
    PrefixInjective(prefix, KindText(k1) + ":" + m1, KindText(k2) + ":" + m2);
    assert (KindText(k1) + ":" + m1)[0] == (KindText(k2) + ":" + m2)[0];
    assert KindText(Comment)[0] != KindText(Message)[0];
    PrefixInjective(KindText(k1) + ":", m1, m2);
  }
}
