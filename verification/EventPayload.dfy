/** The queued form of an event, and the decoder that rebuilds it. */
module EventPayload {
  import opened Wrappers
  import opened Ingestion

  datatype Json =
    | Null
    | Text(value: string)
    | List(items: seq<Json>)
    | Object(fields: map<string, Json>)

  function OptionalText(o: Option<string>): Json {
    match o
    case None => Null
    case Some(text) => Json.Text(text)
  }

  function Texts(q: seq<string>): seq<Json> {
    seq(|q|, i requires 0 <= i < |q| => Json.Text(q[i]))
  }

  function EncodeSource(s: Source): Json {
    Object(map["provider" := Json.Text(s.id.provider), "repository" := Json.Text(s.id.repository),
               "branch" := Json.Text(s.id.branch), "commit_sha" := Json.Text(s.commit), "path" := Json.Text(s.id.path)])
  }

  function EncodeChange(c: FileChange): Json {
    Object(map["source" := EncodeSource(c.source),
               "change_type" := Json.Text(if c.kind.Delete? then "delete" else "upsert"),
               "content" := OptionalText(c.content), "language" := OptionalText(c.language),
               "owner" := OptionalText(c.owner), "service" := OptionalText(c.service),
               "acl" := Object(map["groups" := List(Texts(c.acl.groups)), "users" := List(Texts(c.acl.users))])])
  }

  function EncodeEvent(e: Event): Json {
    Object(map["event_id" := Json.Text(e.id),
               "changes" := List(EncodeChanges(e.changes))])
  }

  function Field(j: Json, name: string): Json {
    if j.Object? && name in j.fields then j.fields[name] else Null
  }

  /** A required text field; a missing or mistyped one raises. */
  function Required(j: Json, name: string): Option<string> {
    if Field(j, name).Text? then Some(Field(j, name).value) else None
  }

  /** An optional text field; the outer option is whether decoding can go on. */
  function Optional(j: Json, name: string): Option<Option<string>> {
    match Field(j, name)
    case Null => Some(None)
    case Text(text) => Some(Some(text))
    case _ => None
  }

  function DecodeTexts(items: seq<Json>): Option<seq<string>> {
    if items == [] then Some([])
    else
      match (items[0], DecodeTexts(items[1..]))
      case (Text(text), Some(rest)) => Some([text] + rest)
      case _ => None
  }

  /** A missing list of names is an empty one. */
  function Names(j: Json, name: string): Option<seq<string>> {
    match Field(j, name)
    case Null => Some([])
    case List(items) => DecodeTexts(items)
    case _ => None
  }

  function DecodeSource(j: Json): Option<Source> {
    var provider, repository, branch := Required(j, "provider"), Required(j, "repository"), Required(j, "branch");
    var commit, path := Required(j, "commit_sha"), Required(j, "path");
    if provider.Some? && repository.Some? && branch.Some? && commit.Some? && path.Some? then
      Some(Source(DocumentId(provider.value, repository.value, branch.value, path.value), commit.value))
    else None
  }

  function DecodeKind(j: Json): Option<ChangeType> {
    match Required(j, "change_type")
    case Some("upsert") => Some(Upsert)
    case Some("delete") => Some(Delete)
    case _ => None
  }

  function DecodeAcl(j: Json): Option<Acl> {
    var groups, users := Names(j, "groups"), Names(j, "users");
    if groups.Some? && users.Some? then Some(Acl(groups.value, users.value)) else None
  }

  function DecodeChange(j: Json): Option<FileChange> {
    var source, kind, acl := DecodeSource(Field(j, "source")), DecodeKind(j), DecodeAcl(Field(j, "acl"));
    var content, language := Optional(j, "content"), Optional(j, "language");
    var owner, service := Optional(j, "owner"), Optional(j, "service");
    if source.Some? && kind.Some? && acl.Some? && content.Some? && language.Some? && owner.Some? && service.Some? then
      Some(FileChange(source.value, kind.value, content.value, language.value, owner.value, service.value, acl.value))
    else None
  }

  function DecodeChanges(items: seq<Json>): Option<seq<FileChange>> {
    if items == [] then Some([])
    else
      match (DecodeChange(items[0]), DecodeChanges(items[1..]))
      case (Some(c), Some(rest)) => Some([c] + rest)
      case _ => None
  }

  function DecodeEvent(j: Json): Option<Event> {
    var id, changes := Required(j, "event_id"), Field(j, "changes");
    if id.None? || !changes.List? then None
    else
      var decoded := DecodeChanges(changes.items);
      if decoded.None? then None else Some(Event(id.value, decoded.value))
  }

  lemma {:induction false} TextsDecode(q: seq<string>)
    ensures DecodeTexts(Texts(q)) == Some(q)
  {
    if q != [] {
      TextsDecode(q[1..]);
      assert Texts(q)[1..] == Texts(q[1..]) && [q[0]] + q[1..] == q;
    }
  }

  lemma OptionalDecodes(j: Json, name: string, o: Option<string>)
    requires Field(j, name) == OptionalText(o)
    ensures Optional(j, name) == Some(o)
  {
  }

  lemma SourceDecodes(s: Source)
    ensures DecodeSource(EncodeSource(s)) == Some(s)
  {
  }

  lemma AclDecodes(j: Json, acl: Acl)
    requires j == Object(map["groups" := List(Texts(acl.groups)), "users" := List(Texts(acl.users))])
    ensures DecodeAcl(j) == Some(acl)
  {
    TextsDecode(acl.groups);
    TextsDecode(acl.users);
  }

  lemma ChangeDecodes(c: FileChange)
    ensures DecodeChange(EncodeChange(c)) == Some(c)
  {
    var j := EncodeChange(c);
    assert Field(j, "source") == EncodeSource(c.source);
    assert DecodeKind(j) == Some(c.kind);
    hide EncodeSource, DecodeSource, DecodeAcl, Optional, Texts;
    SourceDecodes(c.source);
    AclDecodes(Field(j, "acl"), c.acl);
    OptionalDecodes(j, "content", c.content);
    OptionalDecodes(j, "language", c.language);
    OptionalDecodes(j, "owner", c.owner);
    OptionalDecodes(j, "service", c.service);
    hide EncodeChange;
  }

  function EncodeChanges(changes: seq<FileChange>): seq<Json> {
    seq(|changes|, i requires 0 <= i < |changes| => EncodeChange(changes[i]))
  }

  lemma {:induction false} ChangesDecode(changes: seq<FileChange>)
    ensures DecodeChanges(EncodeChanges(changes)) == Some(changes)
  {
    if changes != [] {
      ChangeDecodes(changes[0]);
      ChangesDecode(changes[1..]);
      var all := EncodeChanges(changes);
      assert all[0] == EncodeChange(changes[0]) && all[1..] == EncodeChanges(changes[1..]);
      assert [changes[0]] + changes[1..] == changes;
    }
  }

  /** A queued payload decodes to the event it was made from. */
  lemma EventRoundTrip(e: Event)
    ensures DecodeEvent(EncodeEvent(e)) == Some(e)
  {
    ChangesDecode(e.changes);
  }
}
