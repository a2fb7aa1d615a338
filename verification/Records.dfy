/**
 Which entries the webhook sink delivers, for any field map at all (examples/webhook-sink/src/lib.rs), the markers of
 the control stream among them (src/markers.rs), and the fields no consumer needs for that: `seq` and `class`.
 */
module Records {
  import opened Bytes
  import opened Text
  import Utf8
  import Base64
  import opened Json
  import opened Events
  import opened Names
  import Client
  import opened Sink

  type Fields = map<string, Client.Value>
  type Lossy = seq<Byte> -> string

  /** The field carries these bytes; an integer reply counts as its decimal text. */
  predicate Has(fields: Fields, name: string, bytes: seq<Byte>) {
    && name in fields
    && match fields[name]
       case BulkString(b) => b == bytes
       case SimpleString(t) => Utf8.Encode(t) == bytes
       case IntValue(i) => Utf8.Encode(SignedDecimal(i)) == bytes
       case OtherValue => false
  }

  ghost predicate HasText(fields: Fields, name: string, text: string, lossy: Lossy) {
    exists bytes :: Has(fields, name, bytes) && lossy(bytes) == text
  }

  ghost predicate Lacks(fields: Fields, name: string) {
    forall bytes :: !Has(fields, name, bytes)
  }

  lemma HasIff(fields: Fields, name: string)
    ensures FieldBytes(fields, name).Some? ==> Has(fields, name, FieldBytes(fields, name).value)
    ensures forall bytes :: Has(fields, name, bytes) ==> FieldBytes(fields, name) == Some(bytes)
    ensures Lacks(fields, name) <==> FieldBytes(fields, name) == None
  {
    var bytes := FieldBytes(fields, name);
    if bytes.Some? {
      assert Has(fields, name, bytes.value);
    }
  }

  lemma HasTextIff(fields: Fields, name: string, text: string, lossy: Lossy)
    ensures HasText(fields, name, text, lossy) <==> FieldText(fields, name, lossy) == Some(text)
    ensures Lacks(fields, name) <==> FieldText(fields, name, lossy) == None
  {
    HasIff(fields, name);
  }

  // ---------------------------------------------------------------------------------------------
  // What an entry stands for
  // ---------------------------------------------------------------------------------------------

  /** A control entry is a gap: its action, and its version and database where it has them. */
  ghost predicate PostsGap(stream: string, id: string, fields: Fields, lossy: Lossy, r: OutboundRecord) {
    && r.Gap? && r.stream == stream && r.id == id && HasText(fields, "action", r.action, lossy)
    && (if r.moduleVersion.Some? then HasText(fields, "module-version", r.moduleVersion.value, lossy)
        else Lacks(fields, "module-version"))
    && (if r.dbnum.Some? then exists text :: HasText(fields, "db", text, lossy) && InRange(text) == r.dbnum
        else forall text :: HasText(fields, "db", text, lossy) ==> InRange(text) == None)
  }

  function InRange(text: string): Option<int> {
    ParseInt(text, I64_MIN, I64_MAX)
  }

  /** The document under `data` is an object with these members. */
  ghost predicate Document(fields: Fields, members: seq<Member>) {
    exists text :: Has(fields, "data", Utf8.Encode(text)) && ParseDocument(text) == Some(JObject(members))
  }

  /** A json entry: event, key and database of its document, the key being base64. */
  ghost predicate PostsJson(stream: string, id: string, fields: Fields, r: OutboundRecord) {
    && r.Event? && r.stream == stream && r.id == id && I64_MIN <= r.db <= I64_MAX
    && (exists key :: r.keyBase64 == Base64.Encode(key))
    && exists members :: Document(fields, members) && Describes(members, r)
  }

  predicate Describes(members: seq<Member>, r: OutboundRecord)
    requires r.Event?
  {
    && Client.FieldOf(members, "event") == Some(JString(r.event))
    && Client.FieldOf(members, "key") == Some(JString(r.keyBase64))
    && Client.FieldOf(members, "db") == Some(JInt(r.db))
  }

  /** The other formats: the `event` field or else the stream's own name, the key and the database. */
  ghost predicate PostsFields(
    prefix: string, stream: string, id: string, fields: Fields, lossy: Lossy, r: OutboundRecord)
  {
    && r.Event? && r.stream == stream && r.id == id && !StartsWith(r.event, "#")
    && (HasText(fields, "event", r.event, lossy)
        || (Lacks(fields, "event") && EventName(prefix, stream) == Some(r.event)))
    && (exists key :: Has(fields, "key", key) && r.keyBase64 == Base64.Encode(key))
    && exists text :: HasText(fields, "db", text, lossy) && InRange(text) == Some(r.db)
  }

  predicate ReadsDirectly(format: string) {
    format == "fixed" || format == "minimal" || format == "verbose"
  }

  ghost predicate Posts(prefix: string, stream: string, id: string, fields: Fields, lossy: Lossy, r: OutboundRecord) {
    if EventName(prefix, stream) == Some("#control") then PostsGap(stream, id, fields, lossy, r)
    else if HasText(fields, "format", "json", lossy) then PostsJson(stream, id, fields, r)
    else
      && (Lacks(fields, "format") || exists format :: HasText(fields, "format", format, lossy) && ReadsDirectly(format))
      && PostsFields(prefix, stream, id, fields, lossy, r)
  }

  // ---------------------------------------------------------------------------------------------
  // The decoder delivers exactly these
  // ---------------------------------------------------------------------------------------------

  lemma GapIff(stream: string, id: string, fields: Fields, lossy: Lossy, r: OutboundRecord)
    ensures DecodeMarker(stream, id, fields, lossy) == Delivered(r) <==> PostsGap(stream, id, fields, lossy, r)
  {
    if r.Gap? {
      HasTextIff(fields, "action", r.action, lossy);
      HasTextIff(fields, "module-version", if r.moduleVersion.Some? then r.moduleVersion.value else "", lossy);
      forall text
        ensures HasText(fields, "db", text, lossy) <==> FieldText(fields, "db", lossy) == Some(text)
      {
        HasTextIff(fields, "db", text, lossy);
      }
      GapDatabase(fields, lossy, r.dbnum);
    }
  }

  lemma GapDatabase(fields: Fields, lossy: Lossy, dbnum: Option<int>)
    requires forall text :: HasText(fields, "db", text, lossy) <==> FieldText(fields, "db", lossy) == Some(text)
    ensures var db := FieldText(fields, "db", lossy);
            (if db.None? then None else InRange(db.value)) == dbnum <==>
            if dbnum.Some? then exists text :: HasText(fields, "db", text, lossy) && InRange(text) == dbnum
            else forall text :: HasText(fields, "db", text, lossy) ==> InRange(text) == None
  {
    var db := FieldText(fields, "db", lossy);
    if db.Some? {
      assert HasText(fields, "db", db.value, lossy);
    }
  }

  lemma DocumentIff(fields: Fields, members: seq<Member>)
    ensures Document(fields, members) <==>
            && FieldBytes(fields, "data").Some? && Utf8.Decode(FieldBytes(fields, "data").value).Some?
            && ParseDocument(Utf8.Decode(FieldBytes(fields, "data").value).value) == Some(JObject(members))
  {
    HasIff(fields, "data");
    var bytes := FieldBytes(fields, "data");
    if bytes.Some? && Utf8.Decode(bytes.value).Some? {
      Utf8.DecodeIff(bytes.value, Utf8.Decode(bytes.value).value);
    }
    if Document(fields, members) {
      var text :| Has(fields, "data", Utf8.Encode(text)) && ParseDocument(text) == Some(JObject(members));
      Utf8.RoundTrip(text);
    }
  }

  lemma JsonIff(stream: string, id: string, fields: Fields, r: OutboundRecord)
    ensures DecodeJson(stream, id, fields) == Delivered(r) <==> PostsJson(stream, id, fields, r)
  {
    if DecodeJson(stream, id, fields) == Delivered(r) {
      var text := Utf8.Decode(FieldBytes(fields, "data").value).value;
      var members := ParseDocument(text).value.members;
      DocumentIff(fields, members);
      var entry := ReadEntry(FieldBytes(fields, "data").value).value;
      var key := Base64.Decode(entry.key).value;
      Base64.DecodeIff(entry.key, key);
      assert Document(fields, members) && Describes(members, r);
    }
    if PostsJson(stream, id, fields, r) {
      var members :| Document(fields, members) && Describes(members, r);
      var key :| r.keyBase64 == Base64.Encode(key);
      DocumentIff(fields, members);
      Base64.RoundTrip(key);
    }
  }

  lemma FieldsIff(prefix: string, stream: string, id: string, fields: Fields, lossy: Lossy, r: OutboundRecord)
    ensures DecodeFields(prefix, stream, id, fields, lossy) == Delivered(r) <==>
            PostsFields(prefix, stream, id, fields, lossy, r)
  {
    if r.Event? {
      HasTextIff(fields, "event", r.event, lossy);
      HasIff(fields, "key");
      var text := FieldText(fields, "db", lossy);
      if text.Some? {
        HasTextIff(fields, "db", text.value, lossy);
      }
      forall t
        ensures HasText(fields, "db", t, lossy) <==> FieldText(fields, "db", lossy) == Some(t)
      {
        HasTextIff(fields, "db", t, lossy);
      }
    }
  }

  lemma FormatIff(fields: Fields, lossy: Lossy)
    ensures var found := FieldText(fields, "format", lossy);
            && (HasText(fields, "format", "json", lossy) <==> found == Some("json"))
            && (Lacks(fields, "format") <==> found == None)
            && ((exists format :: HasText(fields, "format", format, lossy) && ReadsDirectly(format)) <==>
                found.Some? && ReadsDirectly(found.value))
  {
    HasTextIff(fields, "format", "json", lossy);
    var found := FieldText(fields, "format", lossy);
    if found.Some? {
      HasTextIff(fields, "format", found.value, lossy);
    }
    forall format
      ensures HasText(fields, "format", format, lossy) <==> found == Some(format)
    {
      HasTextIff(fields, "format", format, lossy);
    }
  }

  /** The sink delivers a record for an entry exactly when the entry stands for it. */
  lemma DeliversExactly(prefix: string, stream: string, id: string, fields: Fields, lossy: Lossy, r: OutboundRecord)
    ensures DecodeRecord(prefix, stream, id, fields, lossy) == Delivered(r) <==>
            Posts(prefix, stream, id, fields, lossy, r)
  {
    if EventName(prefix, stream) == Some("#control") {
      GapIff(stream, id, fields, lossy, r);
    } else {
      FormatIff(fields, lossy);
      FormatNamesDiffer();
      if HasText(fields, "format", "json", lossy) {
        JsonIff(stream, id, fields, r);
      } else {
        FieldsIff(prefix, stream, id, fields, lossy, r);
      }
    }
  }

  // ---------------------------------------------------------------------------------------------
  // The control stream
  // ---------------------------------------------------------------------------------------------

  /** `write_marker`: the fields of a lifecycle marker; only a flush carries a database. */
  function MarkerFields(action: string, version: string, generation: string, db: Option<int>): seq<Field> {
    [TextField("action", action), TextField("module-version", version), TextField("generation", generation)]
    + if db.Some? then [TextField("db", SignedDecimal(db.value))] else []
  }

  lemma MarkerNamesDiffer()
    ensures "action" != "module-version" && "action" != "generation" && "action" != "db"
    ensures "module-version" != "generation" && "module-version" != "db" && "generation" != "db"
  {
    assert "action"[0] != "generation"[0] && "module-version"[0] != "generation"[0];
  }

  lemma MarkerMap(action: string, version: string, generation: string, db: Option<int>)
    ensures var m := Client.FieldMap(MarkerFields(action, version, generation, db));
            && "action" in m && m["action"] == Client.BulkString(Utf8.Encode(action))
            && "module-version" in m && m["module-version"] == Client.BulkString(Utf8.Encode(version))
            && ("db" in m <==> db.Some?)
            && (db.Some? ==> m["db"] == Client.BulkString(Utf8.Encode(SignedDecimal(db.value))))
  {
    var f := MarkerFields(action, version, generation, db);
    MarkerNamesDiffer();
    Client.FieldMap3(f[0], f[1], f[2]);
    if db.Some? {
      Client.FieldMap4(f[0], f[1], f[2], f[3]);
      assert f == [f[0], f[1], f[2], f[3]];
    } else {
      assert f == [f[0], f[1], f[2]];
    }
  }

  /** A marker the module writes comes out as the gap it announces, under any tag. */
  lemma MarkerDelivered(
    prefix: string, tag: Option<string>, id: string, action: string, version: string, generation: string,
    db: Option<int>, lossy: Lossy)
    requires ValidTag(tag) && IsLossy(lossy) && (db.Some? ==> Client.ValidDb(db.value))
    ensures var stream := StreamName(prefix, tag, "#control");
            DecodeRecord(prefix, stream, id, Client.FieldMap(MarkerFields(action, version, generation, db)), lossy)
              == Delivered(Gap(stream, id, action, Some(version), db))
  {
    assert ValidSuffix("#control");
    NameRoundTrip(prefix, tag, "#control");
    MarkerMap(action, version, generation, db);
    if db.Some? {
      ParseSignedDecimal(db.value, I64_MIN, I64_MAX);
    }
  }

  // ---------------------------------------------------------------------------------------------
  // Fields beside the event
  // ---------------------------------------------------------------------------------------------

  /** The last field written under a name is the one read back. */
  lemma LastField(fields: seq<Field>, f: Field)
    ensures f.name in Client.FieldMap(fields + [f])
    ensures Client.FieldMap(fields + [f])[f.name] == Client.BulkString(f.value)
  {
    Client.FieldMapPush(fields, f);
  }

  /** With sequence numbers on, every format carries the number it was given; json inside its document. */
  lemma SeqCarried(e: PendingEvent, n: nat)
    requires !e.format.JsonFormat?
    ensures Written(e, Some(n)).Some?
    ensures var m := Written(e, Some(n)).value;
            "seq" in m && m["seq"] == Client.BulkString(Utf8.Encode(Decimal(n)))
  {
    var f := EncodeEntryFields(SpecOf(e, Some(n))).value;
    var last := TextField("seq", Decimal(n));
    assert f == f[..|f| - 1] + [last];
    LastField(f[..|f| - 1], last);
  }

  lemma SeqInDocument(e: PendingEvent, n: nat)
    requires e.format.JsonFormat?
    ensures Written(e, Some(n)).Some?
    ensures var m, members := Written(e, Some(n)).value, DocumentItem(e.event, e.key, e.db, Some(n)).members;
            && "data" in m && m["data"].BulkString? && Utf8.Decode(m["data"].bytes).Some?
            && ParseDocument(Utf8.Decode(m["data"].bytes).value) == Some(JObject(members))
            && Client.FieldOf(members, "seq") == Some(JInt(n))
  {
    JsonMap(e, Some(n));
    var j := DocumentItem(e.event, e.key, e.db, Some(n));
    Utf8.RoundTrip(Print(j));
    DocumentParses(j);
    Client.NamesDiffer();
    assert j.members[3] == Member("seq", JInt(n));
    Client.FieldOfAt(j.members, 3);
  }

  /** A verbose entry names the delivered classes. */
  lemma ClassCarried(e: PendingEvent, seqno: Option<nat>)
    requires e.format.VerboseFormat?
    ensures Written(e, seqno).Some?
    ensures var m := Written(e, seqno).value;
            "class" in m && m["class"] == Client.BulkString(Utf8.Encode(ClassNames(e.classes)))
  {
    var f := EncodeEntryFields(SpecOf(e, seqno)).value;
    var classes := TextField("class", ClassNames(e.classes));
    assert f[..5] == f[..4] + [classes];
    LastField(f[..4], classes);
    Client.NamesDiffer();
    if seqno.Some? {
      assert f == f[..5] + [TextField("seq", Decimal(seqno.value))];
      Client.FieldMapPush(f[..5], TextField("seq", Decimal(seqno.value)));
    } else {
      assert f == f[..5];
    }
  }
}
