/** The webhook sink's record decoder (examples/webhook-sink/src/lib.rs) against all four entry formats. */
module Sink {
  import opened Bytes
  import opened Text
  import Utf8
  import Base64
  import opened Json
  import opened Events
  import opened Names
  import Client

  datatype OutboundRecord =
    | Event(stream: string, id: string, event: string, keyBase64: string, db: int)
    | Gap(stream: string, id: string, action: string, moduleVersion: Option<string>, dbnum: Option<int>)

  datatype SinkError =
    | MissingAction | MissingData | InvalidJsonEntry | InvalidBase64Key
    | NoEventIdentity | MissingKey | MissingDb | InvalidDb(text: string) | UnsupportedFormat(format: string)

  datatype Outcome = Delivered(record: OutboundRecord) | Rejected(error: SinkError)

  /** `String::from_utf8_lossy`: some replacement of malformed bytes that leaves well-formed text alone. */
  ghost predicate IsLossy(lossy: seq<Byte> -> string) {
    forall s: string :: lossy(Utf8.Encode(s)) == s
  }

  function FieldBytes(fields: map<string, Client.Value>, name: string): Option<seq<Byte>> {
    if name !in fields then None
    else match fields[name]
      case BulkString(bytes) => Some(bytes)
      case SimpleString(text) => Some(Utf8.Encode(text))
      case IntValue(i) => Some(Utf8.Encode(SignedDecimal(i)))
      case OtherValue => None
  }

  function FieldText(fields: map<string, Client.Value>, name: string, lossy: seq<Byte> -> string): Option<string> {
    var bytes := FieldBytes(fields, name);
    if bytes.None? then None else Some(lossy(bytes.value))
  }

  datatype JsonEntry = JsonEntry(event: string, key: string, db: int)

  /** Parsing the `data` document; members the sink does not name are ignored. */
  function ReadEntry(document: seq<Byte>): Option<JsonEntry> {
    var text := Utf8.Decode(document);
    if text.None? then None
    else
      var j := ParseDocument(text.value);
      if j.None? || !j.value.JObject? then None
      else
        var event, key, db :=
          Client.FieldOf(j.value.members, "event"), Client.FieldOf(j.value.members, "key"),
          Client.FieldOf(j.value.members, "db");
        if event.None? || key.None? || db.None? then None
        else if !event.value.JString? || !key.value.JString? || !db.value.JInt? then None
        else if !(I64_MIN <= db.value.i <= I64_MAX) then None
        else Some(JsonEntry(event.value.s, key.value.s, db.value.i))
  }

  function DecodeJson(stream: string, id: string, fields: map<string, Client.Value>): Outcome {
    var document := FieldBytes(fields, "data");
    if document.None? then Rejected(MissingData)
    else
      var entry := ReadEntry(document.value);
      if entry.None? then Rejected(InvalidJsonEntry)
      else
        var key := Base64.Decode(entry.value.key);
        if key.None? then Rejected(InvalidBase64Key)
        else Delivered(Event(stream, id, entry.value.event, Base64.Encode(key.value), entry.value.db))
  }

  function DecodeFields(prefix: string, stream: string, id: string, fields: map<string, Client.Value>,
                        lossy: seq<Byte> -> string): Outcome
  {
    var named := FieldText(fields, "event", lossy);
    var event := if named.Some? then named else EventName(prefix, stream);
    if event.None? || StartsWith(event.value, "#") then Rejected(NoEventIdentity)
    else
      var key := FieldBytes(fields, "key");
      if key.None? then Rejected(MissingKey)
      else
        var text := FieldText(fields, "db", lossy);
        if text.None? then Rejected(MissingDb)
        else
          var db := ParseInt(text.value, I64_MIN, I64_MAX);
          if db.None? then Rejected(InvalidDb(text.value))
          else Delivered(Event(stream, id, event.value, Base64.Encode(key.value), db.value))
  }

  function DecodeMarker(
    stream: string, id: string, fields: map<string, Client.Value>, lossy: seq<Byte> -> string): Outcome
  {
    var action := FieldText(fields, "action", lossy);
    if action.None? then Rejected(MissingAction)
    else
      var db := FieldText(fields, "db", lossy);
      Delivered(Gap(stream, id, action.value, FieldText(fields, "module-version", lossy),
                    if db.None? then None else ParseInt(db.value, I64_MIN, I64_MAX)))
  }

  /** `decode_record`. */
  function DecodeRecord(prefix: string, stream: string, id: string, fields: map<string, Client.Value>,
                        lossy: seq<Byte> -> string): Outcome
  {
    if EventName(prefix, stream) == Some("#control") then DecodeMarker(stream, id, fields, lossy)
    else
      var found := FieldText(fields, "format", lossy);
      var format := if found.None? then "fixed" else found.value;
      if format == "json" then DecodeJson(stream, id, fields)
      else if format == "fixed" || format == "minimal" || format == "verbose" then
        DecodeFields(prefix, stream, id, fields, lossy)
      else Rejected(UnsupportedFormat(format))
  }

  // ---------------------------------------------------------------------------------------------
  // Recovering what was written
  // ---------------------------------------------------------------------------------------------

  /** The entry of a pending event as the sink reads it. */
  function Written(e: PendingEvent, seqno: Option<nat>): Option<map<string, Client.Value>> {
    var fields := EncodeEntryFields(SpecOf(e, seqno));
    if fields.None? then None else Some(Client.FieldMap(fields.value))
  }

  /** The event name the sink can recover: only `minimal` has to read it off the stream name. */
  function RecoveredName(e: PendingEvent): string {
    if e.format.MinimalFormat? then Sanitize(e.event) else e.event
  }

  /** Three fields that the optional last field does not overwrite, and a name none of them carries. */
  lemma ThreeFields(a: Field, b: Field, c: Field, last: seq<Field>, absent: string)
    requires a.name != b.name && a.name != c.name && b.name != c.name && |last| <= 1
    requires absent != a.name && absent != b.name && absent != c.name
    requires last != [] ==>
      last[0].name != a.name && last[0].name != b.name && last[0].name != c.name && last[0].name != absent
    ensures var m := Client.FieldMap([a, b, c] + last);
            && a.name in m && m[a.name] == Client.BulkString(a.value)
            && b.name in m && m[b.name] == Client.BulkString(b.value)
            && c.name in m && m[c.name] == Client.BulkString(c.value)
            && absent !in m
  {
    Client.FieldMap3(a, b, c);
    if last == [] {
      assert [a, b, c] + last == [a, b, c];
    } else {
      Client.FieldMapPush([a, b, c], last[0]);
      assert last == [last[0]];
    }
  }

  lemma MinimalMap(e: PendingEvent, seqno: Option<nat>)
    requires e.format.MinimalFormat?
    ensures Written(e, seqno).Some?
    ensures var m := Written(e, seqno).value;
            && "format" in m && m["format"] == Client.BulkString(Utf8.Encode("minimal"))
            && "event" !in m
            && "key" in m && m["key"] == Client.BulkString(e.key)
            && "db" in m && m["db"] == Client.BulkString(Utf8.Encode(SignedDecimal(e.db)))
  {
    var f := EncodeEntryFields(SpecOf(e, seqno)).value;
    Client.NamesDiffer();
    ThreeFields(f[0], f[1], f[2], SeqField(seqno), "event");
    assert f == [f[0], f[1], f[2]] + SeqField(seqno);
  }

  /** Four fields that neither the fifth nor the optional last field overwrites. */
  lemma FiveFields(a: Field, b: Field, c: Field, d: Field, e: Field, last: seq<Field>)
    requires a.name != b.name && a.name != c.name && a.name != d.name && a.name != e.name
    requires b.name != c.name && b.name != d.name && b.name != e.name
    requires c.name != d.name && c.name != e.name && d.name != e.name
    requires |last| <= 1
    requires last != [] ==>
      last[0].name != a.name && last[0].name != b.name && last[0].name != c.name && last[0].name != d.name
    ensures var m := Client.FieldMap([a, b, c, d, e] + last);
            && a.name in m && m[a.name] == Client.BulkString(a.value)
            && b.name in m && m[b.name] == Client.BulkString(b.value)
            && c.name in m && m[c.name] == Client.BulkString(c.value)
            && d.name in m && m[d.name] == Client.BulkString(d.value)
  {
    Client.FieldMap3(a, b, c);
    Client.FieldMap4(a, b, c, d);
    Client.FieldMapPush([a, b, c, d], e);
    assert [a, b, c, d, e] == [a, b, c, d] + [e];
    if last == [] {
      assert [a, b, c, d, e] + last == [a, b, c, d, e];
    } else {
      Client.FieldMapPush([a, b, c, d, e], last[0]);
      assert last == [last[0]];
    }
  }

  lemma VerboseMap(e: PendingEvent, seqno: Option<nat>)
    requires e.format.VerboseFormat?
    ensures Written(e, seqno).Some?
    ensures var m := Written(e, seqno).value;
            && "format" in m && m["format"] == Client.BulkString(Utf8.Encode("verbose"))
            && "event" in m && m["event"] == Client.BulkString(Utf8.Encode(e.event))
            && "key" in m && m["key"] == Client.BulkString(e.key)
            && "db" in m && m["db"] == Client.BulkString(Utf8.Encode(SignedDecimal(e.db)))
  {
    var f := EncodeEntryFields(SpecOf(e, seqno)).value;
    Client.NamesDiffer();
    FiveFields(f[0], f[1], f[2], f[3], f[4], SeqField(seqno));
    assert f == [f[0], f[1], f[2], f[3], f[4]] + SeqField(seqno);
  }

  lemma JsonMap(e: PendingEvent, seqno: Option<nat>)
    requires e.format.JsonFormat?
    ensures Written(e, seqno).Some?
    ensures var m := Written(e, seqno).value;
            && "format" in m && m["format"] == Client.BulkString(Utf8.Encode("json"))
            && "data" in m
            && m["data"] == Client.BulkString(Utf8.Encode(Print(DocumentItem(e.event, e.key, e.db, seqno))))
  {
    Utf8.RoundTrip(e.event);
    DocumentPrints(e.event, e.key, e.db, seqno);
    var f := EncodeEntryFields(SpecOf(e, seqno)).value;
    assert "data"[0] != "format"[0];
    Client.FieldMapPush([], f[0]);
    Client.FieldMapPush([] + [f[0]], f[1]);
    assert [] + [f[0]] + [f[1]] == f;
  }

  lemma ReadsDocument(e: PendingEvent, seqno: Option<nat>)
    requires Client.ValidDb(e.db)
    ensures ReadEntry(Utf8.Encode(Print(DocumentItem(e.event, e.key, e.db, seqno))))
         == Some(JsonEntry(e.event, Base64.Encode(e.key), e.db))
  {
    var j := DocumentItem(e.event, e.key, e.db, seqno);
    Utf8.RoundTrip(Print(j));
    DocumentParses(j);
    Client.NamesDiffer();
    var m := j.members;
    Client.FieldOfAt(m, 0);
    Client.FieldOfAt(m, 1);
    Client.FieldOfAt(m, 2);
  }

  /** A data stream is never taken for the control stream, and its name gives the sanitized event. */
  lemma DataStream(prefix: string, tag: Option<string>, event: string)
    requires ValidTag(tag)
    ensures EventName(prefix, StreamName(prefix, tag, Sanitize(event))) == Some(Sanitize(event))
    ensures Sanitize(event) != "#control" && !StartsWith(Sanitize(event), "#")
  {
    NameRoundTrip(prefix, tag, Sanitize(event));
    if Sanitize(event) != "" {
      assert IsNameChar(Sanitize(event)[0]);
      assert Sanitize(event)[..1][0] == Sanitize(event)[0];
    }
    assert "#control"[0] == '#';
  }

  /** What the sink makes of an entry whose fields are read directly. */
  lemma DirectFields(prefix: string, stream: string, id: string, fields: map<string, Client.Value>,
                     lossy: seq<Byte> -> string, name: string, key: seq<Byte>, db: int)
    requires IsLossy(lossy) && Client.ValidDb(db)
    requires if "event" in fields then fields["event"] == Client.BulkString(Utf8.Encode(name))
             else EventName(prefix, stream) == Some(name)
    requires "key" in fields && fields["key"] == Client.BulkString(key)
    requires "db" in fields && fields["db"] == Client.BulkString(Utf8.Encode(SignedDecimal(db)))
    ensures DecodeFields(prefix, stream, id, fields, lossy)
         == if StartsWith(name, "#") then Rejected(NoEventIdentity)
            else Delivered(Event(stream, id, name, Base64.Encode(key), db))
  {
    ParseSignedDecimal(db, I64_MIN, I64_MAX);
  }

  lemma FormatNamesDiffer()
    ensures "json" != "fixed" && "json" != "minimal" && "json" != "verbose"
  {
    assert "json"[0] != "fixed"[0];
  }

  lemma FixedRecord(
    prefix: string, stream: string, id: string, e: PendingEvent, seqno: Option<nat>, lossy: seq<Byte> -> string)
    requires e.format.FixedFormat? && IsLossy(lossy) && Client.ValidDb(e.db)
    requires EventName(prefix, stream) != Some("#control")
    ensures Written(e, seqno).Some?
    ensures DecodeRecord(prefix, stream, id, Written(e, seqno).value, lossy)
         == if StartsWith(e.event, "#") then Rejected(NoEventIdentity)
            else Delivered(Event(stream, id, e.event, Base64.Encode(e.key), e.db))
  {
    Client.FixedFieldMap(SpecOf(e, seqno));
    FormatNamesDiffer();
    DirectFields(prefix, stream, id, Written(e, seqno).value, lossy, e.event, e.key, e.db);
  }

  lemma VerboseRecord(
    prefix: string, stream: string, id: string, e: PendingEvent, seqno: Option<nat>, lossy: seq<Byte> -> string)
    requires e.format.VerboseFormat? && IsLossy(lossy) && Client.ValidDb(e.db)
    requires EventName(prefix, stream) != Some("#control")
    ensures Written(e, seqno).Some?
    ensures DecodeRecord(prefix, stream, id, Written(e, seqno).value, lossy)
         == if StartsWith(e.event, "#") then Rejected(NoEventIdentity)
            else Delivered(Event(stream, id, e.event, Base64.Encode(e.key), e.db))
  {
    VerboseMap(e, seqno);
    FormatNamesDiffer();
    DirectFields(prefix, stream, id, Written(e, seqno).value, lossy, e.event, e.key, e.db);
  }

  lemma MinimalRecord(
    prefix: string, stream: string, id: string, e: PendingEvent, seqno: Option<nat>, lossy: seq<Byte> -> string)
    requires e.format.MinimalFormat? && IsLossy(lossy) && Client.ValidDb(e.db)
    requires EventName(prefix, stream) == Some(Sanitize(e.event)) != Some("#control")
    requires !StartsWith(Sanitize(e.event), "#")
    ensures Written(e, seqno).Some?
    ensures DecodeRecord(prefix, stream, id, Written(e, seqno).value, lossy)
         == Delivered(Event(stream, id, Sanitize(e.event), Base64.Encode(e.key), e.db))
  {
    MinimalMap(e, seqno);
    FormatNamesDiffer();
    DirectFields(prefix, stream, id, Written(e, seqno).value, lossy, Sanitize(e.event), e.key, e.db);
  }

  lemma JsonRecord(
    prefix: string, stream: string, id: string, e: PendingEvent, seqno: Option<nat>, lossy: seq<Byte> -> string)
    requires e.format.JsonFormat? && IsLossy(lossy) && Client.ValidDb(e.db)
    requires EventName(prefix, stream) != Some("#control")
    ensures Written(e, seqno).Some?
    ensures DecodeRecord(prefix, stream, id, Written(e, seqno).value, lossy)
         == Delivered(Event(stream, id, e.event, Base64.Encode(e.key), e.db))
  {
    JsonMap(e, seqno);
    ReadsDocument(e, seqno);
    Base64.RoundTrip(e.key);
  }

  /**
   Every entry the module writes to a data stream, in whichever format, is delivered with its own key
   and database and with the event name the format can carry; the one exception is a fixed or verbose
   entry whose event name begins with `#`, which the sink refuses.
   */
  lemma SinkRecovers(prefix: string, tag: Option<string>, id: string, e: PendingEvent, seqno: Option<nat>,
                     lossy: seq<Byte> -> string)
    requires ValidTag(tag) && Client.ValidDb(e.db) && IsLossy(lossy)
    ensures Written(e, seqno).Some?
    ensures var stream := StreamName(prefix, tag, Sanitize(e.event));
            DecodeRecord(prefix, stream, id, Written(e, seqno).value, lossy)
            == if StartsWith(e.event, "#") && (e.format.FixedFormat? || e.format.VerboseFormat?)
               then Rejected(NoEventIdentity)
               else Delivered(Event(stream, id, RecoveredName(e), Base64.Encode(e.key), e.db))
  {
    var stream := StreamName(prefix, tag, Sanitize(e.event));
    DataStream(prefix, tag, e.event);
    match e.format
    case FixedFormat => FixedRecord(prefix, stream, id, e, seqno, lossy);
    case VerboseFormat => VerboseRecord(prefix, stream, id, e, seqno, lossy);
    case MinimalFormat => MinimalRecord(prefix, stream, id, e, seqno, lossy);
    case JsonFormat => JsonRecord(prefix, stream, id, e, seqno, lossy);
  }

  /** A name the sanitizer leaves alone survives every format. */
  lemma PlainNamesSurvive(prefix: string, tag: Option<string>, id: string, e: PendingEvent, seqno: Option<nat>,
                          lossy: seq<Byte> -> string)
    requires ValidTag(tag) && Client.ValidDb(e.db) && IsLossy(lossy) && Sanitize(e.event) == e.event
    ensures Written(e, seqno).Some?
    ensures var stream := StreamName(prefix, tag, e.event);
            DecodeRecord(prefix, stream, id, Written(e, seqno).value, lossy)
            == Delivered(Event(stream, id, e.event, Base64.Encode(e.key), e.db))
  {
    SinkRecovers(prefix, tag, id, e, seqno, lossy);
    DataStream(prefix, tag, e.event);
  }
}
