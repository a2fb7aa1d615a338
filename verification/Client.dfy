/** The reference client's entry decoder (crates/eventstream-client/src/lib.rs) against the module's encoders. */
module Client {
  import opened Bytes
  import opened Text
  import Utf8
  import Base64
  import opened Json
  import opened Events

  datatype Value = BulkString(bytes: seq<Byte>) | SimpleString(text: string) | IntValue(i: int) | OtherValue

  datatype PhysicalEntry = PhysicalEntry(stream: string, id: string, fields: map<string, Value>)

  datatype LogicalEvent = LogicalEvent(
    stream: string, entryId: string, envelopeIndex: Option<nat>,
    event: string, key: seq<Byte>, db: int, classes: Option<string>)

  datatype DecodeErrorKind =
    | MissingField(field: string)
    | InvalidFieldType(field: string)
    | InvalidUtf8(field: string)
    | InvalidInteger(field: string, text: string)
    | UnsupportedFormat(format: string)
    | InvalidJson
    | CountMismatch(declared: nat, decoded: nat)
    | InvalidBase64(envelopeIndex: nat)

  datatype Result<+T> = Success(value: T) | Failure(error: DecodeErrorKind)

  /** The field map Redis hands back for an entry written with `fields`. */
  function FieldMap(fields: seq<Field>): map<string, Value>
    decreases |fields|
  {
    if fields == [] then map[]
    else
      var last := fields[|fields| - 1];
      FieldMap(fields[..|fields| - 1])[last.name := BulkString(last.value)]
  }

  function Stored(stream: string, id: string, fields: seq<Field>): PhysicalEntry {
    PhysicalEntry(stream, id, FieldMap(fields))
  }

  // ---------------------------------------------------------------------------------------------
  // Field access
  // ---------------------------------------------------------------------------------------------

  function FieldBytes(entry: PhysicalEntry, name: string): Result<seq<Byte>> {
    if name !in entry.fields then Failure(MissingField(name))
    else match entry.fields[name]
      case BulkString(bytes) => Success(bytes)
      case SimpleString(text) => Success(Utf8.Encode(text))
      case _ => Failure(InvalidFieldType(name))
  }

  function FieldText(entry: PhysicalEntry, name: string): Result<string> {
    var bytes := FieldBytes(entry, name);
    if bytes.Failure? then Failure(bytes.error)
    else
      var text := Utf8.Decode(bytes.value);
      if text.None? then Failure(InvalidUtf8(name)) else Success(text.value)
  }

  function OptionalFieldText(entry: PhysicalEntry, name: string): Result<Option<string>> {
    if name !in entry.fields then Success(None)
    else
      var text := FieldText(entry, name);
      if text.Failure? then Failure(text.error) else Success(Some(text.value))
  }

  function IntegerField(entry: PhysicalEntry, name: string, lo: int, hi: int): (r: Result<int>)
    ensures r.Success? ==> lo <= r.value <= hi
  {
    var text := FieldText(entry, name);
    if text.Failure? then Failure(text.error)
    else
      var v := ParseInt(text.value, lo, hi);
      if v.None? then Failure(InvalidInteger(name, text.value)) else Success(v.value)
  }

  // ---------------------------------------------------------------------------------------------
  // Entries
  // ---------------------------------------------------------------------------------------------

  function DecodeFixed(entry: PhysicalEntry): Result<seq<LogicalEvent>> {
    var event := FieldText(entry, "event");
    if event.Failure? then Failure(event.error)
    else
      var key := FieldBytes(entry, "key");
      if key.Failure? then Failure(key.error)
      else
        var db := IntegerField(entry, "db", I64_MIN, I64_MAX);
        if db.Failure? then Failure(db.error)
        else
          var classes := OptionalFieldText(entry, "class");
          if classes.Failure? then Failure(classes.error)
          else Success([LogicalEvent(entry.stream, entry.id, None, event.value, key.value, db.value, classes.value)])
  }

  datatype BatchEvent = BatchEvent(event: string, key: string, db: int, classes: string)

  /** A struct field: present exactly once. */
  function FieldOf(members: seq<Member>, name: string): Option<Json> {
    if members == [] then None
    else if members[0].name != name then FieldOf(members[1..], name)
    else if exists i :: 1 <= i < |members| && members[i].name == name then None
    else Some(members[0].value)
  }

  function ReadBatchEvent(j: Json): Option<BatchEvent> {
    if !j.JObject? then None
    else
      var event, key, db, classes :=
        FieldOf(j.members, "event"), FieldOf(j.members, "key"), FieldOf(j.members, "db"), FieldOf(j.members, "class");
      if event.None? || key.None? || db.None? || classes.None? then None
      else if !event.value.JString? || !key.value.JString? || !db.value.JInt? || !classes.value.JString? then None
      else if !(I64_MIN <= db.value.i <= I64_MAX) then None
      else Some(BatchEvent(event.value.s, key.value.s, db.value.i, classes.value.s))
  }

  function ReadBatchEvents(items: seq<Json>): (r: Option<seq<BatchEvent>>)
    ensures r.Some? ==> |r.value| == |items|
  {
    if items == [] then Some([])
    else
      var head, tail := ReadBatchEvent(items[0]), ReadBatchEvents(items[1..]);
      if head.None? || tail.None? then None else Some([head.value] + tail.value)
  }

  /** Parsing the `events` document. */
  function ParseBatch(bytes: seq<Byte>): Option<seq<BatchEvent>> {
    var text := Utf8.Decode(bytes);
    if text.None? then None
    else
      var j := ParseDocument(text.value);
      if j.None? || !j.value.JArray? then None else ReadBatchEvents(j.value.items)
  }

  /** The logical events from index `i` on; the first undecodable key stops the walk. */
  function Expand(entry: PhysicalEntry, events: seq<BatchEvent>, i: nat): Result<seq<LogicalEvent>> {
    if events == [] then Success([])
    else
      var key := Base64.Decode(events[0].key);
      if key.None? then Failure(InvalidBase64(i))
      else
        var tail := Expand(entry, events[1..], i + 1);
        if tail.Failure? then Failure(tail.error)
        else Success([LogicalEvent(entry.stream, entry.id, Some(i), events[0].event, key.value, events[0].db,
                              Some(events[0].classes))] + tail.value)
  }

  function DecodeBatch(entry: PhysicalEntry): Result<seq<LogicalEvent>> {
    var declared := IntegerField(entry, "count", 0, U64_MAX);
    if declared.Failure? then Failure(declared.error)
    else
      var document := FieldBytes(entry, "events");
      if document.Failure? then Failure(document.error)
      else
        var events := ParseBatch(document.value);
        if events.None? then Failure(InvalidJson)
        else if declared.value != |events.value| then
          Failure(CountMismatch(declared.value, |events.value|))
        else Expand(entry, events.value, 0)
  }

  /** `decode_entry`. */
  function DecodeEntry(entry: PhysicalEntry): Result<seq<LogicalEvent>> {
    var format := OptionalFieldText(entry, "format");
    if format.Failure? then Failure(format.error)
    else if format.value.None? then DecodeFixed(entry)
    else if format.value.value == "batch-v1" then DecodeBatch(entry)
    else Failure(UnsupportedFormat(format.value.value))
  }

  // ---------------------------------------------------------------------------------------------
  // What was written is what is read
  // ---------------------------------------------------------------------------------------------

  /** The logical events an envelope stands for. */
  function Expected(stream: string, id: string, events: seq<PendingEvent>): (es: seq<LogicalEvent>)
    ensures |es| == |events|
  {
    seq(|events|, i requires 0 <= i < |events| =>
      LogicalEvent(stream, id, Some(i), events[i].event, events[i].key, events[i].db,
                   Some(ClassNames(events[i].classes))))
  }

  /** Databases are `i32` in the source. */
  predicate ValidDb(db: int) {
    -0x8000_0000 <= db <= 0x7FFF_FFFF
  }

  lemma FieldMapPush(fields: seq<Field>, f: Field)
    ensures FieldMap(fields + [f]) == FieldMap(fields)[f.name := BulkString(f.value)]
  {
    assert (fields + [f])[..|fields|] == fields;
  }

  lemma FieldMap3(a: Field, b: Field, c: Field)
    ensures FieldMap([a, b, c])
         == map[][a.name := BulkString(a.value)][b.name := BulkString(b.value)][c.name := BulkString(c.value)]
  {
    FieldMapPush([], a);
    FieldMapPush([] + [a], b);
    FieldMapPush([] + [a] + [b], c);
    assert [a, b, c] == [] + [a] + [b] + [c];
  }

  lemma FieldMap4(a: Field, b: Field, c: Field, d: Field)
    ensures FieldMap([a, b, c, d]) == FieldMap([a, b, c])[d.name := BulkString(d.value)]
  {
    FieldMapPush([a, b, c], d);
    assert [a, b, c, d] == [a, b, c] + [d];
  }

  lemma TextFieldReads(entry: PhysicalEntry, name: string, text: string)
    requires name in entry.fields && entry.fields[name] == BulkString(Utf8.Encode(text))
    ensures FieldText(entry, name) == Success(text) && OptionalFieldText(entry, name) == Success(Some(text))
  {
    Utf8.RoundTrip(text);
  }

  lemma NamesDiffer()
    ensures "event" != "key" && "event" != "db" && "event" != "class" && "event" != "seq" && "event" != "format"
    ensures "key" != "db" && "key" != "class" && "key" != "seq" && "key" != "format"
    ensures "db" != "class" && "db" != "seq" && "db" != "format"
    ensures "class" != "seq" && "class" != "format" && "seq" != "format"
    ensures "count" != "events" && "count" != "format" && "events" != "format"
  {
    assert "event"[0] != "class"[0];
    assert "key"[0] != "seq"[0];
    assert "count"[0] != "events"[0];
    assert "format"[0] != "events"[0];
  }

  lemma {:induction false} FieldOfAt(members: seq<Member>, i: nat)
    requires i < |members|
    requires forall j :: 0 <= j < |members| && j != i ==> members[j].name != members[i].name
    ensures FieldOf(members, members[i].name) == Some(members[i].value)
  {
    if i > 0 {
      assert members[1..][i - 1] == members[i];
      FieldOfAt(members[1..], i - 1);
    }
  }

  /** What the document parser makes of one envelope event. */
  function Batched(e: PendingEvent): BatchEvent {
    BatchEvent(e.event, Base64.Encode(e.key), e.db, ClassNames(e.classes))
  }

  lemma ReadsBatchItem(e: PendingEvent)
    requires ValidDb(e.db)
    ensures ReadBatchEvent(BatchItem(e)) == Some(Batched(e))
  {
    NamesDiffer();
    var m := BatchItem(e).members;
    FieldOfAt(m, 0);
    FieldOfAt(m, 1);
    FieldOfAt(m, 2);
    FieldOfAt(m, 3);
  }

  lemma {:induction false} ReadsBatchItems(events: seq<PendingEvent>)
    requires forall i :: 0 <= i < |events| ==> ValidDb(events[i].db)
    ensures ReadBatchEvents(BatchItems(events)).Some?
    ensures var r := ReadBatchEvents(BatchItems(events)).value;
            forall i :: 0 <= i < |events| ==> r[i] == Batched(events[i])
  {
    if events != [] {
      ReadsBatchItem(events[0]);
      ReadsBatchItems(events[1..]);
      assert BatchItems(events)[1..] == BatchItems(events[1..]);
    }
  }

  lemma {:induction false} ExpandsAll(
    entry: PhysicalEntry, batch: seq<BatchEvent>, events: seq<PendingEvent>, from: nat)
    requires |batch| == |events| && from <= |events|
    requires forall i :: 0 <= i < |events| ==> batch[i] == Batched(events[i])
    ensures Expand(entry, batch[from..], from) == Success(Expected(entry.stream, entry.id, events)[from..])
    decreases |batch| - from
  {
    var all := Expected(entry.stream, entry.id, events);
    if from < |batch| {
      Base64.RoundTrip(events[from].key);
      ExpandsAll(entry, batch, events, from + 1);
      assert batch[from..][0] == Batched(events[from]) && batch[from..][1..] == batch[from + 1..];
      assert all[from..] == [all[from]] + all[from + 1..];
    }
  }

  lemma BatchDocument(events: seq<PendingEvent>)
    ensures ParseBatch(Utf8.Encode(Print(JArray(BatchItems(events))))) == ReadBatchEvents(BatchItems(events))
  {
    var j := JArray(BatchItems(events));
    Utf8.RoundTrip(Print(j));
    DocumentParses(j);
  }

  lemma BatchFieldMap(events: seq<PendingEvent>)
    ensures var f, m := BatchFields(events), FieldMap(BatchFields(events));
            && "format" in m && m["format"] == BulkString(f[0].value)
            && "count" in m && m["count"] == BulkString(f[1].value)
            && "events" in m && m["events"] == BulkString(f[2].value)
  {
    var f := BatchFields(events);
    NamesDiffer();
    FieldMap3(f[0], f[1], f[2]);
    assert f == [f[0], f[1], f[2]];
  }

  /**
   batch-v1 round trip: decoding a stored envelope returns the same events, in order, with arbitrary
   binary keys and with indices 0..n-1.
   */
  lemma BatchRoundTrip(stream: string, id: string, events: seq<PendingEvent>)
    requires |events| <= U64_MAX && forall i :: 0 <= i < |events| ==> ValidDb(events[i].db)
    ensures DecodeEntry(Stored(stream, id, BatchFields(events))) == Success(Expected(stream, id, events))
  {
    var entry := Stored(stream, id, BatchFields(events));
    BatchFieldMap(events);
    TextFieldReads(entry, "format", "batch-v1");
    TextFieldReads(entry, "count", Decimal(|events|));
    ParseDecimal(|events|, 0, U64_MAX);
    BatchDocument(events);
    ReadsBatchItems(events);
    var batch := ReadBatchEvents(BatchItems(events)).value;
    ExpandsAll(entry, batch, events, 0);
    assert batch[0..] == batch;
    assert Expected(stream, id, events)[0..] == Expected(stream, id, events);
  }

  lemma FixedFieldMap(spec: EntrySpec)
    requires spec.format.FixedFormat?
    ensures var m := FieldMap(EncodeEntryFields(spec).value);
            && "event" in m && m["event"] == BulkString(spec.event)
            && "key" in m && m["key"] == BulkString(spec.key)
            && "db" in m && m["db"] == BulkString(Utf8.Encode(spec.db))
            && "class" !in m && "format" !in m
  {
    var f := EncodeEntryFields(spec).value;
    NamesDiffer();
    FieldMap3(f[0], f[1], f[2]);
    if spec.seqno.Some? {
      FieldMap4(f[0], f[1], f[2], f[3]);
      assert f == [f[0], f[1], f[2], f[3]];
    } else {
      assert f == [f[0], f[1], f[2]];
    }
  }

  /**
   A fixed entry, with or without `seq`, decodes to its event exactly when the event name is UTF-8; a
   name that is not is reported against its field.
   */
  lemma FixedRoundTrip(stream: string, id: string, spec: EntrySpec, db: int)
    requires spec.format.FixedFormat? && spec.db == SignedDecimal(db) && ValidDb(db)
    ensures DecodeEntry(Stored(stream, id, EncodeEntryFields(spec).value))
         == var event := Utf8.Decode(spec.event);
            if event.None? then Failure(InvalidUtf8("event"))
            else Success([LogicalEvent(stream, id, None, event.value, spec.key, db, None)])
  {
    var entry := Stored(stream, id, EncodeEntryFields(spec).value);
    FixedFieldMap(spec);
    TextFieldReads(entry, "db", spec.db);
    ParseSignedDecimal(db, I64_MIN, I64_MAX);
  }

  function FormatName(format: EntryFormat): string
    requires !format.FixedFormat?
  {
    match format
    case MinimalFormat => "minimal"
    case VerboseFormat => "verbose"
    case JsonFormat => "json"
  }

  lemma {:induction false} FirstFieldStays(fields: seq<Field>)
    requires fields != [] && forall i :: 1 <= i < |fields| ==> fields[i].name != fields[0].name
    ensures fields[0].name in FieldMap(fields) && FieldMap(fields)[fields[0].name] == BulkString(fields[0].value)
    decreases |fields|
  {
    if |fields| > 1 {
      FirstFieldStays(fields[..|fields| - 1]);
    }
  }

  predicate IsEntryField(name: string) {
    name == "event" || name == "key" || name == "db" || name == "class" || name == "seq" || name == "data"
  }

  lemma LaterNames(spec: EntrySpec)
    requires !spec.format.FixedFormat? && EncodeEntryFields(spec).Some?
    ensures var f := EncodeEntryFields(spec).value; forall i :: 1 <= i < |f| ==> IsEntryField(f[i].name)
  {
    match spec.format
    case JsonFormat =>
    case MinimalFormat =>
    case VerboseFormat =>
  }

  lemma OneFormatField(spec: EntrySpec)
    requires !spec.format.FixedFormat? && EncodeEntryFields(spec).Some?
    ensures var m := FieldMap(EncodeEntryFields(spec).value);
            "format" in m && m["format"] == BulkString(Utf8.Encode(FormatName(spec.format)))
  {
    var f := EncodeEntryFields(spec).value;
    NamesDiffer();
    assert "data"[0] != "format"[0];
    assert !IsEntryField("format");
    LaterNames(spec);
    assert f[0] == TextField("format", FormatName(spec.format));
    FirstFieldStays(f);
  }

  lemma NotBatch(format: EntryFormat)
    requires !format.FixedFormat?
    ensures FormatName(format) != "batch-v1"
  {
    assert FormatName(format)[0] != "batch-v1"[0];
  }

  /** Every other entry format is rejected by name rather than mistaken for a fixed entry. */
  lemma OtherFormatsRejected(stream: string, id: string, spec: EntrySpec)
    requires !spec.format.FixedFormat? && EncodeEntryFields(spec).Some?
    ensures DecodeEntry(Stored(stream, id, EncodeEntryFields(spec).value))
         == Failure(UnsupportedFormat(FormatName(spec.format)))
  {
    var f := EncodeEntryFields(spec).value;
    OneFormatField(spec);
    TextFieldReads(Stored(stream, id, f), "format", FormatName(spec.format));
    NotBatch(spec.format);
  }
}
