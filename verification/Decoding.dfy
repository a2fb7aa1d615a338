/**
 Which entries the reference client decodes, for any field map at all (crates/eventstream-client/src/lib.rs): the
 decoder against a relation between an entry and the events it stands for, and what it reports otherwise.
 */
module Decoding {
  import opened Bytes
  import opened Text
  import Utf8
  import Base64
  import opened Json
  import opened Client

  /** The field carries these bytes: as a bulk string, or as a simple string. */
  predicate Carries(entry: PhysicalEntry, name: string, bytes: seq<Byte>) {
    && name in entry.fields
    && match entry.fields[name]
       case BulkString(b) => b == bytes
       case SimpleString(t) => Utf8.Encode(t) == bytes
       case _ => false
  }

  predicate Reads(entry: PhysicalEntry, name: string, text: string) {
    Carries(entry, name, Utf8.Encode(text))
  }

  ghost predicate ReadsInt(entry: PhysicalEntry, name: string, lo: int, hi: int, v: int) {
    exists text :: Reads(entry, name, text) && ParseInt(text, lo, hi) == Some(v)
  }

  /** An entry without a format stands for one event. */
  ghost predicate SaysFixed(entry: PhysicalEntry, e: LogicalEvent) {
    && e.stream == entry.stream && e.entryId == entry.id && e.envelopeIndex == None
    && Reads(entry, "event", e.event) && Carries(entry, "key", e.key)
    && ReadsInt(entry, "db", I64_MIN, I64_MAX, e.db)
    && if "class" in entry.fields then e.classes.Some? && Reads(entry, "class", e.classes.value) else e.classes == None
  }

  /** The `i`-th object of an envelope's array stands for this event. */
  predicate SaysItem(entry: PhysicalEntry, item: Json, i: nat, e: LogicalEvent) {
    && e.stream == entry.stream && e.entryId == entry.id && e.envelopeIndex == Some(i)
    && item.JObject? && I64_MIN <= e.db <= I64_MAX && e.classes.Some?
    && FieldOf(item.members, "event") == Some(JString(e.event))
    && FieldOf(item.members, "key") == Some(JString(Base64.Encode(e.key)))
    && FieldOf(item.members, "db") == Some(JInt(e.db))
    && FieldOf(item.members, "class") == Some(JString(e.classes.value))
  }

  predicate SaysItems(entry: PhysicalEntry, items: seq<Json>, from: nat, es: seq<LogicalEvent>) {
    |items| == |es| && forall i :: 0 <= i < |es| ==> SaysItem(entry, items[i], from + i, es[i])
  }

  /** The document under `events` is an array with these items. */
  ghost predicate Lists(entry: PhysicalEntry, items: seq<Json>) {
    exists text :: Reads(entry, "events", text) && ParseDocument(text) == Some(JArray(items))
  }

  /** An envelope stands for the events of its document, as many as it declares. */
  ghost predicate SaysBatch(entry: PhysicalEntry, es: seq<LogicalEvent>) {
    && ReadsInt(entry, "count", 0, U64_MAX, |es|)
    && exists items :: Lists(entry, items) && SaysItems(entry, items, 0, es)
  }

  ghost predicate Says(entry: PhysicalEntry, es: seq<LogicalEvent>) {
    if "format" !in entry.fields then |es| == 1 && SaysFixed(entry, es[0])
    else Reads(entry, "format", "batch-v1") && SaysBatch(entry, es)
  }

  // ---------------------------------------------------------------------------------------------
  // Fields
  // ---------------------------------------------------------------------------------------------

  lemma BytesIff(entry: PhysicalEntry, name: string, bytes: seq<Byte>)
    ensures FieldBytes(entry, name) == Success(bytes) <==> Carries(entry, name, bytes)
  {
  }

  lemma TextIff(entry: PhysicalEntry, name: string, text: string)
    ensures FieldText(entry, name) == Success(text) <==> Reads(entry, name, text)
  {
    BytesIff(entry, name, Utf8.Encode(text));
    var bytes := FieldBytes(entry, name);
    if bytes.Success? {
      Utf8.DecodeIff(bytes.value, text);
    }
  }

  lemma IntIff(entry: PhysicalEntry, name: string, lo: int, hi: int, v: int)
    ensures IntegerField(entry, name, lo, hi) == Success(v) <==> ReadsInt(entry, name, lo, hi, v)
  {
    var read := FieldText(entry, name);
    if read.Success? {
      TextIff(entry, name, read.value);
    }
    if ReadsInt(entry, name, lo, hi, v) {
      var text :| Reads(entry, name, text) && ParseInt(text, lo, hi) == Some(v);
      TextIff(entry, name, text);
    }
  }

  // ---------------------------------------------------------------------------------------------
  // Entries
  // ---------------------------------------------------------------------------------------------

  lemma FixedIff(entry: PhysicalEntry, e: LogicalEvent)
    ensures DecodeFixed(entry) == Success([e]) <==> SaysFixed(entry, e)
  {
    TextIff(entry, "event", e.event);
    BytesIff(entry, "key", e.key);
    IntIff(entry, "db", I64_MIN, I64_MAX, e.db);
    if e.classes.Some? {
      TextIff(entry, "class", e.classes.value);
    }
    var event, key := FieldText(entry, "event"), FieldBytes(entry, "key");
    var db := IntegerField(entry, "db", I64_MIN, I64_MAX);
    if DecodeFixed(entry) == Success([e]) {
      assert [e][0] == DecodeFixed(entry).value[0];
      assert event == Success(e.event) && key == Success(e.key) && db == Success(e.db);
    }
  }

  lemma ItemIff(entry: PhysicalEntry, item: Json, i: nat, e: LogicalEvent)
    ensures SaysItem(entry, item, i, e) <==>
            && ReadBatchEvent(item).Some? && Base64.Decode(ReadBatchEvent(item).value.key) == Some(e.key)
            && var b := ReadBatchEvent(item).value;
               e == LogicalEvent(entry.stream, entry.id, Some(i), b.event, e.key, b.db, Some(b.classes))
  {
    if ReadBatchEvent(item).Some? {
      Base64.DecodeIff(ReadBatchEvent(item).value.key, e.key);
    }
    if SaysItem(entry, item, i, e) {
      Base64.DecodeIff(Base64.Encode(e.key), e.key);
    }
  }

  lemma {:induction false} ItemsIff(entry: PhysicalEntry, items: seq<Json>, from: nat, es: seq<LogicalEvent>)
    ensures SaysItems(entry, items, from, es) <==>
            ReadBatchEvents(items).Some? && Expand(entry, ReadBatchEvents(items).value, from) == Success(es)
    decreases |items|
  {
    if items == [] {
      assert SaysItems(entry, items, from, es) <==> es == [];
    } else if es == [] {
    } else {
      ItemsCons(entry, items, from, es);
      ItemIff(entry, items[0], from, es[0]);
      ItemsIff(entry, items[1..], from + 1, es[1..]);
      ExpandCons(entry, items, from, es);
    }
  }

  lemma ItemsCons(entry: PhysicalEntry, items: seq<Json>, from: nat, es: seq<LogicalEvent>)
    requires items != [] && es != []
    ensures SaysItems(entry, items, from, es) <==>
            SaysItem(entry, items[0], from, es[0]) && SaysItems(entry, items[1..], from + 1, es[1..])
  {
    if SaysItem(entry, items[0], from, es[0]) && SaysItems(entry, items[1..], from + 1, es[1..]) {
      forall i | 0 <= i < |es|
        ensures SaysItem(entry, items[i], from + i, es[i])
      {
        if i > 0 {
          assert items[i] == items[1..][i - 1] && es[i] == es[1..][i - 1];
          assert SaysItem(entry, items[1..][i - 1], from + 1 + (i - 1), es[1..][i - 1]);
        }
      }
    }
    if SaysItems(entry, items, from, es) {
      assert SaysItem(entry, items[0], from + 0, es[0]);
      forall i | 0 <= i < |es[1..]|
        ensures SaysItem(entry, items[1..][i], from + 1 + i, es[1..][i])
      {
        assert SaysItem(entry, items[i + 1], from + (i + 1), es[i + 1]);
      }
    }
  }

  lemma ExpandCons(entry: PhysicalEntry, items: seq<Json>, from: nat, es: seq<LogicalEvent>)
    requires items != [] && es != []
    ensures var all, head, tail := ReadBatchEvents(items), ReadBatchEvent(items[0]), ReadBatchEvents(items[1..]);
            (all.Some? && Expand(entry, all.value, from) == Success(es)) <==>
            && head.Some? && Base64.Decode(head.value.key) == Some(es[0].key)
            && es[0] == LogicalEvent(entry.stream, entry.id, Some(from), head.value.event, es[0].key, head.value.db,
                                     Some(head.value.classes))
            && tail.Some? && Expand(entry, tail.value, from + 1) == Success(es[1..])
  {
    var all := ReadBatchEvents(items);
    if all.Some? {
      assert all.value[0] == ReadBatchEvent(items[0]).value && all.value[1..] == ReadBatchEvents(items[1..]).value;
    }
    assert es == [es[0]] + es[1..];
  }

  lemma ListsIff(entry: PhysicalEntry, items: seq<Json>)
    ensures Lists(entry, items) <==>
            && FieldBytes(entry, "events").Success?
            && Utf8.Decode(FieldBytes(entry, "events").value).Some?
            && ParseDocument(Utf8.Decode(FieldBytes(entry, "events").value).value) == Some(JArray(items))
  {
    var bytes := FieldBytes(entry, "events");
    if bytes.Success? && Utf8.Decode(bytes.value).Some? {
      var text := Utf8.Decode(bytes.value).value;
      Utf8.DecodeIff(bytes.value, text);
      BytesIff(entry, "events", bytes.value);
      assert Reads(entry, "events", text);
    }
    if Lists(entry, items) {
      var text :| Reads(entry, "events", text) && ParseDocument(text) == Some(JArray(items));
      BytesIff(entry, "events", Utf8.Encode(text));
      Utf8.RoundTrip(text);
    }
  }

  lemma BatchIff(entry: PhysicalEntry, es: seq<LogicalEvent>)
    ensures DecodeBatch(entry) == Success(es) <==> SaysBatch(entry, es)
  {
    IntIff(entry, "count", 0, U64_MAX, |es|);
    if DecodeBatch(entry) == Success(es) {
      var text := Utf8.Decode(FieldBytes(entry, "events").value).value;
      var items := ParseDocument(text).value.items;
      ListsIff(entry, items);
      ItemsIff(entry, items, 0, es);
    }
    if SaysBatch(entry, es) {
      var items :| Lists(entry, items) && SaysItems(entry, items, 0, es);
      ListsIff(entry, items);
      ItemsIff(entry, items, 0, es);
    }
  }

  lemma BatchChosen(entry: PhysicalEntry)
    requires Reads(entry, "format", "batch-v1")
    ensures DecodeEntry(entry) == DecodeBatch(entry)
  {
    TextIff(entry, "format", "batch-v1");
  }

  lemma OthersFail(entry: PhysicalEntry)
    requires "format" in entry.fields && !Reads(entry, "format", "batch-v1")
    ensures DecodeEntry(entry).Failure?
  {
    TextIff(entry, "format", "batch-v1");
  }

  /** The client decodes an entry to these events exactly when the entry stands for them. */
  lemma DecodesExactly(entry: PhysicalEntry, es: seq<LogicalEvent>)
    ensures DecodeEntry(entry) == Success(es) <==> Says(entry, es)
  {
    if "format" !in entry.fields {
      if |es| == 1 {
        assert es == [es[0]];
        FixedIff(entry, es[0]);
      }
    } else if Reads(entry, "format", "batch-v1") {
      BatchChosen(entry);
      BatchIff(entry, es);
    } else {
      OthersFail(entry);
    }
  }

  // ---------------------------------------------------------------------------------------------
  // Refusals
  // ---------------------------------------------------------------------------------------------

  /** Any other format is named. */
  lemma OtherFormat(entry: PhysicalEntry, format: string)
    requires Reads(entry, "format", format) && format != "batch-v1"
    ensures DecodeEntry(entry) == Failure(UnsupportedFormat(format))
  {
    TextIff(entry, "format", format);
  }

  /** An envelope whose count is not the length of its document is refused with both numbers. */
  lemma CountsDisagree(entry: PhysicalEntry, declared: nat, items: seq<Json>)
    requires Reads(entry, "format", "batch-v1") && ReadsInt(entry, "count", 0, U64_MAX, declared)
    requires Lists(entry, items) && ReadBatchEvents(items).Some? && declared != |items|
    ensures DecodeEntry(entry) == Failure(CountMismatch(declared, |items|))
  {
    BatchChosen(entry);
    Disagreement(entry, declared, items);
  }

  lemma Disagreement(entry: PhysicalEntry, declared: nat, items: seq<Json>)
    requires ReadsInt(entry, "count", 0, U64_MAX, declared)
    requires Lists(entry, items) && ReadBatchEvents(items).Some? && declared != |items|
    ensures DecodeBatch(entry) == Failure(CountMismatch(declared, |items|))
  {
    IntIff(entry, "count", 0, U64_MAX, declared);
    ListsIff(entry, items);
  }

  /** A key that is not base64 is reported at the first index where there is one. */
  lemma {:induction false} FirstBadKey(entry: PhysicalEntry, events: seq<BatchEvent>, from: nat, i: nat)
    requires i < |events| && Base64.Decode(events[i].key) == None
    requires forall j :: 0 <= j < i ==> Base64.Decode(events[j].key).Some?
    ensures Expand(entry, events, from) == Failure(InvalidBase64(from + i))
    decreases i
  {
    if i > 0 {
      assert Base64.Decode(events[0].key).Some?;
      forall j | 0 <= j < i - 1
        ensures Base64.Decode(events[1..][j].key).Some?
      {
        assert events[1..][j] == events[j + 1];
      }
      FirstBadKey(entry, events[1..], from + 1, i - 1);
    }
  }

  /** A fixed entry's first missing field, in the order they are read. */
  lemma MissingFields(entry: PhysicalEntry)
    requires "format" !in entry.fields
    ensures "event" !in entry.fields ==> DecodeEntry(entry) == Failure(MissingField("event"))
    ensures (exists text :: Reads(entry, "event", text)) && "key" !in entry.fields ==>
              DecodeEntry(entry) == Failure(MissingField("key"))
    ensures (exists text, bytes :: Reads(entry, "event", text) && Carries(entry, "key", bytes)) ==>
              ("db" !in entry.fields ==> DecodeEntry(entry) == Failure(MissingField("db")))
  {
    if text :| Reads(entry, "event", text) {
      TextIff(entry, "event", text);
    }
    if text, bytes :| Reads(entry, "event", text) && Carries(entry, "key", bytes) {
      BytesIff(entry, "key", bytes);
    }
  }

  /** A number that does not parse is reported with its text. */
  lemma BadDatabase(entry: PhysicalEntry, event: string, key: seq<Byte>, text: string)
    requires "format" !in entry.fields && Reads(entry, "event", event) && Carries(entry, "key", key)
    requires Reads(entry, "db", text) && ParseInt(text, I64_MIN, I64_MAX) == None
    ensures DecodeEntry(entry) == Failure(InvalidInteger("db", text))
  {
    TextIff(entry, "event", event);
    BytesIff(entry, "key", key);
    TextIff(entry, "db", text);
  }
}
