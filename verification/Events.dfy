/** The snapshotted event and the field sets the module writes for it (src/capture.rs). */
module Events {
  import opened Bytes
  import opened Text
  import Utf8
  import Base64
  import opened Json

  datatype Retention = Retention(maxlen: int, retentionMs: int)

  datatype EntryFormat = FixedFormat | MinimalFormat | VerboseFormat | JsonFormat

  datatype ClassBit =
    | GenericClass | StringClass | ListClass | SetClass | HashClass | ZsetClass
    | StreamClass | ExpiredClass | EvictedClass | ModuleClass | MissedClass | NewClass

  /** Everything the write path needs, copied in the notification callback. */
  datatype PendingEvent = PendingEvent(
    prefix: string, suffix: string, event: string, key: seq<Byte>, db: int, classes: set<ClassBit>,
    dataRetention: Retention, controlRetention: Retention, firehoseRetention: Retention,
    maxStreams: int, format: EntryFormat, entrySeq: bool)

  const MAX_EVENT_NAME_LEN: nat := 128

  predicate IsNameChar(c: char) {
    'A' <= c <= 'Z' || 'a' <= c <= 'z' || '0' <= c <= '9' || c == '_' || c == '.' || c == ':' || c == '-'
  }

  /** `sanitize`: the stream-key suffix of an event name. */
  function Sanitize(event: string): (suffix: string)
    ensures forall i :: 0 <= i < |suffix| ==> IsNameChar(suffix[i])
    ensures |suffix| == if |event| < 128 then |event| else 128
    ensures suffix == event <==> |event| <= 128 && forall i :: 0 <= i < |event| ==> IsNameChar(event[i])
    ensures forall i :: 0 <= i < |suffix| && suffix[i] != event[i] ==> suffix[i] == '_' && !IsNameChar(event[i])
  {
    var n := if |event| < MAX_EVENT_NAME_LEN then |event| else MAX_EVENT_NAME_LEN;
    seq(n, i requires 0 <= i < n => if IsNameChar(event[i]) then event[i] else '_')
  }

  function ClassName(bit: ClassBit): string {
    match bit
    case GenericClass => "generic"
    case StringClass => "string"
    case ListClass => "list"
    case SetClass => "set"
    case HashClass => "hash"
    case ZsetClass => "zset"
    case StreamClass => "stream"
    case ExpiredClass => "expired"
    case EvictedClass => "evicted"
    case ModuleClass => "module"
    case MissedClass => "missed"
    case NewClass => "new"
  }

  const CLASS_ORDER: seq<ClassBit> :=
    [GenericClass, StringClass, ListClass, SetClass, HashClass, ZsetClass,
     StreamClass, ExpiredClass, EvictedClass, ModuleClass, MissedClass, NewClass]

  function JoinNames(bits: seq<ClassBit>, classes: set<ClassBit>): string {
    if bits == [] then ""
    else
      var rest := JoinNames(bits[1..], classes);
      if bits[0] !in classes then rest
      else if rest == "" then ClassName(bits[0])
      else ClassName(bits[0]) + "," + rest
  }

  /** `class_names`: the delivered class bits, comma separated. */
  function ClassNames(classes: set<ClassBit>): string {
    JoinNames(CLASS_ORDER, classes)
  }

  /** Where the first comma is, or the end. */
  function Comma(s: string): (i: nat)
    ensures i <= |s| && (i < |s| ==> s[i] == ',') && forall j :: 0 <= j < i ==> s[j] != ','
  {
    if s == "" || s[0] == ',' then 0 else 1 + Comma(s[1..])
  }

  /** The parts of a comma separated list. */
  function Parts(s: string): seq<string>
    decreases |s|
  {
    if s == "" then []
    else
      var i := Comma(s);
      [s[..i]] + if i == |s| then [] else Parts(s[i + 1..])
  }

  /** The names of the delivered bits, in the given order. */
  function Selected(bits: seq<ClassBit>, classes: set<ClassBit>): seq<string> {
    if bits == [] then []
    else (if bits[0] in classes then [ClassName(bits[0])] else []) + Selected(bits[1..], classes)
  }

  lemma NameHasNoComma(bit: ClassBit)
    ensures ClassName(bit) != "" && ',' !in ClassName(bit)
  {
  }

  lemma {:induction false} CommaAfter(a: string, b: string)
    requires ',' !in a
    ensures Comma(a + "," + b) == |a| && Comma(a) == |a|
  {
    if a == "" {
      assert (a + "," + b)[0] == ',';
    } else {
      assert (a + "," + b)[1..] == a[1..] + "," + b;
      CommaAfter(a[1..], b);
    }
  }

  lemma PartsCons(name: string, rest: string)
    requires name != "" && ',' !in name && rest != ""
    ensures Parts(name + "," + rest) == [name] + Parts(rest) && Parts(name) == [name]
  {
    var s := name + "," + rest;
    CommaAfter(name, rest);
    assert s[..|name|] == name && s[|name| + 1..] == rest && name[..|name|] == name;
  }

  lemma {:induction false} NamesSelected(bits: seq<ClassBit>, classes: set<ClassBit>)
    ensures Parts(JoinNames(bits, classes)) == Selected(bits, classes)
    ensures JoinNames(bits, classes) == "" <==> Selected(bits, classes) == []
  {
    if bits != [] {
      NamesSelected(bits[1..], classes);
      NameHasNoComma(bits[0]);
      var name, rest := ClassName(bits[0]), JoinNames(bits[1..], classes);
      if bits[0] in classes {
        PartsCons(name, if rest == "" then "x" else rest);
      }
    }
  }

  /** The order and the words of `class_names`. */
  lemma ClassTable()
    ensures |CLASS_ORDER| == 12
    ensures ClassName(CLASS_ORDER[0]) == "generic" && ClassName(CLASS_ORDER[1]) == "string"
    ensures ClassName(CLASS_ORDER[2]) == "list" && ClassName(CLASS_ORDER[3]) == "set"
    ensures ClassName(CLASS_ORDER[4]) == "hash" && ClassName(CLASS_ORDER[5]) == "zset"
    ensures ClassName(CLASS_ORDER[6]) == "stream" && ClassName(CLASS_ORDER[7]) == "expired"
    ensures ClassName(CLASS_ORDER[8]) == "evicted" && ClassName(CLASS_ORDER[9]) == "module"
    ensures ClassName(CLASS_ORDER[10]) == "missed" && ClassName(CLASS_ORDER[11]) == "new"
    ensures ClassName(GenericClass) == "generic" && ClassName(StringClass) == "string" && ClassName(ListClass) == "list"
    ensures ClassName(SetClass) == "set" && ClassName(HashClass) == "hash" && ClassName(ZsetClass) == "zset"
    ensures ClassName(StreamClass) == "stream" && ClassName(ExpiredClass) == "expired"
    ensures ClassName(EvictedClass) == "evicted" && ClassName(ModuleClass) == "module"
    ensures ClassName(MissedClass) == "missed" && ClassName(NewClass) == "new"
  {
  }

  /** The class text lists exactly the delivered classes, by their names in Redis's own order. */
  lemma ClassNamesList(classes: set<ClassBit>)
    ensures Parts(ClassNames(classes)) == Selected(CLASS_ORDER, classes)
  {
    NamesSelected(CLASS_ORDER, classes);
  }

  // ---------------------------------------------------------------------------------------------
  // Field sets
  // ---------------------------------------------------------------------------------------------

  datatype Field = Field(name: string, value: seq<Byte>)

  function TextField(name: string, value: string): Field {
    Field(name, Utf8.Encode(value))
  }

  datatype EntrySpec = EntrySpec(
    format: EntryFormat, event: seq<Byte>, key: seq<Byte>, db: string, classes: set<ClassBit>, seqno: Option<nat>)

  /** The spec the write path builds for a pending event. */
  function SpecOf(e: PendingEvent, seqno: Option<nat>): EntrySpec {
    EntrySpec(e.format, Utf8.Encode(e.event), e.key, SignedDecimal(e.db), e.classes, seqno)
  }

  /** `json_document`. */
  function JsonDocument(event: string, key: seq<Byte>, db: string, seqno: Option<nat>): string {
    "{\"event\":" + Quoted(event) + ",\"key\":\"" + Base64.Encode(key) + "\",\"db\":" + db
    + (if seqno.Some? then ",\"seq\":" + Decimal(seqno.value) else "") + "}"
  }

  function SeqField(seqno: Option<nat>): seq<Field> {
    if seqno.Some? then [TextField("seq", Decimal(seqno.value))] else []
  }

  /** `encode_entry_fields`; `None` is the encode error, an event name that is not UTF-8. */
  function EncodeEntryFields(spec: EntrySpec): Option<seq<Field>> {
    match spec.format
    case JsonFormat =>
      var event := Utf8.Decode(spec.event);
      if event.None? then None
      else Some([TextField("format", "json"),
                 TextField("data", JsonDocument(event.value, spec.key, spec.db, spec.seqno))])
    case FixedFormat =>
      Some([Field("event", spec.event), Field("key", spec.key), TextField("db", spec.db)] + SeqField(spec.seqno))
    case MinimalFormat =>
      Some([TextField("format", "minimal"), Field("key", spec.key), TextField("db", spec.db)] + SeqField(spec.seqno))
    case VerboseFormat =>
      Some([TextField("format", "verbose"), Field("event", spec.event), Field("key", spec.key),
            TextField("db", spec.db), TextField("class", ClassNames(spec.classes))] + SeqField(spec.seqno))
  }

  // ---------------------------------------------------------------------------------------------
  // The batch-v1 envelope
  // ---------------------------------------------------------------------------------------------

  /** One event of the envelope's array. */
  function BatchItem(e: PendingEvent): Json {
    JObject([Member("event", JString(e.event)), Member("key", JString(Base64.Encode(e.key))),
             Member("db", JInt(e.db)), Member("class", JString(ClassNames(e.classes)))])
  }

  function BatchItems(events: seq<PendingEvent>): (items: seq<Json>)
    ensures |items| == |events|
    ensures forall i :: 0 <= i < |items| ==> items[i] == BatchItem(events[i]) && Printable(items[i])
  {
    if events == [] then [] else [BatchItem(events[0])] + BatchItems(events[1..])
  }

  /** The text pushed for one event, key bytes straight from the base64 encoder. */
  function BatchText(e: PendingEvent): string {
    "{\"event\":" + Quoted(e.event) + ",\"key\":\"" + Base64.Encode(e.key) + "\",\"db\":" + SignedDecimal(e.db)
    + ",\"class\":" + Quoted(ClassNames(e.classes)) + "}"
  }

  function BatchFields(events: seq<PendingEvent>): seq<Field> {
    [TextField("format", "batch-v1"), TextField("count", Decimal(|events|)),
     TextField("events", Print(JArray(BatchItems(events))))]
  }

  predicate IsPlain(s: string) {
    forall i :: 0 <= i < |s| ==> ' ' <= s[i] && s[i] != '"' && s[i] != '\\'
  }

  lemma {:induction false} PlainNeedsNoEscape(s: string)
    requires IsPlain(s)
    ensures Escape(s) == s
  {
    if s != [] {
      PlainNeedsNoEscape(s[1..]);
      assert s == [s[0]] + s[1..];
    }
  }

  lemma {:induction false} Base64IsPlain(bytes: seq<Byte>)
    ensures IsPlain(Base64.Encode(bytes))
    decreases |bytes|
  {
    if |bytes| > 3 {
      Base64IsPlain(bytes[3..]);
    }
  }

  lemma QuotedPlain(s: string)
    requires IsPlain(s)
    ensures Quoted(s) == "\"" + s + "\""
  {
    PlainNeedsNoEscape(s);
  }

  lemma EventFieldName()
    ensures Quoted("event") == "\"event\""
  {
    QuotedPlain("event");
  }

  lemma KeyFieldName()
    ensures Quoted("key") == "\"key\""
  {
    QuotedPlain("key");
  }

  lemma DbFieldName()
    ensures Quoted("db") == "\"db\""
  {
    QuotedPlain("db");
  }

  lemma ClassFieldName()
    ensures Quoted("class") == "\"class\""
  {
    QuotedPlain("class");
  }

  lemma SeqFieldName()
    ensures Quoted("seq") == "\"seq\""
  {
    QuotedPlain("seq");
  }

  lemma FieldNames()
    ensures Quoted("event") == "\"event\"" && Quoted("key") == "\"key\"" && Quoted("db") == "\"db\""
    ensures Quoted("class") == "\"class\"" && Quoted("seq") == "\"seq\""
  {
    EventFieldName();
    KeyFieldName();
    DbFieldName();
    ClassFieldName();
    SeqFieldName();
  }

  lemma PrintMember(m: Member, rest: seq<Member>)
    requires Printable(m.value) && forall i :: 0 <= i < |rest| ==> Printable(rest[i].value)
    ensures forall i :: 0 <= i < |[m] + rest| ==> Printable(([m] + rest)[i].value)
    ensures PrintMembers([m] + rest)
         == Quoted(m.name) + ":" + Print(m.value) + if rest == [] then "" else "," + PrintMembers(rest)
  {
    assert ([m] + rest)[1..] == rest;
  }

  lemma PrintFour(m1: Member, m2: Member, m3: Member, m4: Member)
    requires Printable(m1.value) && Printable(m2.value) && Printable(m3.value) && Printable(m4.value)
    ensures Print(JObject([m1, m2, m3, m4]))
         == "{" + (Quoted(m1.name) + ":" + Print(m1.value)
                   + ("," + (Quoted(m2.name) + ":" + Print(m2.value)
                             + ("," + (Quoted(m3.name) + ":" + Print(m3.value)
                                       + ("," + (Quoted(m4.name) + ":" + Print(m4.value) + ""))))))) + "}"
  {
    PrintMember(m4, []);
    PrintMember(m3, [m4] + []);
    PrintMember(m2, [m3] + ([m4] + []));
    PrintMember(m1, [m2] + ([m3] + ([m4] + [])));
    assert [m1] + ([m2] + ([m3] + ([m4] + []))) == [m1, m2, m3, m4];
  }

  /** The hand-built text of one envelope event is the compact layout of its object. */
  lemma BatchTextPrints(e: PendingEvent)
    ensures BatchText(e) == Print(BatchItem(e))
  {
    var key, classes := Base64.Encode(e.key), ClassNames(e.classes);
    Base64IsPlain(e.key);
    QuotedPlain(key);
    FieldNames();
    PrintFour(Member("event", JString(e.event)), Member("key", JString(key)),
              Member("db", JInt(e.db)), Member("class", JString(classes)));
    BatchLayout(Quoted(e.event), key, SignedDecimal(e.db), Quoted(classes));
  }

  lemma BatchLayout(event: string, key: string, db: string, classes: string)
    ensures "{\"event\":" + event + ",\"key\":\"" + key + "\",\"db\":" + db + ",\"class\":" + classes + "}"
         == "{" + ("\"event\"" + ":" + event
                   + ("," + ("\"key\"" + ":" + ("\"" + key + "\"")
                             + ("," + ("\"db\"" + ":" + db
                                       + ("," + ("\"class\"" + ":" + classes + ""))))))) + "}"
  {
  }

  /** The json document is the compact layout of its object. */
  function DocumentItem(event: string, key: seq<Byte>, db: int, seqno: Option<nat>): (j: Json)
    ensures Printable(j)
  {
    JObject([Member("event", JString(event)), Member("key", JString(Base64.Encode(key))), Member("db", JInt(db))]
            + if seqno.Some? then [Member("seq", JInt(seqno.value))] else [])
  }

  lemma DocumentPrints(event: string, key: seq<Byte>, db: int, seqno: Option<nat>)
    ensures JsonDocument(event, key, SignedDecimal(db), seqno) == Print(DocumentItem(event, key, db, seqno))
  {
    var text := Base64.Encode(key);
    Base64IsPlain(key);
    QuotedPlain(text);
    FieldNames();
    var m1, m2, m3 := Member("event", JString(event)), Member("key", JString(text)), Member("db", JInt(db));
    if seqno.Some? {
      var m4 := Member("seq", JInt(seqno.value));
      PrintFour(m1, m2, m3, m4);
      assert [m1, m2, m3] + [m4] == [m1, m2, m3, m4];
      SeqLayout(Quoted(event), text, SignedDecimal(db), Decimal(seqno.value));
    } else {
      PrintThree(m1, m2, m3);
      assert [m1, m2, m3] + [] == [m1, m2, m3];
      DocumentLayout(Quoted(event), text, SignedDecimal(db));
    }
  }

  lemma PrintThree(m1: Member, m2: Member, m3: Member)
    requires Printable(m1.value) && Printable(m2.value) && Printable(m3.value)
    ensures Print(JObject([m1, m2, m3]))
         == "{" + (Quoted(m1.name) + ":" + Print(m1.value)
                   + ("," + (Quoted(m2.name) + ":" + Print(m2.value)
                             + ("," + (Quoted(m3.name) + ":" + Print(m3.value) + ""))))) + "}"
  {
    PrintMember(m3, []);
    PrintMember(m2, [m3] + []);
    PrintMember(m1, [m2] + ([m3] + []));
    assert [m1] + ([m2] + ([m3] + [])) == [m1, m2, m3];
  }

  lemma DocumentLayout(event: string, key: string, db: string)
    ensures "{\"event\":" + event + ",\"key\":\"" + key + "\",\"db\":" + db + "" + "}"
         == "{" + ("\"event\"" + ":" + event
                   + ("," + ("\"key\"" + ":" + ("\"" + key + "\"")
                             + ("," + ("\"db\"" + ":" + db + ""))))) + "}"
  {
  }

  lemma SeqLayout(event: string, key: string, db: string, seqno: string)
    ensures "{\"event\":" + event + ",\"key\":\"" + key + "\",\"db\":" + db + (",\"seq\":" + seqno) + "}"
         == "{" + ("\"event\"" + ":" + event
                   + ("," + ("\"key\"" + ":" + ("\"" + key + "\"")
                             + ("," + ("\"db\"" + ":" + db
                                       + ("," + ("\"seq\"" + ":" + seqno + ""))))))) + "}"
  {
  }

  /** The items laid out so far. */
  function Listed(events: seq<PendingEvent>): string {
    if events == [] then "" else PrintItems(BatchItems(events))
  }

  /** `encode_batch_fields`: the array text built event by event. */
  method EncodeBatchFields(events: seq<PendingEvent>) returns (fields: seq<Field>)
    ensures fields == BatchFields(events)
  {
    var data := "[";
    var index := 0;
    while index < |events|
      invariant 0 <= index <= |events|
      invariant data == "[" + Listed(events[..index])
    {
      ListedGrows(events, index);
      if index > 0 {
        data := data + ",";
      }
      data := BatchTextInto(events[index], data);
      index := index + 1;
    }
    data := data + "]";
    assert events[..index] == events;
    assert data == Print(JArray(BatchItems(events)));
    fields := [TextField("format", "batch-v1"), TextField("count", Decimal(|events|)), TextField("events", data)];
  }

  method BatchTextInto(e: PendingEvent, out: string) returns (data: string)
    ensures data == out + BatchText(e)
  {
    data := out + "{\"event\":";
    data := JsonEscapeInto(e.event, data);
    data := data + ",\"key\":\"";
    data := Base64.Base64Into(e.key, data);
    data := data + "\",\"db\":";
    data := data + SignedDecimal(e.db);
    data := data + ",\"class\":";
    data := JsonEscapeInto(ClassNames(e.classes), data);
    data := data + "}";
    Pushes(out, "{\"event\":", Quoted(e.event), ",\"key\":\"", Base64.Encode(e.key), "\",\"db\":",
           SignedDecimal(e.db), ",\"class\":", Quoted(ClassNames(e.classes)), "}");
  }

  lemma Pushes(
    o: string, a: string, b: string, c: string, d: string, e: string, f: string, g: string, h: string, i: string)
    ensures o + a + b + c + d + e + f + g + h + i == o + (a + b + c + d + e + f + g + h + i)
  {
  }

  lemma {:induction false} PrintItemsAppend(items: seq<Json>, last: Json)
    requires Printable(last) && items != [] && forall i :: 0 <= i < |items| ==> Printable(items[i])
    ensures forall i :: 0 <= i < |items + [last]| ==> Printable((items + [last])[i])
    ensures PrintItems(items + [last]) == PrintItems(items) + "," + Print(last)
    decreases |items|
  {
    if |items| == 1 {
      PrintPair(items, last);
    } else {
      var rest := items[1..];
      assert (items + [last])[1..] == rest + [last];
      PrintItemsAppend(rest, last);
      Chain(Print(items[0]), PrintItems(rest), Print(last));
    }
  }

  lemma PrintPair(items: seq<Json>, last: Json)
    requires Printable(last) && |items| == 1 && Printable(items[0])
    ensures forall i :: 0 <= i < |items + [last]| ==> Printable((items + [last])[i])
    ensures PrintItems(items + [last]) == PrintItems(items) + "," + Print(last)
  {
    assert (items + [last])[1..] == [last];
    assert PrintItems([last]) == Print(last) + "";
    assert PrintItems(items) == Print(items[0]) + "";
  }

  lemma Chain(first: string, rest: string, last: string)
    ensures first + ("," + (rest + "," + last)) == (first + ("," + rest)) + "," + last
  {
  }

  lemma BatchItemsGrow(events: seq<PendingEvent>, index: nat)
    requires index < |events|
    ensures BatchItems(events[..index + 1]) == BatchItems(events[..index]) + [BatchItem(events[index])]
  {
  }

  lemma ListedSeveral(events: seq<PendingEvent>, index: nat)
    requires 0 < index < |events|
    ensures Listed(events[..index + 1]) == Listed(events[..index]) + "," + Print(BatchItem(events[index]))
  {
    BatchItemsGrow(events, index);
    PrintItemsAppend(BatchItems(events[..index]), BatchItem(events[index]));
  }

  lemma ListedFirst(events: seq<PendingEvent>)
    requires events != []
    ensures Listed(events[..1]) == Print(BatchItem(events[0]))
  {
    BatchItemsGrow(events, 0);
    var last := BatchItem(events[0]);
    assert BatchItems(events[..1]) == [last];
    assert PrintItems([last]) == Print(last) + "";
  }

  /** What one turn of the loop appends, after the opening bracket. */
  lemma ListedGrows(events: seq<PendingEvent>, index: nat)
    requires index < |events|
    ensures "[" + Listed(events[..index + 1])
         == "[" + Listed(events[..index]) + (if index == 0 then "" else ",") + BatchText(events[index])
  {
    BatchTextPrints(events[index]);
    if index == 0 {
      ListedFirst(events);
    } else {
      ListedSeveral(events, index);
    }
    Brackets(Listed(events[..index]), if index == 0 then "" else ",", BatchText(events[index]));
  }

  lemma Brackets(a: string, b: string, c: string)
    ensures "[" + a + b + c == "[" + (a + b + c)
    ensures "" + "" + c == c
  {
  }
}
