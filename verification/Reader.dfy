/**
 The merged reader (crates/eventstream-client/src/lib.rs): per-stream cursors over XREAD rounds, a batch
 merged by entry id, and what every run of polls, appends, removals and re-discoveries delivers.
 */
module Reader {
  import opened Text
  import Client

  datatype Id = Id(ms: nat, seqno: nat)

  predicate Lt(a: Id, b: Id) {
    a.ms < b.ms || (a.ms == b.ms && a.seqno < b.seqno)
  }

  predicate Le(a: Id, b: Id) {
    a == b || Lt(a, b)
  }

  const ZERO: Id := Id(0, 0)

  datatype Entry = Entry(id: Id, fields: map<string, Client.Value>)

  datatype Delivered = Delivered(stream: string, entry: Entry)

  predicate Ascending(s: seq<Entry>) {
    forall i, j :: 0 <= i < j < |s| ==> Lt(s[i].id, s[j].id)
  }

  // ---------------------------------------------------------------------------------------------
  // Entry ids as text
  // ---------------------------------------------------------------------------------------------

  function IdText(id: Id): string {
    Decimal(id.ms) + "-" + Decimal(id.seqno)
  }

  /** Where the text splits: the first dash, or the end. */
  function Dash(s: string): (i: nat)
    ensures i <= |s| && (i < |s| ==> s[i] == '-') && forall j :: 0 <= j < i ==> s[j] != '-'
  {
    if s == "" || s[0] == '-' then 0 else 1 + Dash(s[1..])
  }

  function Number(s: string): nat {
    var n := ParseInt(s, 0, U64_MAX);
    if n.Some? && n.value >= 0 then n.value else 0
  }

  /** `entry_id_sort_key`; anything unreadable counts as zero. */
  function SortKey(s: string): Id {
    var i := Dash(s);
    Id(Number(s[..i]), if i == |s| then 0 else Number(s[i + 1..]))
  }

  lemma {:induction false} DashAfter(a: string, b: string)
    requires '-' !in a
    ensures Dash(a + "-" + b) == |a|
  {
    if a == "" {
      assert (a + "-" + b)[0] == '-';
    } else {
      assert (a + "-" + b)[1..] == a[1..] + "-" + b;
      DashAfter(a[1..], b);
    }
  }

  /** The sort key of a server-assigned id is the id itself. */
  lemma SortKeyOfId(id: Id)
    requires id.ms <= U64_MAX && id.seqno <= U64_MAX
    ensures SortKey(IdText(id)) == id
  {
    var ms, seqno := Decimal(id.ms), Decimal(id.seqno);
    var text := ms + "-" + seqno;
    DashAfter(ms, seqno);
    assert text[..|ms|] == ms && text[|ms| + 1..] == seqno;
    ParseDecimal(id.ms, 0, U64_MAX);
    ParseDecimal(id.seqno, 0, U64_MAX);
  }

  /** A part that is not a number counts as zero, and so does a missing second part. */
  lemma UnreadableIds(ms: nat, text: string)
    requires ms <= U64_MAX && '-' !in text
    ensures SortKey(Decimal(ms)) == Id(ms, 0)
    ensures ParseInt(text, 0, U64_MAX) == None ==>
              SortKey(text) == ZERO && SortKey(Decimal(ms) + "-" + text) == Id(ms, 0)
  {
    var s := Decimal(ms);
    ParseDecimal(ms, 0, U64_MAX);
    NoDash(s);
    NoDash(text);
    assert s[..|s|] == s && text[..|text|] == text;
    DashAfter(s, text);
    var joined := s + "-" + text;
    assert joined[..|s|] == s && joined[|s| + 1..] == text;
  }

  lemma {:induction false} NoDash(s: string)
    requires '-' !in s
    ensures Dash(s) == |s|
  {
    if s != "" {
      NoDash(s[1..]);
    }
  }

  // ---------------------------------------------------------------------------------------------
  // One XREAD
  // ---------------------------------------------------------------------------------------------

  /** The entries after `cursor`. */
  function After(s: seq<Entry>, cursor: Id): seq<Entry> {
    if s == [] || Lt(cursor, s[0].id) then s else After(s[1..], cursor)
  }

  /** `XREAD COUNT count`, where zero means no limit. */
  function XRead(s: seq<Entry>, cursor: Id, count: nat): seq<Entry> {
    var rest := After(s, cursor);
    if count == 0 || |rest| <= count then rest else rest[..count]
  }

  function Advanced(cursor: Id, got: seq<Entry>): Id {
    if got == [] then cursor else got[|got| - 1].id
  }

  /** `last_id`: the largest id present, or zero. */
  function LastId(s: seq<Entry>): Id {
    Advanced(ZERO, s)
  }

  lemma {:induction false} AfterSplits(s: seq<Entry>, cursor: Id) returns (n: nat)
    requires Ascending(s)
    ensures n <= |s| && After(s, cursor) == s[n..]
    ensures forall i :: 0 <= i < n ==> Le(s[i].id, cursor)
    ensures forall i :: n <= i < |s| ==> Lt(cursor, s[i].id)
  {
    if s == [] || Lt(cursor, s[0].id) {
      n := 0;
      assert s[0..] == s;
    } else {
      var m := AfterSplits(s[1..], cursor);
      n := m + 1;
      assert s[1..][m..] == s[n..];
      forall i | 0 <= i < |s|
        ensures i < n ==> Le(s[i].id, cursor)
        ensures n <= i ==> Lt(cursor, s[i].id)
      {
        if i > 0 {
          assert s[i] == s[1..][i - 1];
        }
      }
    }
  }

  /** A read is the stretch of the stream from just after the cursor to the new cursor. */
  lemma ReadIsStretch(s: seq<Entry>, cursor: Id, count: nat) returns (lo: nat, hi: nat)
    requires Ascending(s)
    ensures lo <= hi <= |s| && XRead(s, cursor, count) == s[lo..hi]
    ensures forall i :: 0 <= i < lo ==> Le(s[i].id, cursor)
    ensures forall i :: lo <= i < hi ==> Lt(cursor, s[i].id)
    ensures forall i :: hi <= i < |s| ==> Lt(Advanced(cursor, XRead(s, cursor, count)), s[i].id)
  {
    lo := AfterSplits(s, cursor);
    hi := if count == 0 || |s| - lo <= count then |s| else lo + count;
    assert s[lo..][..hi - lo] == s[lo..hi];
    assert XRead(s, cursor, count) == s[lo..hi];
    if lo < hi {
      assert s[lo..hi][hi - lo - 1] == s[hi - 1];
    }
  }

  /** A read takes what there is: up to its count, and everything when there are fewer. */
  lemma ReadTakes(s: seq<Entry>, cursor: Id, count: nat, e: Entry)
    requires Ascending(s) && e in s && Lt(cursor, e.id)
    ensures var more := XRead(s, cursor, count);
            && more != [] && (count > 0 ==> |more| <= count)
            && (e in more || (|more| == count && Lt(Advanced(cursor, more), e.id)))
  {
    var lo, hi := ReadIsStretch(s, cursor, count);
    var n := AfterSplits(s, cursor);
    var i :| 0 <= i < |s| && s[i] == e;
    assert After(s, cursor) == s[n..] && n <= i;
    var more := XRead(s, cursor, count);
    if i < hi {
      assert more[i - lo] == e;
    }
  }

  // ---------------------------------------------------------------------------------------------
  // What a cursor has covered
  // ---------------------------------------------------------------------------------------------

  predicate Within(e: Entry, lo: Id, hi: Id) {
    Lt(lo, e.id) && Le(e.id, hi)
  }

  /**
   The promise for one stream: what was delivered came out once, in id order, from the range between the
   start and the cursor, and everything still present in that range has been delivered.
   */
  predicate Tracks(history: seq<Entry>, present: seq<Entry>, start: Id, cursor: Id, got: seq<Entry>) {
    && Le(start, cursor) && Le(cursor, LastId(history)) && Ascending(got)
    && (forall e :: e in got ==> e in history && Within(e, start, cursor))
    && (forall e :: e in present && Within(e, start, cursor) ==> e in got)
  }

  lemma ReadMembers(present: seq<Entry>, cursor: Id, count: nat)
    requires Ascending(present)
    ensures var more := XRead(present, cursor, count);
            && Le(cursor, Advanced(cursor, more)) && Ascending(more)
            && (forall e :: e in more ==> e in present && Within(e, cursor, Advanced(cursor, more)))
            && (forall e :: e in present && Within(e, cursor, Advanced(cursor, more)) ==> e in more)
  {
    var lo, hi := ReadIsStretch(present, cursor, count);
    var more := XRead(present, cursor, count);
    assert forall i :: 0 <= i < |more| ==> more[i] == present[lo + i];
    forall e | e in present && Within(e, cursor, Advanced(cursor, more))
      ensures e in more
    {
      var i :| 0 <= i < |present| && present[i] == e;
      assert lo <= i < hi;
      assert more[i - lo] == e;
    }
  }

  lemma AscendingJoin(a: seq<Entry>, b: seq<Entry>, mid: Id)
    requires Ascending(a) && Ascending(b)
    requires forall e :: e in a ==> Le(e.id, mid)
    requires forall e :: e in b ==> Lt(mid, e.id)
    ensures Ascending(a + b)
  {
    forall i, j | 0 <= i < j < |a + b|
      ensures Lt((a + b)[i].id, (a + b)[j].id)
    {
      if i < |a| <= j {
        assert a[i] in a && b[j - |a|] in b;
      }
    }
  }

  /** A stream as Redis keeps it. */
  predicate Stored(history: seq<Entry>, present: seq<Entry>) {
    Ascending(history) && Ascending(present) && forall e :: e in present ==> e in history
  }

  lemma LastIsLargest(s: seq<Entry>, e: Entry)
    requires Ascending(s) && e in s
    ensures Le(e.id, LastId(s))
  {
    var i :| 0 <= i < |s| && s[i] == e;
    assert i == |s| - 1 || Lt(s[i].id, s[|s| - 1].id);
  }

  lemma ReadTracks(history: seq<Entry>, present: seq<Entry>, start: Id, cursor: Id, got: seq<Entry>, count: nat)
    requires Tracks(history, present, start, cursor, got)
    requires Stored(history, present)
    ensures var more := XRead(present, cursor, count);
            Tracks(history, present, start, Advanced(cursor, more), got + more)
  {
    ReadMembers(present, cursor, count);
    var more := XRead(present, cursor, count);
    AscendingJoin(got, more, cursor);
    if more != [] {
      assert more[|more| - 1] in more;
      LastIsLargest(history, more[|more| - 1]);
    }
  }

  lemma HasMember(s: seq<Entry>)
    ensures s == [] || exists e :: e in s
  {
    if s != [] {
      assert s[0] in s;
    }
  }

  /** Two increasing sequences with the same members are the same sequence. */
  lemma {:induction false} SameMembers(a: seq<Entry>, b: seq<Entry>)
    requires Ascending(a) && Ascending(b) && forall e :: e in a <==> e in b
    ensures a == b
  {
    if a == [] {
      HasMember(b);
    } else {
      SameHead(a, b);
      forall e
        ensures e in a[1..] <==> e in b[1..]
      {
        TailMembers(a, e);
        TailMembers(b, e);
      }
      SameMembers(a[1..], b[1..]);
      assert a == [a[0]] + a[1..] && b == [b[0]] + b[1..];
    }
  }

  lemma SameHead(a: seq<Entry>, b: seq<Entry>)
    requires a != [] && Ascending(a) && Ascending(b) && forall e :: e in a <==> e in b
    ensures b != [] && a[0] == b[0]
  {
    assert a[0] in a && a[0] in b;
    assert b[0] in b && b[0] in a;
    var i :| 0 <= i < |b| && b[i] == a[0];
    var j :| 0 <= j < |a| && a[j] == b[0];
  }

  lemma TailMembers(a: seq<Entry>, e: Entry)
    requires a != [] && Ascending(a)
    ensures e in a[1..] <==> e in a && e != a[0]
  {
    if e in a && e != a[0] {
      var i :| 0 <= i < |a| && a[i] == e;
      assert a[1..][i - 1] == e;
    }
    if e in a[1..] {
      var i :| 0 <= i < |a| - 1 && a[1..][i] == e;
      assert a[i + 1] == e;
    }
  }

  // ---------------------------------------------------------------------------------------------
  // The merge
  // ---------------------------------------------------------------------------------------------

  /** The entries of one stream in a batch. */
  function Of(batch: seq<Delivered>, stream: string): seq<Entry> {
    if batch == [] then []
    else (if batch[0].stream == stream then [batch[0].entry] else []) + Of(batch[1..], stream)
  }

  /** The deliveries carrying one id. */
  function WithId(batch: seq<Delivered>, id: Id): seq<Delivered> {
    if batch == [] then []
    else (if batch[0].entry.id == id then [batch[0]] else []) + WithId(batch[1..], id)
  }

  predicate Sorted(batch: seq<Delivered>) {
    forall i, j :: 0 <= i < j < |batch| ==> Le(batch[i].entry.id, batch[j].entry.id)
  }

  function Insert(x: Delivered, batch: seq<Delivered>): seq<Delivered> {
    if batch == [] || Le(x.entry.id, batch[0].entry.id) then [x] + batch else [batch[0]] + Insert(x, batch[1..])
  }

  /** `sort_by_key`: a stable sort on the id. */
  function SortById(batch: seq<Delivered>): seq<Delivered> {
    if batch == [] then [] else Insert(batch[0], SortById(batch[1..]))
  }

  lemma {:induction false} InsertSorted(x: Delivered, batch: seq<Delivered>)
    requires Sorted(batch)
    ensures Sorted(Insert(x, batch))
    ensures forall d :: d in Insert(x, batch) ==> d == x || d in batch
  {
    if batch != [] && !Le(x.entry.id, batch[0].entry.id) {
      InsertSorted(x, batch[1..]);
      var rest := Insert(x, batch[1..]);
      forall d | d in rest
        ensures Le(batch[0].entry.id, d.entry.id)
      {
        if d != x {
          var i :| 0 <= i < |batch[1..]| && batch[1..][i] == d;
          assert batch[i + 1] == d;
        }
      }
    }
  }

  lemma OfCons(x: Delivered, batch: seq<Delivered>, stream: string)
    ensures Of([x] + batch, stream) == (if x.stream == stream then [x.entry] else []) + Of(batch, stream)
  {
    assert ([x] + batch)[1..] == batch;
  }

  lemma WithIdCons(x: Delivered, batch: seq<Delivered>, id: Id)
    ensures WithId([x] + batch, id) == (if x.entry.id == id then [x] else []) + WithId(batch, id)
  {
    assert ([x] + batch)[1..] == batch;
  }

  lemma {:induction false} InsertKeepsIds(x: Delivered, batch: seq<Delivered>, id: Id)
    ensures WithId(Insert(x, batch), id) == (if x.entry.id == id then [x] else []) + WithId(batch, id)
  {
    if batch == [] || Le(x.entry.id, batch[0].entry.id) {
      WithIdCons(x, batch, id);
    } else {
      InsertKeepsIds(x, batch[1..], id);
      WithIdCons(batch[0], Insert(x, batch[1..]), id);
    }
  }

  lemma {:induction false} InsertKeepsStream(x: Delivered, batch: seq<Delivered>, stream: string)
    requires x.stream == stream ==> forall e :: e in Of(batch, stream) ==> Lt(x.entry.id, e.id)
    ensures Of(Insert(x, batch), stream) == (if x.stream == stream then [x.entry] else []) + Of(batch, stream)
  {
    if batch == [] || Le(x.entry.id, batch[0].entry.id) {
      OfCons(x, batch, stream);
    } else {
      if batch[0].stream == stream {
        assert batch[0].entry in Of(batch, stream);
      }
      InsertKeepsStream(x, batch[1..], stream);
      OfCons(batch[0], Insert(x, batch[1..]), stream);
    }
  }

  /** The merged batch is ordered by id, and entries with equal ids stay in the order they were read. */
  lemma {:induction false} MergeIsStable(batch: seq<Delivered>, id: Id)
    ensures Sorted(SortById(batch)) && WithId(SortById(batch), id) == WithId(batch, id)
  {
    if batch != [] {
      MergeIsStable(batch[1..], id);
      InsertSorted(batch[0], SortById(batch[1..]));
      InsertKeepsIds(batch[0], SortById(batch[1..]), id);
    }
  }

  /** Merging never reorders a stream against itself. */
  lemma {:induction false} MergeKeepsStream(batch: seq<Delivered>, stream: string)
    requires Ascending(Of(batch, stream))
    ensures Of(SortById(batch), stream) == Of(batch, stream)
  {
    if batch != [] {
      var all, rest := Of(batch, stream), Of(batch[1..], stream);
      if batch[0].stream == stream {
        assert all[0] == batch[0].entry && rest == all[1..];
        forall e | e in rest
          ensures Lt(batch[0].entry.id, e.id)
        {
          var i :| 0 <= i < |rest| && rest[i] == e;
          assert all[i + 1] == e;
        }
      } else {
        assert all == rest;
      }
      MergeKeepsStream(batch[1..], stream);
      InsertKeepsStream(batch[0], SortById(batch[1..]), stream);
    }
  }

  // ---------------------------------------------------------------------------------------------
  // The reader
  // ---------------------------------------------------------------------------------------------

  /** Each stream's present entries; a missing stream is empty. */
  type Server = map<string, seq<Entry>>

  function At(server: Server, stream: string): seq<Entry> {
    if stream in server then server[stream] else []
  }

  function CursorOf(cursors: map<string, Id>, stream: string): Id {
    if stream in cursors then cursors[stream] else ZERO
  }

  /** Where a reader asks to start, and the streams whose tail lookup fails. */
  datatype Origin = Origin(fromZero: bool, unanswered: set<string>)

  /** Where a newly covered stream starts: a failed lookup falls back to zero. */
  function StartOf(server: Server, stream: string, origin: Origin): Id {
    if origin.fromZero || stream in origin.unanswered then ZERO else LastId(At(server, stream))
  }

  /** A start at zero, or at the tail of what is there: the last entry's id, or zero when there is none. */
  predicate Starts(start: Id, present: seq<Entry>, zero: bool) {
    && (zero || present == [] ==> start == ZERO)
    && (!zero && present != [] ==> start == present[|present| - 1].id)
  }

  /** The cursors `new` sets up. */
  function Opened(server: Server, streams: seq<string>, origin: Origin): (cursors: map<string, Id>)
    ensures cursors.Keys == set s | s in streams
    ensures forall s :: s in streams ==> cursors[s] == StartOf(server, s, origin)
  {
    map s | s in streams :: StartOf(server, s, origin)
  }

  /** Candidates not covered yet, first mention only, in order. */
  function Fresh(covered: set<string>, candidates: seq<string>): (added: seq<string>)
    ensures forall s :: s in added <==> s in candidates && s !in covered
    decreases |candidates|
  {
    if candidates == [] then []
    else if candidates[0] in covered then Fresh(covered, candidates[1..])
    else [candidates[0]] + Fresh(covered + {candidates[0]}, candidates[1..])
  }

  function Tagged(stream: string, got: seq<Entry>): (ds: seq<Delivered>)
    ensures |ds| == |got|
  {
    seq(|got|, i requires 0 <= i < |got| => Delivered(stream, got[i]))
  }

  /** What the XREAD of one stream returns; a stream that errors is skipped. */
  function Reply(cursors: map<string, Id>, server: Server, s: string, skipped: bool, count: nat): seq<Entry> {
    if skipped then [] else XRead(At(server, s), CursorOf(cursors, s), count)
  }

  function Moved(cursors: map<string, Id>, s: string, got: seq<Entry>): map<string, Id> {
    if got == [] then cursors else cursors[s := got[|got| - 1].id]
  }

  /**
   What a poll that started at `from` has read from its first `n` streams, and where its cursors are: the i-th XREAD
   finds the server in the state `seen[i]`.
   */
  function Round(streams: seq<string>, n: nat, from: map<string, Id>, seen: seq<Server>, down: set<nat>, count: nat)
    : (map<string, Id>, seq<Delivered>)
    requires n <= |streams| && n <= |seen|
  {
    if n == 0 then (from, [])
    else
      var before := Round(streams, n - 1, from, seen, down, count);
      var s := streams[n - 1];
      var got := Reply(before.0, seen[n - 1], s, n - 1 in down, count);
      (Moved(before.0, s, got), before.1 + Tagged(s, got))
  }

  /** Where a stream is first mentioned. */
  function FirstAt(candidates: seq<string>, s: string): nat
    requires s in candidates
  {
    if candidates[0] == s then 0 else 1 + FirstAt(candidates[1..], s)
  }

  /** No stream is added twice, and they are added in the order they are first mentioned. */
  lemma {:induction false} FreshOnceInOrder(covered: set<string>, candidates: seq<string>, i: nat, j: nat)
    requires i < j < |Fresh(covered, candidates)|
    ensures var added := Fresh(covered, candidates);
            && added[i] in candidates && added[j] in candidates && added[i] != added[j]
            && FirstAt(candidates, added[i]) < FirstAt(candidates, added[j])
    decreases |candidates|
  {
    var added := Fresh(covered, candidates);
    assert added[i] in added && added[j] in added;
    if candidates[0] in covered {
      FreshOnceInOrder(covered, candidates[1..], i, j);
    } else {
      var rest := Fresh(covered + {candidates[0]}, candidates[1..]);
      assert added[j] == rest[j - 1] && rest[j - 1] in rest;
      if i > 0 {
        assert rest[i - 1] in rest;
        FreshOnceInOrder(covered + {candidates[0]}, candidates[1..], i - 1, j - 1);
      }
    }
  }

  lemma FreshStep(covered: set<string>, candidates: seq<string>, i: nat, added: seq<string>)
    requires i < |candidates|
    ensures var s := candidates[i];
            added + Fresh(covered, candidates[i..])
              == if s in covered then added + Fresh(covered, candidates[i + 1..])
                 else added + [s] + Fresh(covered + {s}, candidates[i + 1..])
  {
    assert candidates[i..][1..] == candidates[i + 1..];
  }

  lemma OpenedGrows(server: Server, added: seq<string>, s: string, origin: Origin, before: map<string, Id>)
    requires s !in before
    ensures var now := (Opened(server, added, origin) + before)[s := StartOf(server, s, origin)];
            && now == Opened(server, added + [s], origin) + before
            && now.Keys == (Opened(server, added, origin) + before).Keys + {s}
  {
  }

  class MergedReader {
    var streams: seq<string>
    var cursors: map<string, Id>

    /** `new`: every stream starts at zero, or at its current tail. */
    constructor (server: Server, streams: seq<string>, origin: Origin)
      ensures this.streams == streams && cursors == Opened(server, streams, origin)
      ensures forall s :: s in cursors <==> s in streams
      ensures forall s :: s in streams ==>
                Starts(cursors[s], At(server, s), origin.fromZero || s in origin.unanswered)
    {
      var made: map<string, Id> := map[];
      var i := 0;
      while i < |streams|
        invariant 0 <= i <= |streams|
        invariant made == Opened(server, streams[..i], origin)
      {
        assert streams[..i + 1] == streams[..i] + [streams[i]];
        made := made[streams[i] := StartOf(server, streams[i], origin)];
        i := i + 1;
      }
      assert streams[..i] == streams;
      this.streams := streams;
      this.cursors := made;
    }

    /** `add_streams`: only streams without a cursor are added, and no existing cursor moves. */
    method AddStreams(server: Server, candidates: seq<string>, origin: Origin) returns (added: seq<string>)
      modifies this
      ensures added == Fresh(old(cursors).Keys, candidates)
      ensures streams == old(streams) + added
      ensures cursors == Opened(server, added, origin) + old(cursors)
      ensures forall s :: s in added <==> s in candidates && s !in old(cursors)
      ensures forall s :: s in added ==>
                s in cursors && Starts(cursors[s], At(server, s), origin.fromZero || s in origin.unanswered)
      ensures forall s :: s in old(cursors) ==> s in cursors && cursors[s] == old(cursors)[s]
    {
      added := [];
      var i := 0;
      assert candidates[0..] == candidates;
      while i < |candidates|
        invariant 0 <= i <= |candidates|
        invariant added + Fresh(cursors.Keys, candidates[i..]) == Fresh(old(cursors).Keys, candidates)
        invariant streams == old(streams) + added
        invariant cursors == Opened(server, added, origin) + old(cursors)
      {
        var s := candidates[i];
        assert old(streams) + (added + [s]) == old(streams) + added + [s];
        FreshStep(cursors.Keys, candidates, i, added);
        if s !in cursors {
          OpenedGrows(server, added, s, origin, old(cursors));
          cursors := cursors[s := StartOf(server, s, origin)];
          streams := streams + [s];
          added := added + [s];
        }
        i := i + 1;
      }
    }

    /**
     `poll_physical`: one XREAD per stream that answers, each of the server as it then is, every cursor advanced, the
     batch merged by id.
     */
    method Poll(seen: seq<Server>, down: set<nat>, count: nat) returns (batch: seq<Delivered>)
      requires |seen| == |streams|
      modifies this`cursors
      ensures var r := Round(streams, |streams|, old(cursors), seen, down, count);
              cursors == r.0 && batch == SortById(r.1)
    {
      batch := [];
      var i := 0;
      while i < |streams|
        invariant 0 <= i <= |streams|
        invariant (cursors, batch) == Round(streams, i, old(cursors), seen, down, count)
      {
        var s := streams[i];
        if i in down {
          assert batch + Tagged(s, []) == batch;
        } else {
          var got := XRead(At(seen[i], s), CursorOf(cursors, s), count);
          if got != [] {
            cursors := cursors[s := got[|got| - 1].id];
          }
          batch := batch + Tagged(s, got);
        }
        i := i + 1;
      }
      batch := SortById(batch);
    }
  }

  // ---------------------------------------------------------------------------------------------
  // Runs
  // ---------------------------------------------------------------------------------------------

  /** A poll under way: the server as each XREAD so far found it, and which of them errored. */
  datatype Polling = Polling(seen: seq<Server>, down: set<nat>, count: nat)

  /** The server, the reader, where each covered stream started, and everything handed out so far. */
  datatype World = World(
    history: Server, present: Server, streams: seq<string>, cursors: map<string, Id>, poll: Option<Polling>,
    starts: map<string, Id>, output: seq<Delivered>)

  /**
   Appends and removals fall anywhere, also between two reads of one poll; a discovery whose tail lookups see different
   server states is several `Add` steps.
   */
  datatype Step =
    | Append(stream: string, entry: Entry)
    | Remove(stream: string, id: Id)
    | PollBegins(count: nat)
    | Read(skipped: bool)
    | PollEnds
    | Add(candidates: seq<string>, origin: Origin)

  function Without(s: seq<Entry>, id: Id): (r: seq<Entry>)
    ensures forall e :: e in r <==> e in s && e.id != id
    ensures Ascending(s) ==> Ascending(r)
  {
    if s == [] then []
    else
      var rest := Without(s[1..], id);
      assert Ascending(s) ==> forall e :: e in s[1..] ==> Lt(s[0].id, e.id);
      if s[0].id == id then rest else [s[0]] + rest
  }

  /** Redis only appends ids above the last one; the reader does one thing at a time. */
  predicate Enabled(w: World, step: Step) {
    match step
    case Append(stream, entry) => Lt(LastId(At(w.history, stream)), entry.id)
    case Remove(_, _) => true
    case PollBegins(_) => w.poll.None?
    case Read(_) => w.poll.Some? && |w.poll.value.seen| < |w.streams|
    case PollEnds => w.poll.Some? && |w.poll.value.seen| == |w.streams|
    case Add(_, _) => w.poll.None?
  }

  function Apply(w: World, step: Step): World
    requires Enabled(w, step)
  {
    match step
    case Append(stream, entry) =>
      w.(history := w.history[stream := At(w.history, stream) + [entry]],
         present := w.present[stream := At(w.present, stream) + [entry]])
    case Remove(stream, id) =>
      w.(present := w.present[stream := Without(At(w.present, stream), id)])
    case PollBegins(count) => w.(poll := Some(Polling([], {}, count)))
    case Read(skipped) => w.(poll := Some(Noted(w.poll.value, w.present, skipped)))
    case PollEnds =>
      var r := Round(w.streams, |w.streams|, w.cursors, w.poll.value.seen, w.poll.value.down, w.poll.value.count);
      w.(cursors := r.0, output := w.output + SortById(r.1), poll := None)
    case Add(candidates, origin) =>
      var added := Fresh(w.cursors.Keys, candidates);
      w.(streams := w.streams + added, cursors := Opened(w.present, added, origin) + w.cursors,
         starts := Opened(w.present, added, origin) + w.starts)
  }

  function Noted(p: Polling, present: Server, skipped: bool): Polling {
    p.(seen := p.seen + [present], down := if skipped then p.down + {|p.seen|} else p.down)
  }

  function Begin(history: Server, present: Server, streams: seq<string>, origin: Origin): World {
    World(history, present, streams, Opened(present, streams, origin), None, Opened(present, streams, origin), [])
  }

  function Run(w: World, steps: seq<Step>): Option<World> {
    if steps == [] then Some(w)
    else
      var before := Run(w, steps[..|steps| - 1]);
      var step := steps[|steps| - 1];
      if before.Some? && Enabled(before.value, step) then Some(Apply(before.value, step)) else None
  }

  /** The cursors and the batch of the poll under way. */
  function Progress(w: World): (map<string, Id>, seq<Delivered>)
    requires w.poll.Some? ==> |w.poll.value.seen| <= |w.streams|
  {
    match w.poll
    case None => (w.cursors, [])
    case Some(p) => Round(w.streams, |p.seen|, w.cursors, p.seen, p.down, p.count)
  }

  /** What was handed out, and what the poll under way would hand out, tracks the stream. */
  predicate Follows(w: World, stream: string) {
    && Stored(At(w.history, stream), At(w.present, stream))
    && (stream in w.cursors <==> stream in w.starts)
    && (stream in w.streams ==> stream in w.cursors)
    && (w.poll.Some? ==> |w.poll.value.seen| <= |w.streams| && Bounded(w.poll.value))
    && TracksIn(w, w.cursors, Of(w.output, stream), stream)
    && TracksIn(w, Progress(w).0, Of(w.output, stream) + Of(Progress(w).1, stream), stream)
  }

  predicate Bounded(p: Polling) {
    forall i :: i in p.down ==> i < |p.seen|
  }

  predicate TracksIn(w: World, cursors: map<string, Id>, got: seq<Entry>, stream: string) {
    && (stream in cursors <==> stream in w.starts)
    && (if stream in w.starts then
          Tracks(At(w.history, stream), At(w.present, stream), w.starts[stream], cursors[stream], got)
        else got == [])
  }

  lemma LastPresent(history: seq<Entry>, present: seq<Entry>)
    requires Stored(history, present)
    ensures Le(LastId(present), LastId(history))
  {
    if present != [] {
      assert present[|present| - 1] in present;
      LastIsLargest(history, present[|present| - 1]);
    }
  }

  lemma OpenedFollows(history: seq<Entry>, present: seq<Entry>, fromZero: bool)
    requires Stored(history, present)
    ensures var start := if fromZero then ZERO else LastId(present);
            Tracks(history, present, start, start, [])
  {
    LastPresent(history, present);
  }

  lemma AppendStored(history: seq<Entry>, present: seq<Entry>, entry: Entry)
    requires Stored(history, present) && Lt(LastId(history), entry.id)
    ensures Stored(history + [entry], present + [entry])
    ensures LastId(history + [entry]) == entry.id
  {
    forall e | e in history
      ensures Le(e.id, LastId(history))
    {
      LastIsLargest(history, e);
    }
    AscendingJoin(history, [entry], LastId(history));
    AscendingJoin(present, [entry], LastId(history));
  }

  lemma AppendTracks(w: World, s: string, entry: Entry, cursors: map<string, Id>, got: seq<Entry>, stream: string)
    requires Stored(At(w.history, stream), At(w.present, stream)) && Enabled(w, Append(s, entry))
    requires TracksIn(w, cursors, got, stream)
    ensures TracksIn(Apply(w, Append(s, entry)), cursors, got, stream)
  {
    if s == stream {
      AppendStored(At(w.history, s), At(w.present, s), entry);
    }
  }

  lemma AppendFollows(w: World, s: string, entry: Entry, stream: string)
    requires Follows(w, stream) && Enabled(w, Append(s, entry))
    ensures Follows(Apply(w, Append(s, entry)), stream)
  {
    AppendTracks(w, s, entry, w.cursors, Of(w.output, stream), stream);
    AppendTracks(w, s, entry, Progress(w).0, Of(w.output, stream) + Of(Progress(w).1, stream), stream);
    if s == stream {
      AppendStored(At(w.history, s), At(w.present, s), entry);
    }
  }

  lemma RemoveTracks(w: World, s: string, id: Id, cursors: map<string, Id>, got: seq<Entry>, stream: string)
    requires TracksIn(w, cursors, got, stream)
    ensures TracksIn(Apply(w, Remove(s, id)), cursors, got, stream)
  {
  }

  lemma RemoveFollows(w: World, s: string, id: Id, stream: string)
    requires Follows(w, stream)
    ensures Follows(Apply(w, Remove(s, id)), stream)
  {
    RemoveTracks(w, s, id, w.cursors, Of(w.output, stream), stream);
    RemoveTracks(w, s, id, Progress(w).0, Of(w.output, stream) + Of(Progress(w).1, stream), stream);
  }

  lemma Regroup(a: seq<Entry>, b: seq<Entry>, c: seq<Entry>)
    ensures a + (b + c) == a + b + c
  {
  }

  lemma {:induction false} OfJoin(a: seq<Delivered>, b: seq<Delivered>, stream: string)
    ensures Of(a + b, stream) == Of(a, stream) + Of(b, stream)
  {
    if a == [] {
      assert a + b == b;
    } else {
      assert (a + b)[0] == a[0] && (a + b)[1..] == a[1..] + b;
      OfJoin(a[1..], b, stream);
      Regroup(if a[0].stream == stream then [a[0].entry] else [], Of(a[1..], stream), Of(b, stream));
    }
  }

  lemma {:induction false} OfTagged(s: string, got: seq<Entry>, stream: string)
    ensures Of(Tagged(s, got), stream) == if s == stream then got else []
  {
    if got != [] {
      assert Tagged(s, got)[1..] == Tagged(s, got[1..]);
      OfTagged(s, got[1..], stream);
      assert got == [got[0]] + got[1..];
    }
  }

  lemma ReplyTracks(cursors: map<string, Id>, server: Server, s: string, skipped: bool, count: nat,
                    history: seq<Entry>, start: Id, got: seq<Entry>)
    requires Stored(history, At(server, s)) && s in cursors
    requires Tracks(history, At(server, s), start, cursors[s], got)
    ensures var more := Reply(cursors, server, s, skipped, count);
            Tracks(history, At(server, s), start, Moved(cursors, s, more)[s], got + more)
  {
    ReadTracks(history, At(server, s), start, cursors[s], got, count);
    assert got + [] == got;
  }

  /** Reads already made do not depend on later ones. */
  lemma {:induction false} RoundKeeps(streams: seq<string>, n: nat, from: map<string, Id>, p: Polling, q: Polling)
    requires n <= |streams| && n <= |p.seen| && p.seen <= q.seen && p.count == q.count
    requires forall i :: 0 <= i < n ==> (i in p.down <==> i in q.down)
    ensures Round(streams, n, from, p.seen, p.down, p.count) == Round(streams, n, from, q.seen, q.down, q.count)
  {
    if n > 0 {
      RoundKeeps(streams, n - 1, from, p, q);
    }
  }

  /** One more read: the poll's cursors and batch move by the reply to it. */
  lemma ReadProgress(w: World, skipped: bool)
    requires w.poll.Some? && Bounded(w.poll.value) && Enabled(w, Read(skipped))
    ensures var s := w.streams[|w.poll.value.seen|];
            var (cursors, batch) := Progress(w);
            var got := Reply(cursors, w.present, s, skipped, w.poll.value.count);
            Progress(Apply(w, Read(skipped))) == (Moved(cursors, s, got), batch + Tagged(s, got))
  {
    var p := w.poll.value;
    RoundKeeps(w.streams, |p.seen|, w.cursors, p, Noted(p, w.present, skipped));
  }

  /** One more reply, seen from one stream. */
  lemma ReadTracksIn(
    w: World, cursors: map<string, Id>, got: seq<Entry>, s: string, skipped: bool, count: nat, stream: string)
    requires Stored(At(w.history, stream), At(w.present, stream)) && TracksIn(w, cursors, got, stream)
    requires s == stream ==> stream in w.starts
    ensures var more := Reply(cursors, w.present, s, skipped, count);
            TracksIn(w, Moved(cursors, s, more), got + if s == stream then more else [], stream)
  {
    if s == stream {
      ReplyTracks(cursors, w.present, s, skipped, count, At(w.history, s), w.starts[s], got);
    } else {
      assert got + [] == got;
    }
  }

  lemma OfMore(out: seq<Entry>, batch: seq<Delivered>, s: string, got: seq<Entry>, stream: string)
    ensures out + Of(batch + Tagged(s, got), stream) == out + Of(batch, stream) + if s == stream then got else []
  {
    OfJoin(batch, Tagged(s, got), stream);
    OfTagged(s, got, stream);
    Regroup(out, Of(batch, stream), Of(Tagged(s, got), stream));
  }

  lemma PollOnly(w: World, p: Polling, cursors: map<string, Id>, got: seq<Entry>, stream: string)
    requires TracksIn(w, cursors, got, stream)
    ensures TracksIn(w.(poll := Some(p)), cursors, got, stream)
  {
  }

  lemma ReadFollows(w: World, skipped: bool, stream: string)
    requires Follows(w, stream) && Enabled(w, Read(skipped))
    ensures Follows(Apply(w, Read(skipped)), stream)
  {
    var s, p := w.streams[|w.poll.value.seen|], Noted(w.poll.value, w.present, skipped);
    var (cursors, batch) := Progress(w);
    var more, out := Reply(cursors, w.present, s, skipped, p.count), Of(w.output, stream);
    ReadProgress(w, skipped);
    OfMore(out, batch, s, more, stream);
    ReadTracksIn(w, cursors, out + Of(batch, stream), s, skipped, p.count, stream);
    PollOnly(w, p, w.cursors, out, stream);
    PollOnly(w, p, Moved(cursors, s, more), out + Of(batch + Tagged(s, more), stream), stream);
  }

  lemma BeginFollows(w: World, count: nat, stream: string)
    requires Follows(w, stream) && Enabled(w, PollBegins(count))
    ensures Follows(Apply(w, PollBegins(count)), stream)
  {
    assert Of(w.output, stream) + [] == Of(w.output, stream);
    PollOnly(w, Polling([], {}, count), w.cursors, Of(w.output, stream), stream);
  }

  /** What a poll hands out is, for each stream, what it read. */
  lemma BatchKept(w: World, stream: string)
    requires Follows(w, stream) && Enabled(w, PollEnds)
    ensures Of(w.output + SortById(Progress(w).1), stream) == Of(w.output, stream) + Of(Progress(w).1, stream)
  {
    var batch := Progress(w).1;
    if stream in w.starts {
      AscendingTail(Of(w.output, stream), Of(batch, stream));
    }
    MergeKeepsStream(batch, stream);
    OfJoin(w.output, SortById(batch), stream);
  }

  lemma Carried(w: World, w': World, cursors: map<string, Id>, got: seq<Entry>, stream: string)
    requires TracksIn(w, cursors, got, stream)
    requires w'.history == w.history && w'.present == w.present && w'.starts == w.starts
    ensures TracksIn(w', cursors, got, stream)
  {
  }

  lemma EndFollows(w: World, stream: string)
    requires Follows(w, stream) && Enabled(w, PollEnds)
    ensures Follows(Apply(w, PollEnds), stream)
  {
    var w' := Apply(w, PollEnds);
    var got := Of(w'.output, stream);
    BatchKept(w, stream);
    Carried(w, w', Progress(w).0, got, stream);
    assert got + [] == got;
  }

  lemma AscendingTail(a: seq<Entry>, b: seq<Entry>)
    requires Ascending(a + b)
    ensures Ascending(b)
  {
    forall i, j | 0 <= i < j < |b|
      ensures Lt(b[i].id, b[j].id)
    {
      assert (a + b)[|a| + i] == b[i] && (a + b)[|a| + j] == b[j];
    }
  }

  lemma AddTracks(w: World, candidates: seq<string>, origin: Origin, got: seq<Entry>, stream: string)
    requires Stored(At(w.history, stream), At(w.present, stream)) && Enabled(w, Add(candidates, origin))
    requires TracksIn(w, w.cursors, got, stream)
    ensures var w' := Apply(w, Add(candidates, origin)); TracksIn(w', w'.cursors, got, stream)
  {
    var added := Fresh(w.cursors.Keys, candidates);
    if stream in added {
      OpenedFollows(At(w.history, stream), At(w.present, stream), origin.fromZero || stream in origin.unanswered);
    }
  }

  lemma AddFollows(w: World, candidates: seq<string>, origin: Origin, stream: string)
    requires Follows(w, stream) && Enabled(w, Add(candidates, origin))
    ensures Follows(Apply(w, Add(candidates, origin)), stream)
  {
    var out := Of(w.output, stream);
    assert out + [] == out;
    AddTracks(w, candidates, origin, out, stream);
  }

  lemma StepFollows(w: World, step: Step, stream: string)
    requires Follows(w, stream) && Enabled(w, step)
    ensures Follows(Apply(w, step), stream)
  {
    match step
    case Append(s, entry) => AppendFollows(w, s, entry, stream);
    case Remove(s, id) => RemoveFollows(w, s, id, stream);
    case PollBegins(count) => BeginFollows(w, count, stream);
    case Read(skipped) => ReadFollows(w, skipped, stream);
    case PollEnds => EndFollows(w, stream);
    case Add(candidates, origin) => AddFollows(w, candidates, origin, stream);
  }

  lemma {:induction false} RunFollows(w: World, steps: seq<Step>, stream: string)
    requires Follows(w, stream) && Run(w, steps).Some?
    ensures Follows(Run(w, steps).value, stream)
  {
    if steps != [] {
      RunFollows(w, steps[..|steps| - 1], stream);
      StepFollows(Run(w, steps[..|steps| - 1]).value, steps[|steps| - 1], stream);
    }
  }

  /**
   Every run of a reader over a stored stream: what it delivered from that stream came out at most once,
   in id order, from between its start and its cursor, and no entry in that range is still waiting.
   */
  lemma DeliversOnceInOrder(history: Server, present: Server, streams: seq<string>, origin: Origin, steps: seq<Step>,
                            stream: string)
    requires Stored(At(history, stream), At(present, stream))
    requires Run(Begin(history, present, streams, origin), steps).Some?
    ensures var w := Run(Begin(history, present, streams, origin), steps).value;
            && (stream in w.cursors <==> stream in w.starts)
            && (stream in w.cursors ==>
                  Tracks(At(w.history, stream), At(w.present, stream), w.starts[stream], w.cursors[stream],
                         Of(w.output, stream)))
            && (stream !in w.cursors ==> Of(w.output, stream) == [])
  {
    OpenedFollows(At(history, stream), At(present, stream), origin.fromZero || stream in origin.unanswered);
    RunFollows(Begin(history, present, streams, origin), steps, stream);
  }

  /** The entries of a stream between two ids. */
  function Between(s: seq<Entry>, lo: Id, hi: Id): (r: seq<Entry>)
    ensures forall e :: e in r <==> e in s && Within(e, lo, hi)
    ensures Ascending(s) ==> Ascending(r)
  {
    if s == [] then []
    else
      var rest := Between(s[1..], lo, hi);
      assert Ascending(s) ==> forall e :: e in s[1..] ==> Lt(s[0].id, e.id);
      if Within(s[0], lo, hi) then [s[0]] + rest else rest
  }

  /** With nothing removed, the delivered sequence is the stream itself from the start to the cursor. */
  lemma NothingSkipped(history: Server, present: Server, streams: seq<string>, origin: Origin, steps: seq<Step>,
                       stream: string)
    requires Stored(At(history, stream), At(present, stream))
    requires Run(Begin(history, present, streams, origin), steps).Some?
    requires var w := Run(Begin(history, present, streams, origin), steps).value;
             stream in w.cursors && At(w.present, stream) == At(w.history, stream)
    ensures var w := Run(Begin(history, present, streams, origin), steps).value;
            && stream in w.starts
            && Of(w.output, stream) == Between(At(w.history, stream), w.starts[stream], w.cursors[stream])
  {
    OpenedFollows(At(history, stream), At(present, stream), origin.fromZero || stream in origin.unanswered);
    RunFollows(Begin(history, present, streams, origin), steps, stream);
    var w := Run(Begin(history, present, streams, origin), steps).value;
    SameMembers(Of(w.output, stream), Between(At(w.history, stream), w.starts[stream], w.cursors[stream]));
  }

  // ---------------------------------------------------------------------------------------------
  // What a start means for the whole run
  // ---------------------------------------------------------------------------------------------

  lemma {:induction false} StartKept(w: World, steps: seq<Step>, stream: string)
    requires stream in w.starts && Run(w, steps).Some?
    ensures stream in Run(w, steps).value.starts && Run(w, steps).value.starts[stream] == w.starts[stream]
  {
    if steps != [] {
      var before := steps[..|steps| - 1];
      StartKept(w, before, stream);
      StartStep(Run(w, before).value, steps[|steps| - 1], stream);
    }
  }

  lemma StartStep(w: World, step: Step, stream: string)
    requires stream in w.starts && Enabled(w, step)
    ensures stream in Apply(w, step).starts && Apply(w, step).starts[stream] == w.starts[stream]
  {
    match step
    case Append(_, _) =>
    case Remove(_, _) =>
    case PollBegins(_) =>
    case Read(_) =>
    case PollEnds =>
    case Add(_, _) =>
  }

  /** A tail start leaves nothing that is there after it. */
  lemma TailIsLast(present: seq<Entry>, start: Id, e: Entry)
    requires Ascending(present) && Starts(start, present, false) && e in present
    ensures Le(e.id, start)
  {
    LastIsLargest(present, e);
  }

  /** A world in which the reader has just covered `stream`, from zero or from its tail. */
  predicate JustCovered(w: World, stream: string, zero: bool) {
    && Follows(w, stream) && stream in w.starts && Of(w.output, stream) == []
    && Starts(w.starts[stream], At(w.present, stream), zero)
  }

  /** From zero, with nothing removed: after any run everything up to the cursor has been delivered, in order. */
  lemma ZeroReaderDelivers(w: World, steps: seq<Step>, stream: string)
    requires JustCovered(w, stream, true) && Run(w, steps).Some?
    requires At(Run(w, steps).value.present, stream) == At(Run(w, steps).value.history, stream)
    ensures var w' := Run(w, steps).value;
            && stream in w'.cursors
            && Of(w'.output, stream) == Between(At(w'.history, stream), ZERO, w'.cursors[stream])
            && forall e :: e in At(w'.history, stream) && Lt(ZERO, e.id) && Le(e.id, w'.cursors[stream]) ==>
                 e in Of(w'.output, stream)
  {
    RunFollows(w, steps, stream);
    StartKept(w, steps, stream);
    var w' := Run(w, steps).value;
    SameMembers(Of(w'.output, stream), Between(At(w'.history, stream), ZERO, w'.cursors[stream]));
  }

  /** From the tail: no run ever delivers an entry that was there when the stream was covered. */
  lemma TailReaderSkips(w: World, steps: seq<Step>, stream: string, e: Entry)
    requires JustCovered(w, stream, false) && Run(w, steps).Some? && e in At(w.present, stream)
    ensures e !in Of(Run(w, steps).value.output, stream)
  {
    RunFollows(w, steps, stream);
    StartKept(w, steps, stream);
    TailIsLast(At(w.present, stream), w.starts[stream], e);
  }

  /** `new` covers its streams as it was asked to. */
  lemma OpeningCovers(history: Server, present: Server, streams: seq<string>, origin: Origin, stream: string)
    requires Stored(At(history, stream), At(present, stream)) && stream in streams
    ensures JustCovered(Begin(history, present, streams, origin), stream,
                        origin.fromZero || stream in origin.unanswered)
  {
    OpenedFollows(At(history, stream), At(present, stream), origin.fromZero || stream in origin.unanswered);
  }

  /** So does `add_streams`, for the candidates it did not cover before. */
  lemma AddingCovers(w: World, candidates: seq<string>, origin: Origin, stream: string)
    requires Follows(w, stream) && Enabled(w, Add(candidates, origin)) && stream in candidates && stream !in w.cursors
    ensures JustCovered(Apply(w, Add(candidates, origin)), stream, origin.fromZero || stream in origin.unanswered)
  {
    AddFollows(w, candidates, origin, stream);
  }

  /** Every entry of `s` has been passed by the cursor. */
  predicate Passed(s: seq<Entry>, cursor: Id) {
    forall e :: e in s ==> Le(e.id, cursor)
  }

  /** An unlimited poll that every stream answers leaves nothing waiting in a stream that stands still. */
  lemma {:induction false} PollCatchesUp(
    streams: seq<string>, n: nat, from: map<string, Id>, seen: seq<Server>, down: set<nat>, count: nat,
    k: nat, present: seq<Entry>)
    requires k < n <= |streams| && n <= |seen| && down == {} && count == 0 && Ascending(present)
    requires forall i :: 0 <= i < n ==> At(seen[i], streams[k]) == present
    ensures Passed(present, CursorOf(Round(streams, n, from, seen, down, count).0, streams[k]))
  {
    if k < n - 1 {
      PollCatchesUp(streams, n - 1, from, seen, down, count, k, present);
    }
    RoundNext(streams, n, from, seen, down, count);
    ReadCatchesUp(Round(streams, n - 1, from, seen, down, count).0, seen[n - 1], streams[n - 1], count, streams[k]);
  }

  lemma ReadCatchesUp(cursors: map<string, Id>, server: Server, s: string, count: nat, stream: string)
    requires s == stream || Passed(At(server, stream), CursorOf(cursors, stream))
    requires Ascending(At(server, stream)) && count == 0
    ensures Passed(At(server, stream), CursorOf(Moved(cursors, s, Reply(cursors, server, s, false, count)), stream))
  {
    if s == stream {
      MovedReaches(cursors, server, s, count);
    } else {
      OtherCursor(cursors, s, Reply(cursors, server, s, false, count), stream);
    }
  }

  lemma RoundNext(streams: seq<string>, n: nat, from: map<string, Id>, seen: seq<Server>, down: set<nat>, count: nat)
    requires 0 < n <= |streams| && n <= |seen|
    ensures var before, s := Round(streams, n - 1, from, seen, down, count).0, streams[n - 1];
            Round(streams, n, from, seen, down, count).0
              == Moved(before, s, Reply(before, seen[n - 1], s, n - 1 in down, count))
  {
  }

  lemma OtherCursor(cursors: map<string, Id>, s: string, got: seq<Entry>, stream: string)
    requires s != stream
    ensures CursorOf(Moved(cursors, s, got), stream) == CursorOf(cursors, stream)
  {
  }

  lemma MovedReaches(cursors: map<string, Id>, server: Server, s: string, count: nat)
    requires Ascending(At(server, s)) && count == 0
    ensures Passed(At(server, s), CursorOf(Moved(cursors, s, Reply(cursors, server, s, false, count)), s))
  {
    forall e | e in At(server, s)
      ensures Le(e.id, CursorOf(Moved(cursors, s, Reply(cursors, server, s, false, count)), s))
    {
      ReadReaches(At(server, s), CursorOf(cursors, s), e);
    }
  }

  lemma ReadReaches(present: seq<Entry>, cursor: Id, e: Entry)
    requires Ascending(present) && e in present
    ensures Le(e.id, Advanced(cursor, XRead(present, cursor, 0)))
  {
    if Lt(cursor, e.id) {
      ReadTakes(present, cursor, 0, e);
    } else {
      ReadMembers(present, cursor, 0);
    }
    ReadMembers(present, cursor, 0);
    LeTrans(e.id, cursor, Advanced(cursor, XRead(present, cursor, 0)));
  }

  lemma LeTrans(a: Id, b: Id, c: Id)
    ensures Le(a, b) && Le(b, c) ==> Le(a, c)
  {
  }
}
