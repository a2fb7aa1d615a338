/**
 The write path (src/capture.rs, src/cluster.rs, src/stats.rs, src/commands.rs): one captured event or one
 envelope from tag resolution through the XADD, its classification, the one re-pin, the registry and the
 counters.
 */
module Capture {
  import opened Text
  import opened Events
  import opened Stats
  import Names

  // ---------------------------------------------------------------------------------------------
  // Replies
  // ---------------------------------------------------------------------------------------------

  datatype Failure = Oom | NonLocal | MidMigration | Unrecognized

  predicate Contains(s: string, sub: string)
    decreases |s|
  {
    StartsWith(s, sub) || (s != "" && Contains(s[1..], sub))
  }

  /** The order in which `mirror_fields` reads an error text. */
  function Classify(msg: string): Failure {
    if StartsWith(msg, "OOM") then Oom
    else if Contains(msg, "non local key") then NonLocal
    else if StartsWith(msg, "TRYAGAIN ") || msg == "TRYAGAIN" || StartsWith(msg, "ASK ") then MidMigration
    else Unrecognized
  }

  lemma {:induction false} ContainsInside(before: string, sub: string, after: string)
    ensures Contains(before + sub + after, sub)
    decreases |before|
  {
    var s := before + sub + after;
    if before == "" {
      assert s[..|sub|] == sub;
    } else {
      assert s[1..] == before[1..] + sub + after;
      ContainsInside(before[1..], sub, after);
    }
  }

  /** The local refusal is recognised whatever code leads it or detail follows it, unless it reads as an OOM. */
  lemma NonLocalAnywhere(before: string, after: string)
    ensures var msg := before + "non local key" + after;
            Classify(msg) == if StartsWith(msg, "OOM") then Oom else NonLocal
  {
    ContainsInside(before, "non local key", after);
  }

  lemma {:induction false} ContainsIff(s: string, sub: string)
    ensures Contains(s, sub) <==> exists before, after :: s == before + sub + after
    decreases |s|
  {
    if exists before, after :: s == before + sub + after {
      var before, after :| s == before + sub + after;
      ContainsInside(before, sub, after);
    }
    if Contains(s, sub) {
      var before, after := ContainedIn(s, sub);
    }
  }

  lemma {:induction false} ContainedIn(s: string, sub: string) returns (before: string, after: string)
    requires Contains(s, sub)
    ensures s == before + sub + after
    decreases |s|
  {
    if StartsWith(s, sub) {
      before, after := "", s[|sub|..];
      assert s == sub + after;
    } else {
      before, after := ContainedIn(s[1..], sub);
      before := [s[0]] + before;
    }
  }

  /** The leading error code: the text up to the first space. */
  function Code(msg: string): string {
    if msg == "" || msg[0] == ' ' then "" else [msg[0]] + Code(msg[1..])
  }

  lemma {:induction false} CodeEnds(code: string, rest: string)
    requires ' ' !in code && (rest == "" || rest[0] == ' ')
    ensures Code(code + rest) == code
  {
    if code == "" {
      assert code + rest == rest;
    } else {
      assert (code + rest)[1..] == code[1..] + rest;
      CodeEnds(code[1..], rest);
    }
  }

  lemma {:induction false} CodeLeads(msg: string)
    ensures Code(msg) <= msg && ' ' !in Code(msg) && (msg == Code(msg) || msg[|Code(msg)|] == ' ')
  {
    if msg != "" && msg[0] != ' ' {
      CodeLeads(msg[1..]);
    }
  }

  lemma StartsWithCode(msg: string, code: string)
    requires ' ' !in code && code != ""
    ensures StartsWith(msg, code + " ") || msg == code <==> Code(msg) == code
  {
    CodeLeads(msg);
    if StartsWith(msg, code + " ") {
      var rest := msg[|code|..];
      assert msg == code + rest && rest[0] == (code + " ")[|code|];
      CodeEnds(code, rest);
    } else if msg == code {
      assert code + "" == code;
      CodeEnds(code, "");
    }
    if Code(msg) == code && msg != code {
      assert msg[..|code| + 1] == code + " ";
    }
  }

  /**
   The classes by the text: out of memory by its first letters, the local refusal by its phrase anywhere, a migration
   window by its leading code, which for a redirection is followed by something.
   */
  lemma ClassifyExactly(msg: string)
    ensures Classify(msg) == Oom <==> exists rest :: msg == "OOM" + rest
    ensures Classify(msg) == NonLocal <==>
            Classify(msg) != Oom && exists before, after :: msg == before + "non local key" + after
    ensures Classify(msg) == MidMigration <==>
            && Classify(msg) != Oom && Classify(msg) != NonLocal
            && (Code(msg) == "TRYAGAIN" || (Code(msg) == "ASK" && msg != "ASK"))
  {
    if StartsWith(msg, "OOM") {
      assert msg == "OOM" + msg[3..];
    }
    ContainsIff(msg, "non local key");
    StartsWithCode(msg, "TRYAGAIN");
    StartsWithCode(msg, "ASK");
  }

  datatype GroupReply = Created | Busy | GroupFailed

  datatype Outcome = Written | Rejected(failure: Failure) | CapReached | EncodeError

  // ---------------------------------------------------------------------------------------------
  // Counters and records
  // ---------------------------------------------------------------------------------------------

  datatype Reason = OutOfMemory | XaddError | DeferError | Migrating | MaxStreams | Unencodable | NoOwnedSlot

  /** The `dropped_*` counters. */
  datatype Drops = Drops(
    oom: nat, xaddError: nat, deferError: nat, migrating: nat, maxStreams: nat, encodeError: nat, noOwnedSlot: nat)

  datatype Counters = Counters(
    forwarded: nat, copied: nat, eventsLost: nat, dropped: Drops,
    registryErrors: nat, groupsCreated: nat, groupsFailed: nat, repins: nat, repinsByProbe: nat,
    markers: nat, envelopes: nat, envelopeEvents: nat, activeStreams: nat)

  /** `count_drop`: one more for the reason. */
  function Drop(d: Drops, reason: Reason): (r: Drops)
    ensures Total(r) == Total(d) + 1
  {
    match reason
    case OutOfMemory => d.(oom := d.oom + 1)
    case XaddError => d.(xaddError := d.xaddError + 1)
    case DeferError => d.(deferError := d.deferError + 1)
    case Migrating => d.(migrating := d.migrating + 1)
    case MaxStreams => d.(maxStreams := d.maxStreams + 1)
    case Unencodable => d.(encodeError := d.encodeError + 1)
    case NoOwnedSlot => d.(noOwnedSlot := d.noOwnedSlot + 1)
  }

  /** All failed writes; `dropped_total` (src/stats.rs:459-466) is this less `noOwnedSlot`. */
  function Total(d: Drops): nat {
    d.oom + d.xaddError + d.deferError + d.migrating + d.maxStreams + d.encodeError + d.noOwnedSlot
  }

  /** A destination key, by the parts its name is built from. */
  datatype StreamKey = KeyOf(prefix: string, tag: Option<string>, suffix: string)

  function NameOf(stream: StreamKey): string {
    Names.StreamName(stream.prefix, stream.tag, stream.suffix)
  }

  /** Under the one configured prefix the parts are as good as the name. */
  lemma KeysAreNames(a: StreamKey, b: StreamKey)
    requires a.prefix == b.prefix && Names.ValidTag(a.tag) && Names.ValidTag(b.tag)
    requires Names.ValidSuffix(a.suffix) && Names.ValidSuffix(b.suffix)
    ensures NameOf(a) == NameOf(b) <==> a == b
  {
    Names.NamesDistinct(a.prefix, a.tag, a.suffix, b.tag, b.suffix);
  }

  type Records = map<StreamKey, StreamStats>

  function RecordOf(records: Records, stream: StreamKey): StreamStats {
    if stream in records then records[stream] else FRESH
  }

  predicate IsCounted(records: Records, stream: StreamKey) {
    RecordOf(records, stream).counted
  }

  /** A record that follows the write path: registered means counted, and counted registered or failed. */
  predicate Settled(st: StreamStats) {
    (st.registered ==> st.counted) && (st.counted ==> st.registered || st.registryFailed)
  }

  /** `slots` is the set of streams that occupy a cap slot, and the gauge is its size. */
  ghost predicate RecordsOk(records: Records, currentStreams: int, slots: set<StreamKey>) {
    && currentStreams == |slots|
    && (forall s :: s in slots <==> IsCounted(records, s))
    && (forall s :: s in records ==> Settled(records[s]))
  }

  /** Every stream the cache calls registered is in the registry. */
  predicate Discoverable(records: Records, registry: set<StreamKey>) {
    forall s :: s in records && records[s].registered ==> s in registry
  }

  lemma SlotsChange(slots: set<StreamKey>, stream: StreamKey)
    ensures |slots + {stream}| == |slots| + if stream in slots then 0 else 1
    ensures |slots - {stream}| == |slots| - if stream in slots then 1 else 0
  {
    if stream in slots {
      assert slots + {stream} == slots && slots == (slots - {stream}) + {stream};
    } else {
      assert slots - {stream} == slots;
    }
  }

  // ---------------------------------------------------------------------------------------------
  // The log of destination writes
  // ---------------------------------------------------------------------------------------------

  /** One XADD to a destination: what it carried, how many events it stood for, and whether it landed. */
  datatype Write = Write(stream: StreamKey, fields: seq<Field>, retention: Retention, events: nat, landed: bool)

  // ---------------------------------------------------------------------------------------------
  // The writer
  // ---------------------------------------------------------------------------------------------

  /** What the counters become when a write of `n` events lands. */
  function Credit(c: Counters, copy: bool, n: nat): Counters {
    if copy then c.(copied := c.copied + n) else c.(forwarded := c.forwarded + n)
  }

  /** Counters a landed write may still move: discovery and provisioning, never the event accounting. */
  predicate SameAccounts(a: Counters, b: Counters) {
    && a.forwarded == b.forwarded && a.copied == b.copied && a.eventsLost == b.eventsLost && a.dropped == b.dropped
    && a.repins == b.repins && a.repinsByProbe == b.repinsByProbe && a.markers == b.markers
    && a.envelopes == b.envelopes && a.envelopeEvents == b.envelopeEvents
  }

  /** The record after a landed write of `n` events: counted in, streak ended, slot taken. */
  function Credited(st: StreamStats, n: nat): (r: StreamStats)
    ensures r.counted && r.failingDrops == 0 && r.forwarded == st.forwarded + n && r.dropped == st.dropped
    ensures r.registered == st.registered && r.registryFailed == st.registryFailed
  {
    RecordSuccess(st.(forwarded := st.forwarded + n)).0.(counted := true)
  }

  /** Everything outside the module, as answers to the n-th call: the format's field set for an event included. */
  datatype Environment = Environment(
    encode: (PendingEvent, Option<nat>) -> Option<seq<Field>>,
    server: nat -> Option<Failure>,  // a keyspace write: no failure, or its class
    groups: nat -> GroupReply,       // XGROUP CREATE
    owned: nat -> Option<string>,    // a tag selection
    database: nat -> bool,           // SelectDb(0)
    clock: nat -> nat)

  /** The per-stream cache beside the server's registry sets; `slots` are the streams the gauge counts. */
  datatype Cache = Cache(records: Records, currentStreams: int, slots: set<StreamKey>, registry: set<StreamKey>)

  ghost predicate Cached(c: Cache) {
    RecordsOk(c.records, c.currentStreams, c.slots)
  }

  /** Every stream the cache calls registered is in the registry. */
  ghost predicate Enrolled(c: Cache) {
    Discoverable(c.records, c.registry)
  }

  /** Replace a stream's record; the gauge and the cap slots follow its counted bit. */
  function Store(c: Cache, stream: StreamKey, st: StreamStats, added: bool): Cache {
    var was := IsCounted(c.records, stream);
    Cache(c.records[stream := st],
          c.currentStreams + (if st.counted then 1 else 0) - (if was then 1 else 0),
          if st.counted then c.slots + {stream} else c.slots - {stream},
          if added then c.registry + {stream} else c.registry)
  }

  lemma StoreCached(c: Cache, stream: StreamKey, st: StreamStats, added: bool)
    requires Cached(c) && Settled(st)
    ensures Cached(Store(c, stream, st, added))
  {
    SlotsChange(c.slots, stream);
    assert stream in c.slots <==> IsCounted(c.records, stream);
  }

  lemma StoreEnrolled(c: Cache, stream: StreamKey, st: StreamStats, added: bool)
    requires Enrolled(c) && (st.registered ==> added || RecordOf(c.records, stream).registered)
    ensures Enrolled(Store(c, stream, st, added))
  {
  }

  /** The pinned tag, the tag last probed as owned, and how many probes said so since the last success or re-pin. */
  datatype Pin = Pin(tag: Option<string>, verified: Option<string>, ownedProbes: nat)

  predicate PinOk(perNode: bool, p: Pin) {
    && (p.verified.Some? ==> p.verified == p.tag) && (!perNode ==> p.tag == None)
    && p.ownedProbes == if p.verified.Some? then 1 else 0
  }

  /** Canonical writes and firehose copies, in order. */
  datatype Ledger = Ledger(writes: seq<Write>, copies: seq<Write>)

  /** Totals the counters are checked against: events handed over, canonical and auxiliary writes given up. */
  datatype Tally = Tally(settled: nat, losses: nat, asides: nat)

  /** Every write given up is counted under exactly one reason, and probe-detected re-pins are re-pins. */
  predicate Booked(c: Counters, tally: Tally) {
    Total(c.dropped) == tally.losses + tally.asides && c.repinsByProbe <= c.repins
  }

  /** A refused write on the stream's record; only the failure window moves. */
  function Failed(c: Cache, stream: StreamKey, now: nat): Cache {
    c.(records := c.records[stream := RecordFailure(RecordOf(c.records, stream), now).0])
  }

  lemma FailedKeeps(c: Cache, stream: StreamKey, now: nat)
    requires Cached(c)
    ensures Cached(Failed(c, stream, now)) && (Enrolled(c) ==> Enrolled(Failed(c, stream, now)))
  {
    var after := Failed(c, stream, now);
    assert forall s :: IsCounted(after.records, s) == IsCounted(c.records, s);
  }

  /** A success on a stream that has a record ends its failing streak. */
  function Recovered(c: Cache, stream: StreamKey): Cache {
    if stream !in c.records then c
    else c.(records := c.records[stream := RecordSuccess(c.records[stream]).0])
  }

  lemma RecoveredKeeps(c: Cache, stream: StreamKey)
    requires Cached(c)
    ensures Cached(Recovered(c, stream)) && (Enrolled(c) ==> Enrolled(Recovered(c, stream)))
  {
    var after := Recovered(c, stream);
    assert forall s :: IsCounted(after.records, s) == IsCounted(c.records, s);
  }

  function Logged(log: Ledger, copy: bool, w: Write): Ledger {
    if copy then log.(copies := log.copies + [w]) else log.(writes := log.writes + [w])
  }

  /** The counter a write that did not land is given up under. */
  function ReasonFor(outcome: Outcome): Reason
    requires !outcome.Written?
  {
    match outcome
    case Rejected(Oom) => OutOfMemory
    case Rejected(NonLocal) => Migrating
    case Rejected(MidMigration) => Migrating
    case Rejected(Unrecognized) => XaddError
    case CapReached => MaxStreams
    case EncodeError => Unencodable
  }

  /** Which one counter of a write given up moves, by what its attempt came to. */
  predicate Charged(before: Drops, after: Drops, outcome: Outcome) {
    match outcome
    case Written => false
    case Rejected(Oom) => after == before.(oom := before.oom + 1)
    case Rejected(NonLocal) => after == before.(migrating := before.migrating + 1)
    case Rejected(MidMigration) => after == before.(migrating := before.migrating + 1)
    case Rejected(Unrecognized) => after == before.(xaddError := before.xaddError + 1)
    case CapReached => after == before.(maxStreams := before.maxStreams + 1)
    case EncodeError => after == before.(encodeError := before.encodeError + 1)
  }

  /** An event that reached no destination: database 0 was refused, or no slot is owned. */
  predicate Unreached(before: Drops, after: Drops, selected: bool) {
    if selected then after == before.(noOwnedSlot := before.noOwnedSlot + 1)
    else after == before.(xaddError := before.xaddError + 1)
  }

  /** Only these failures are charged to the stream itself; the rest concern the node, the cap or the format. */
  predicate ChargesStream(outcome: Outcome) {
    outcome == Rejected(Oom) || outcome == Rejected(Unrecognized)
  }

  /** Whether the cap refuses to create `stream`. */
  predicate CapStops(c: Cache, stream: StreamKey, maxStreams: int) {
    maxStreams > 0 && !IsCounted(c.records, stream) && c.currentStreams >= maxStreams
  }

  /** The event accounting and the pin history are untouched. */
  predicate KeepsEvents(a: Counters, b: Counters) {
    && a.forwarded == b.forwarded && a.copied == b.copied && a.eventsLost == b.eventsLost
    && a.repins == b.repins && a.repinsByProbe == b.repinsByProbe
  }

  /** `n` events were either forwarded or lost. */
  predicate Resolved(before: Counters, after: Counters, n: nat, landed: bool) {
    && after.forwarded == before.forwarded + (if landed then n else 0)
    && after.eventsLost == before.eventsLost + (if landed then 0 else n)
  }

  /** At most `most` attempts, all with the same field set; only the last may land, exactly when `landed`. */
  predicate Tries(before: seq<Write>, after: seq<Write>, fields: Option<seq<Field>>, most: nat, landed: bool) {
    && before <= after && |after| <= |before| + most && (landed ==> |before| < |after|)
    && forall i :: |before| <= i < |after| ==>
         && fields == Some(after[i].fields) && after[i].events == 1
         && (after[i].landed <==> landed && i == |after| - 1)
  }

  /** The `k`-th new attempt, if there is one, went to `stream` with `retention`. */
  predicate Went(before: seq<Write>, after: seq<Write>, k: nat, stream: StreamKey, retention: Retention) {
    |before| + k < |after| ==> after[|before| + k].stream == stream && after[|before| + k].retention == retention
  }

  function OutcomeOf(reply: Option<Failure>): Outcome {
    if reply.None? then Written else Rejected(reply.value)
  }

  /** What the first attempt at an event comes to, its XADD being the `tick`-th call. */
  function Verdict(
    env: Environment, e: PendingEvent, seqno: Option<nat>, c: Cache, stream: StreamKey, tick: nat): Outcome
  {
    if env.encode(e, seqno).None? then EncodeError
    else if CapStops(c, stream, e.maxStreams) then CapReached
    else OutcomeOf(env.server(tick))
  }

  /** The same for a group, which is already encoded. */
  function GroupVerdict(env: Environment, c: Cache, stream: StreamKey, maxStreams: int, tick: nat): Outcome {
    if CapStops(c, stream, maxStreams) then CapReached else OutcomeOf(env.server(tick))
  }

  /** The event's slot is known to be gone. */
  predicate SlotGone(outcome: Outcome) {
    outcome == Rejected(NonLocal) || outcome == Rejected(MidMigration)
  }

  /** Whether the event lands, where the first verdict settles it. */
  predicate Decides(first: Outcome, landed: bool) {
    (first.Written? ==> landed) && (!first.Written? && !SlotGone(first) && first != Rejected(Unrecognized) ==> !landed)
  }

  /** What the first verdict settles by itself: a success, or a refusal that no re-pin can answer. */
  predicate Follows(first: Outcome, before: Counters, after: Counters, landed: bool) {
    && (first.Written? ==> landed && after.repins == before.repins)
    && (SlotGone(first) ==> after.repins == before.repins + 1 && after.repinsByProbe == before.repinsByProbe)
    && (!first.Written? && !SlotGone(first) && first != Rejected(Unrecognized) ==>
          !landed && after.repins == before.repins && Charged(before.dropped, after.dropped, first))
    && (first == Rejected(Unrecognized) ==>
          after.repins - before.repins == after.repinsByProbe - before.repinsByProbe
          && (after.repins == before.repins ==> !landed && Charged(before.dropped, after.dropped, first)))
  }

  /** The tag an event is written under, and the number of the call after it is known. */
  function TagFor(env: Environment, perNode: bool, pin: Pin, tick: nat): (Option<string>, nat) {
    if !perNode || pin.tag.Some? then (pin.tag, tick) else (env.owned(tick), tick + 1)
  }

  /** Database 0 is selected and a tag, where one is needed, is found. */
  predicate Reaches(env: Environment, perNode: bool, pin: Pin, tick: nat) {
    env.database(tick) && (!perNode || TagFor(env, perNode, pin, tick + 1).0.Some?)
  }

  /** The first verdict under `target`'s tag, given by its call, decides the event. */
  predicate SettledBy(
    env: Environment, e: PendingEvent, seqno: Option<nat>, c: Cache, target: (Option<string>, nat), landed: bool)
  {
    Decides(Verdict(env, e, seqno, c, KeyOf(e.prefix, target.0, e.suffix), target.1), landed)
  }

  predicate Answers(env: Environment, fields: Option<seq<Field>>, copied: bool, call: nat) {
    copied <==> fields.Some? && env.server(call).None?
  }

  /** Without tags, the copy is made exactly when it can be encoded and the one call for it is accepted. */
  ghost predicate Mirrors(env: Environment, perNode: bool, fields: Option<seq<Field>>, copied: bool) {
    perNode || exists call :: Answers(env, fields, copied, call)
  }

  lemma TriesTwice(a: seq<Write>, b: seq<Write>, c: seq<Write>, fields: Option<seq<Field>>, landed: bool)
    requires Tries(a, b, fields, 1, false) && Tries(b, c, fields, 1, landed)
    ensures Tries(a, c, fields, 2, landed)
  {
    forall i | |a| <= i < |b|
      ensures c[i] == b[i]
    {
    }
  }

  /** A name removed from the registry gives up its slot and its registered bit with it. */
  function Pruned(c: Cache, name: StreamKey): Cache {
    var kept := if name !in c.records then c
                else Store(c, name,
                           c.records[name].(counted := false, registered := false, registryFailed := false), false);
    kept.(registry := c.registry - {name})
  }

  lemma PrunedKeeps(c: Cache, name: StreamKey)
    requires Cached(c)
    ensures Cached(Pruned(c, name)) && Pruned(c, name).slots == c.slots - {name}
    ensures Enrolled(c) ==> Enrolled(Pruned(c, name))
  {
    if name in c.records {
      StoreCached(c, name, c.records[name].(counted := false, registered := false, registryFailed := false), false);
    } else {
      assert name in c.slots <==> IsCounted(c.records, name);
      assert c.slots - {name} == c.slots;
    }
  }

  /** The registry members found absent whose `SREM` succeeded. */
  function Gone(names: seq<StreamKey>, absent: StreamKey -> bool, removed: StreamKey -> bool): set<StreamKey> {
    set s | s in names && absent(s) && removed(s)
  }

  /** One member considered. */
  function Considered(c: Cache, name: StreamKey, absent: StreamKey -> bool, removed: StreamKey -> bool): Cache {
    if absent(name) && removed(name) then Pruned(c, name) else c
  }

  function PrunedAll(c: Cache, names: seq<StreamKey>, absent: StreamKey -> bool, removed: StreamKey -> bool): Cache
    decreases |names|
  {
    if |names| == 0 then c
    else PrunedAll(Considered(c, names[0], absent, removed), names[1..], absent, removed)
  }

  function PrunedCount(names: seq<StreamKey>, absent: StreamKey -> bool, removed: StreamKey -> bool): nat {
    if |names| == 0 then 0
    else (if absent(names[0]) && removed(names[0]) then 1 else 0) + PrunedCount(names[1..], absent, removed)
  }

  predicate Distinct(names: seq<StreamKey>) {
    forall i, j :: 0 <= i < j < |names| ==> names[i] != names[j]
  }

  lemma GoneStep(names: seq<StreamKey>, absent: StreamKey -> bool, removed: StreamKey -> bool)
    requires |names| > 0 && Distinct(names)
    ensures Distinct(names[1..]) && names[0] !in Gone(names[1..], absent, removed)
    ensures Gone(names, absent, removed)
         == (if absent(names[0]) && removed(names[0]) then {names[0]} else {}) + Gone(names[1..], absent, removed)
  {
    assert names == [names[0]] + names[1..];
  }

  lemma SetFacts(a: set<StreamKey>, x: StreamKey, rest: set<StreamKey>)
    ensures (a - {x}) - rest == a - ({x} + rest) && a - ({} + rest) == a - rest
    ensures x !in rest ==> |{x} + rest| == 1 + |rest|
    ensures |{} + rest| == |rest|
  {
    assert {x} + rest == rest + {x} && {} + rest == rest;
    SlotsChange(rest, x);
  }

  lemma {:induction false} CountsGone(names: seq<StreamKey>, absent: StreamKey -> bool, removed: StreamKey -> bool)
    requires Distinct(names)
    ensures PrunedCount(names, absent, removed) == |Gone(names, absent, removed)|
  {
    if |names| == 0 {
      assert Gone(names, absent, removed) == {};
    } else {
      GoneStep(names, absent, removed);
      CountsGone(names[1..], absent, removed);
      SetFacts({}, names[0], Gone(names[1..], absent, removed));
    }
  }

  lemma ConsideredKeeps(c: Cache, name: StreamKey, absent: StreamKey -> bool, removed: StreamKey -> bool)
    requires Cached(c)
    ensures var after := Considered(c, name, absent, removed);
            && Cached(after) && (Enrolled(c) ==> Enrolled(after))
            && after.slots == (if absent(name) && removed(name) then c.slots - {name} else c.slots)
            && after.registry == (if absent(name) && removed(name) then c.registry - {name} else c.registry)
  {
    PrunedKeeps(c, name);
  }

  lemma {:induction false} PrunedAllKeeps(c: Cache, names: seq<StreamKey>, absent: StreamKey -> bool,
                                          removed: StreamKey -> bool)
    requires Cached(c)
    ensures var after := PrunedAll(c, names, absent, removed); Cached(after) && (Enrolled(c) ==> Enrolled(after))
    decreases |names|
  {
    if |names| > 0 {
      ConsideredKeeps(c, names[0], absent, removed);
      PrunedAllKeeps(Considered(c, names[0], absent, removed), names[1..], absent, removed);
    }
  }

  lemma {:induction false} PrunedAllGone(c: Cache, names: seq<StreamKey>, absent: StreamKey -> bool,
                                         removed: StreamKey -> bool)
    requires Cached(c) && Distinct(names)
    ensures var after, gone := PrunedAll(c, names, absent, removed), Gone(names, absent, removed);
            after.registry == c.registry - gone && after.slots == c.slots - gone
    decreases |names|
  {
    if |names| == 0 {
      assert Gone(names, absent, removed) == {};
    } else {
      GoneStep(names, absent, removed);
      var rest := Gone(names[1..], absent, removed);
      ConsideredKeeps(c, names[0], absent, removed);
      PrunedAllGone(Considered(c, names[0], absent, removed), names[1..], absent, removed);
      SetFacts(c.registry, names[0], rest);
      SetFacts(c.slots, names[0], rest);
    }
  }

  /** The suffix of the control stream. */
  const CONTROL: string := "#control"

  /** The suffix of the combined stream. */
  const FIREHOSE: string := "#firehose"

  /** How one event changes the cap slots: at most one new stream, and under a cap only while there was room. */
  predicate Capped(before: set<StreamKey>, after: set<StreamKey>, maxStreams: int) {
    && before <= after && |after| <= |before| + 1
    && (maxStreams > 0 && after != before ==> |after| <= maxStreams)
  }

  /** A landed write leaves its stream holding a slot; any other leaves the slots alone. */
  predicate Slotted(before: set<StreamKey>, after: set<StreamKey>, landed: bool, stream: StreamKey) {
    after == if landed then before + {stream} else before
  }

  lemma CapHolds(c: Cache, stream: StreamKey, maxStreams: int)
    requires Cached(c) && !CapStops(c, stream, maxStreams)
    ensures Capped(c.slots, c.slots + {stream}, maxStreams)
  {
    SlotsChange(c.slots, stream);
    assert stream in c.slots <==> IsCounted(c.records, stream);
    if stream in c.slots {
      assert c.slots + {stream} == c.slots;
    }
  }

  lemma FreshCache(c: Cache)
    requires c.records.Keys == {} && c.slots == {} && c.currentStreams == 0
    ensures Cached(c) && Enrolled(c)
  {
  }

  /** The combined stream of some tag. */
  predicate IsFirehose(stream: StreamKey) {
    stream.suffix == FIREHOSE
  }

  /** No event's stream is taken for a firehose. */
  lemma EventKey(prefix: string, tag: Option<string>, event: string)
    ensures !IsFirehose(KeyOf(prefix, tag, Sanitize(event)))
  {
    assert FIREHOSE[0] == '#';
  }

  /** The event streams that hold a cap slot. */
  ghost function EventSlots(slots: set<StreamKey>): set<StreamKey> {
    set s | s in slots && !IsFirehose(s)
  }

  lemma SubsetSize(a: set<StreamKey>, b: set<StreamKey>)
    requires a <= b
    ensures |a| <= |b|
  {
    assert b == a + (b - a);
  }

  lemma EventSlotsFit(a: set<StreamKey>, b: set<StreamKey>)
    requires a <= b
    ensures |EventSlots(a)| <= |EventSlots(b)| <= |b|
  {
    SubsetSize(EventSlots(a), EventSlots(b));
    SubsetSize(EventSlots(b), b);
  }

  /** One event's effect on the event streams: no more than before, or no more than its cap. */
  ghost predicate EventCapped(before: set<StreamKey>, after: set<StreamKey>, maxStreams: int) {
    maxStreams > 0 ==> |EventSlots(after)| <= |EventSlots(before)| || |EventSlots(after)| <= maxStreams
  }

  /** The slots an event and its copy leave where no tag is in use. */
  predicate SlottedTwice(before: set<StreamKey>, after: set<StreamKey>, e: PendingEvent, landed: bool, copied: bool) {
    var mid := if landed then before + {KeyOf(e.prefix, None, e.suffix)} else before;
    Slotted(mid, after, copied, KeyOf(e.prefix, None, FIREHOSE))
  }

  /** A canonical write within the cap, then perhaps a copy: the copy adds no event stream. */
  lemma CopyIsExempt(
    before: set<StreamKey>, mid: set<StreamKey>, after: set<StreamKey>, copy: StreamKey, maxStreams: int)
    requires Capped(before, mid, maxStreams) && IsFirehose(copy) && mid <= after <= mid + {copy}
    ensures EventCapped(before, after, maxStreams)
  {
    assert EventSlots(after) == EventSlots(mid);
    EventSlotsFit(mid, mid);
  }

  lemma CappedEvents(before: set<StreamKey>, after: set<StreamKey>, maxStreams: int)
    requires Capped(before, after, maxStreams)
    ensures EventCapped(before, after, maxStreams)
  {
    EventSlotsFit(after, after);
  }

  // ---------------------------------------------------------------------------------------------
  // What can happen between two loads
  // ---------------------------------------------------------------------------------------------

  datatype Op =
    | EventOp(e: PendingEvent)
    | EnvelopeOp(events: seq<PendingEvent>, fields: seq<Field>)
    | DeferOp
    | PruneOp(names: seq<StreamKey>, absent: StreamKey -> bool, removed: StreamKey -> bool)
    | FlushOp(db: int)
    | SwapOp(first: int, second: int, capturing: bool, arrived: set<StreamKey>)
    | FirehoseOp(on: bool)
    | AutoGroupOp(on: bool)

  /** The members of a registry set come without repetition. */
  predicate WellPosed(op: Op) {
    op.PruneOp? ==> Distinct(op.names)
  }

  /** The operation's events run under a cap of at most `cap`. */
  predicate Under(op: Op, cap: int) {
    && (op.EventOp? ==> 0 < op.e.maxStreams <= cap)
    && (op.EnvelopeOp? && op.events != [] ==> 0 < op.events[0].maxStreams <= cap)
  }

  function HandedBy(op: Op): nat {
    match op
    case EventOp(_) => 1
    case EnvelopeOp(events, _) => |events|
    case DeferOp => 1
    case _ => 0
  }

  function Handed(ops: seq<Op>): nat {
    if |ops| == 0 then 0 else Handed(ops[..|ops| - 1]) + HandedBy(ops[|ops| - 1])
  }

  /** Not a swap of database 0 on a node that is not the capturing master. */
  predicate KeepsRegistry(op: Op) {
    op.SwapOp? && (op.first == 0 || op.second == 0) ==> op.capturing
  }

  class Writer {
    const perNode: bool
    const env: Environment
    var tick: nat                 // calls made so far
    var autoGroup: bool
    var firehose: bool
    var pin: Pin
    var cache: Cache
    var counts: Counters
    var nextSeq: nat
    var log: Ledger
    ghost var tally: Tally

    /** What holds after every step inside an event. */
    ghost predicate Core()
      reads this
    {
      Cached(cache) && Booked(counts, tally) && PinOk(perNode, pin)
    }

    /** What holds between events: each one handed over was forwarded or lost, never both. */
    ghost predicate Valid()
      reads this
    {
      Core() && tally.settled == counts.forwarded + counts.eventsLost
    }

    /** The resets at module load: nothing pinned, nothing cached, every counter zero; the registry outlives them. */
    method Reset()
      modifies this
      ensures Valid() && Enrolled(cache)
      ensures cache.records.Keys == {} && cache.registry == old(cache).registry
      ensures tally.settled == 0 && nextSeq == 0 && pin.tag == None && log == Ledger([], [])
      ensures Total(counts.dropped) == counts.forwarded == counts.copied == counts.eventsLost == counts.repins == 0
      ensures counts.registryErrors == counts.groupsCreated == counts.groupsFailed == counts.repinsByProbe == 0
      ensures counts.markers == counts.envelopes == counts.envelopeEvents == counts.activeStreams == 0
    {
      tick, nextSeq := 0, 0;
      pin := Pin(None, None, 0);
      cache := Cache(map[], 0, {}, cache.registry);
      counts := Counters(0, 0, 0, Drops(0, 0, 0, 0, 0, 0, 0), 0, 0, 0, 0, 0, 0, 0, 0, 0);
      log := Ledger([], []);
      tally := Tally(0, 0, 0);
      FreshCache(cache);
    }

    method Call() returns (failure: Option<Failure>)
      modifies this`tick
      ensures failure == env.server(old(tick)) && tick == old(tick) + 1
    {
      failure := env.server(tick);
      tick := tick + 1;
    }

    /** The auto-group step: a group that exists already is done but not counted as created. */
    method Provision(st: StreamStats) returns (done: StreamStats)
      modifies this`tick, this`counts
      ensures done == st.(groupCreated := done.groupCreated)
      ensures counts == old(counts).(groupsCreated := counts.groupsCreated, groupsFailed := counts.groupsFailed)
      ensures autoGroup && !st.groupCreated ==>
                var reply := env.groups(old(tick));
                && (done.groupCreated <==> !reply.GroupFailed?)
                && counts.groupsCreated == old(counts).groupsCreated + (if reply.Created? then 1 else 0)
                && counts.groupsFailed == old(counts).groupsFailed + (if reply.GroupFailed? then 1 else 0)
      ensures st.groupCreated || !autoGroup ==> counts == old(counts) && done == st
    {
      done := st;
      if autoGroup && !done.groupCreated {
        var reply := env.groups(tick);
        tick := tick + 1;
        match reply {
          case Created =>
            counts := counts.(groupsCreated := counts.groupsCreated + 1);
            done := done.(groupCreated := true);
          case Busy =>
            done := done.(groupCreated := true);
          case GroupFailed =>
            counts := counts.(groupsFailed := counts.groupsFailed + 1);
        }
      }
    }

    /** The registry `SADD`, once per stream until it succeeds. */
    method Register(st: StreamStats) returns (done: StreamStats, added: bool)
      requires st.counted
      modifies this`tick, this`counts
      ensures Settled(done) && done == st.(registered := done.registered, registryFailed := done.registryFailed)
      ensures done.registered <==> st.registered || added
      ensures added <==> !st.registered && env.server(old(tick)).None?
      ensures done.registryFailed == if st.registered then st.registryFailed else !added
      ensures counts == old(counts).(registryErrors := old(counts).registryErrors + if done.registered then 0 else 1)
    {
      done, added := st, false;
      if !st.registered {
        var failure := Call();
        added := failure.None?;
        if added {
          done := st.(registered := true, registryFailed := false);
        } else {
          done := st.(registryFailed := true);
          counts := counts.(registryErrors := counts.registryErrors + 1);
        }
      }
    }

    /** The stream's record after a landed write: credited, its cap slot taken, in the registry, its group made. */
    method Book(stream: StreamKey, n: nat)
      requires Cached(cache)
      modifies this`tick, this`cache, this`counts
      ensures Cached(cache) && (Enrolled(old(cache)) ==> Enrolled(cache))
      ensures cache.slots == old(cache).slots + {stream}
      ensures SameAccounts(counts, old(counts)) && counts.activeStreams == old(counts).activeStreams
      ensures stream in cache.records && cache.records == old(cache).records[stream := cache.records[stream]]
      ensures cache.records[stream].forwarded == RecordOf(old(cache).records, stream).forwarded + n
      ensures var was, now := RecordOf(old(cache).records, stream), cache.records[stream];
              && (now.registered <==> was.registered || env.server(old(tick)).None?)
              && cache.registry == old(cache).registry + if now.registered && !was.registered then {stream} else {}
    {
      var st, added := Register(Credited(RecordOf(cache.records, stream), n));
      st := Provision(st);
      StoreCached(cache, stream, st, added);
      if Enrolled(cache) {
        StoreEnrolled(cache, stream, st, added);
      }
      cache := Store(cache, stream, st, added);
    }

    /** The success half of `mirror_fields`: the counter, the probe budget, the stream's record. */
    method Land(stream: StreamKey, copy: bool, n: nat)
      requires Cached(cache)
      modifies this`tick, this`cache, this`counts, this`pin
      ensures Cached(cache) && (Enrolled(old(cache)) ==> Enrolled(cache))
      ensures cache.slots == old(cache).slots + {stream}
      ensures SameAccounts(counts, Credit(old(counts), copy, n))
      ensures pin == if perNode then Pin(old(pin).tag, None, 0) else old(pin)
      ensures stream in cache.records && cache.records == old(cache).records[stream := cache.records[stream]]
      ensures cache.records[stream].forwarded == RecordOf(old(cache).records, stream).forwarded + n
      ensures counts.activeStreams == old(counts).activeStreams + if stream in old(cache).slots then 0 else 1
      ensures var was, now := RecordOf(old(cache).records, stream), cache.records[stream];
              && (now.registered <==> was.registered || env.server(old(tick)).None?)
              && cache.registry == old(cache).registry + if now.registered && !was.registered then {stream} else {}
    {
      counts := Credit(counts, copy, n);
      if perNode {
        pin := Pin(pin.tag, None, 0);
      }
      assert stream in cache.slots <==> IsCounted(cache.records, stream);
      if !RecordOf(cache.records, stream).counted {
        counts := counts.(activeStreams := counts.activeStreams + 1);
      }
      Book(stream, n);
    }

    /** `mirror_fields`: the cap check, one XADD, and on success everything `Land` does. */
    method MirrorFields(
      stream: StreamKey, fields: seq<Field>, retention: Retention, maxStreams: int, copy: bool, n: nat)
      returns (outcome: Outcome)
      requires Core()
      modifies this`tick, this`cache, this`counts, this`pin, this`log
      ensures Core() && (Enrolled(old(cache)) ==> Enrolled(cache))
      ensures outcome.CapReached? <==> CapStops(old(cache), stream, maxStreams)
      ensures outcome.CapReached? ==> log == old(log)
      ensures !outcome.CapReached? ==>
                && log == Logged(old(log), copy, Write(stream, fields, retention, n, outcome.Written?))
                && !outcome.EncodeError?
      ensures !outcome.CapReached? ==> outcome == OutcomeOf(env.server(old(tick)))
      ensures !outcome.Written? ==> cache == old(cache) && counts == old(counts) && pin == old(pin)
      ensures outcome.Written? ==>
                && SameAccounts(counts, Credit(old(counts), copy, n))
                && cache.slots == old(cache).slots + {stream}
                && pin == if perNode then Pin(old(pin).tag, None, 0) else old(pin)
    {
      if maxStreams > 0 {
        var known := stream in cache.records && cache.records[stream].counted;
        if !known && cache.currentStreams >= maxStreams {
          return CapReached;
        }
      }
      var failure := Call();
      var w := Write(stream, fields, retention, n, failure.None?);
      log := Logged(log, copy, w);
      if failure.Some? {
        return Rejected(failure.value);
      }
      Land(stream, copy, n);
      return Written;
    }

    /** `count_events_lost`: `n` events lost through one write given up. */
    method Lose(n: nat, reason: Reason)
      requires Core()
      modifies this`counts, this`tally
      ensures Core()
      ensures counts
           == old(counts).(eventsLost := old(counts).eventsLost + n, dropped := Drop(old(counts).dropped, reason))
      ensures tally == old(tally).(losses := old(tally).losses + 1)
    {
      counts := counts.(eventsLost := counts.eventsLost + n);
      counts := counts.(dropped := Drop(counts.dropped, reason));
      tally := tally.(losses := tally.losses + 1);
    }

    /** `count_drop` for a copy or a marker: no event is lost. */
    method SetAside(reason: Reason)
      requires Core()
      modifies this`counts, this`tally
      ensures Core()
      ensures counts == old(counts).(dropped := Drop(old(counts).dropped, reason))
      ensures tally == old(tally).(asides := old(tally).asides + 1)
    {
      counts := counts.(dropped := Drop(counts.dropped, reason));
      tally := tally.(asides := tally.asides + 1);
    }

    /** The stream half of `count_stream_drop`. */
    method Charge(stream: StreamKey)
      requires Core()
      modifies this`cache, this`tick
      ensures Core() && cache == Failed(old(cache), stream, env.clock(old(tick)))
      ensures Enrolled(old(cache)) ==> Enrolled(cache)
    {
      FailedKeeps(cache, stream, env.clock(tick));
      cache := Failed(cache, stream, env.clock(tick));
      tick := tick + 1;
    }

    /** Account for a canonical write of `n` events that will not be tried again. */
    method Settle(stream: StreamKey, outcome: Outcome, n: nat)
      requires Core()
      modifies this`counts, this`tally, this`cache, this`tick
      ensures Core() && cache.slots == old(cache).slots && (Enrolled(old(cache)) ==> Enrolled(cache))
      ensures outcome.Written? ==> counts == old(counts) && tally == old(tally) && cache == old(cache)
      ensures !outcome.Written? ==>
                && counts == old(counts).(eventsLost := old(counts).eventsLost + n, dropped := counts.dropped)
                && Charged(old(counts).dropped, counts.dropped, outcome)
                && tally == old(tally).(losses := old(tally).losses + 1)
      ensures !ChargesStream(outcome) ==> cache == old(cache)
      ensures ChargesStream(outcome) ==>
                RecordOf(cache.records, stream).dropped == RecordOf(old(cache).records, stream).dropped + 1
    {
      if !outcome.Written? {
        Lose(n, ReasonFor(outcome));
        if ChargesStream(outcome) {
          Charge(stream);
        }
      }
    }

    /** `write_marker`: a control entry, never an event. */
    method ControlMarker(stream: StreamKey)
      requires Core()
      modifies this`counts, this`tally, this`cache, this`tick
      ensures Core() && cache.slots == old(cache).slots && (Enrolled(old(cache)) ==> Enrolled(cache))
      ensures KeepsEvents(counts, old(counts))
      ensures tally.losses == old(tally).losses && tally.settled == old(tally).settled
      ensures counts.markers + tally.asides == old(counts).markers + old(tally).asides + 1
      ensures var selected, failure := env.database(old(tick)), env.server(old(tick) + 1);
              if selected && failure.None? then
                counts == old(counts).(markers := old(counts).markers + 1)
              else
                && counts == old(counts).(dropped := counts.dropped)
                && Charged(old(counts).dropped, counts.dropped,
                           Rejected(if selected && failure.value.Oom? then Oom else Unrecognized))
    {
      var selected := env.database(tick);
      tick := tick + 1;
      if !selected {
        SetAside(XaddError);
        return;
      }
      var failure := Call();
      if failure.None? {
        counts := counts.(markers := counts.markers + 1);
        RecoveredKeeps(cache, stream);
        cache := Recovered(cache, stream);
      } else {
        SetAside(if failure.value.Oom? then OutOfMemory else XaddError);
        Charge(stream);
      }
    }

    /** `tag_segment`: nothing to pin outside per-node mode; otherwise the cached tag, selected on first use. */
    method TagSegment() returns (found: bool, tag: Option<string>)
      requires Core()
      modifies this`tick, this`pin
      ensures Core() && tag == pin.tag && (found <==> !perNode || tag.Some?)
      ensures (tag, tick) == TagFor(env, perNode, old(pin), old(tick))
      ensures old(pin).tag.Some? || !perNode ==> pin == old(pin) && tick == old(tick)
      ensures old(pin).tag.None? && perNode ==> pin == old(pin).(tag := env.owned(old(tick)))
    {
      if !perNode {
        return true, None;
      }
      if pin.tag.None? {
        pin := pin.(tag := env.owned(tick));
        tick := tick + 1;
      }
      return pin.tag.Some?, pin.tag;
    }

    /** `pinned_tag_lost_by_probe`: at most one probe, and none for a tag verified since the last success or re-pin. */
    method TagLost() returns (lost: bool)
      requires Core()
      modifies this`tick, this`pin
      ensures Core() && pin.tag == old(pin).tag
      ensures lost ==> perNode && pin == old(pin) && pin.tag.Some? && pin.verified.None?
      ensures !perNode || old(pin).tag.None? || old(pin).verified == old(pin).tag ==> !lost && tick == old(tick)
      ensures tick == old(tick) + 1 ==>
                var failure := env.server(old(tick));
                && (lost <==> failure.Some? && !failure.value.Oom?)
                && (pin != old(pin) <==> failure.None?)
      ensures old(tick) <= tick <= old(tick) + 1
    {
      if !perNode || pin.tag.None? || pin.verified == pin.tag {
        return false;
      }
      var failure := Call();
      if failure.None? {
        pin := pin.(verified := pin.tag, ownedProbes := pin.ownedProbes + 1);
        return false;
      }
      return !failure.value.Oom?;
    }

    /** `mirror_entry`: the format's field set, refused before the XADD when it cannot be built. */
    method MirrorEntry(e: PendingEvent, seqno: Option<nat>, stream: StreamKey, retention: Retention, maxStreams: int,
                       copy: bool)
      returns (outcome: Outcome)
      requires Core()
      modifies this`tick, this`cache, this`counts, this`pin, this`log
      ensures Core() && (Enrolled(old(cache)) ==> Enrolled(cache))
      ensures outcome.EncodeError? <==> env.encode(e, seqno).None?
      ensures outcome.CapReached? <==> env.encode(e, seqno).Some? && CapStops(old(cache), stream, maxStreams)
      ensures outcome.CapReached? || outcome.EncodeError? ==> log == old(log)
      ensures !outcome.CapReached? && !outcome.EncodeError? ==>
                log == Logged(old(log), copy, Write(stream, env.encode(e, seqno).value, retention, 1, outcome.Written?))
      ensures !outcome.CapReached? && !outcome.EncodeError? ==> outcome == OutcomeOf(env.server(old(tick)))
      ensures !outcome.Written? ==> cache == old(cache) && counts == old(counts) && pin == old(pin)
      ensures outcome.Written? ==>
                && SameAccounts(counts, Credit(old(counts), copy, 1))
                && cache.slots == old(cache).slots + {stream}
                && pin == if perNode then Pin(old(pin).tag, None, 0) else old(pin)
    {
      var fields := env.encode(e, seqno);
      if fields.None? {
        return EncodeError;
      }
      outcome := MirrorFields(stream, fields.value, retention, maxStreams, copy, 1);
    }

    /** One canonical attempt under the given tag, accounted for whatever comes of it. */
    method LastTry(e: PendingEvent, seqno: Option<nat>, tag: Option<string>) returns (landed: bool)
      requires Core() && tag == pin.tag
      modifies this`tick, this`cache, this`counts, this`pin, this`log, this`tally
      ensures Core() && (Enrolled(old(cache)) ==> Enrolled(cache))
      ensures counts.repins == old(counts).repins && counts.repinsByProbe == old(counts).repinsByProbe
      ensures Resolved(old(counts), counts, 1, landed) && counts.copied == old(counts).copied
      ensures Tries(old(log).writes, log.writes, env.encode(e, seqno), 1, landed) && log.copies == old(log).copies
      ensures tally.losses == old(tally).losses + (if landed then 0 else 1) && tally.settled == old(tally).settled
      ensures tally.asides == old(tally).asides && counts.markers == old(counts).markers
      ensures Capped(old(cache).slots, cache.slots, e.maxStreams)
      ensures pin.tag == old(pin).tag
      ensures Slotted(old(cache).slots, cache.slots, landed, KeyOf(e.prefix, pin.tag, e.suffix))
      ensures Went(old(log).writes, log.writes, 0, KeyOf(e.prefix, tag, e.suffix), e.dataRetention)
      ensures var outcome := Verdict(env, e, seqno, old(cache), KeyOf(e.prefix, tag, e.suffix), old(tick));
              && (landed <==> outcome.Written?)
              && (!landed ==> Charged(old(counts).dropped, counts.dropped, outcome))
    {
      var stream := KeyOf(e.prefix, tag, e.suffix);
      if !CapStops(cache, stream, e.maxStreams) {
        CapHolds(cache, stream, e.maxStreams);
      }
      var outcome := MirrorEntry(e, seqno, stream, e.dataRetention, e.maxStreams, false);
      landed := outcome.Written?;
      Settle(stream, outcome, 1);
    }

    /** The marker that delimits a re-pin, and the one more attempt. */
    method MarkAndRetry(e: PendingEvent, seqno: Option<nat>, tag: Option<string>) returns (landed: bool)
      requires Core() && tag == pin.tag
      modifies this`tick, this`cache, this`counts, this`pin, this`log, this`tally
      ensures Core() && (Enrolled(old(cache)) ==> Enrolled(cache)) && pin.tag == old(pin).tag
      ensures counts.repins == old(counts).repins && counts.repinsByProbe == old(counts).repinsByProbe
      ensures Resolved(old(counts), counts, 1, landed) && counts.copied == old(counts).copied
      ensures Tries(old(log).writes, log.writes, env.encode(e, seqno), 1, landed) && log.copies == old(log).copies
      ensures tally.losses == old(tally).losses + (if landed then 0 else 1) && tally.settled == old(tally).settled
      ensures counts.markers + tally.asides == old(counts).markers + old(tally).asides + 1
      ensures Capped(old(cache).slots, cache.slots, e.maxStreams)
      ensures Slotted(old(cache).slots, cache.slots, landed, KeyOf(e.prefix, pin.tag, e.suffix))
      ensures Went(old(log).writes, log.writes, 0, KeyOf(e.prefix, pin.tag, e.suffix), e.dataRetention)
    {
      ControlMarker(KeyOf(e.prefix, tag, CONTROL));
      landed := LastTry(e, seqno, tag);
    }

    /**
     `repin_and_retry`: drop the pin, select again, delimit the change with a marker, and try once more.
     Whatever comes of it, the event is resolved here.
     */
    method RepinAndRetry(e: PendingEvent, seqno: Option<nat>) returns (landed: bool)
      requires Core()
      modifies this`tick, this`cache, this`counts, this`pin, this`log, this`tally
      ensures Core() && (Enrolled(old(cache)) ==> Enrolled(cache))
      ensures counts.repins == old(counts).repins + 1 && counts.repinsByProbe == old(counts).repinsByProbe
      ensures Resolved(old(counts), counts, 1, landed) && counts.copied == old(counts).copied
      ensures Tries(old(log).writes, log.writes, env.encode(e, seqno), 1, landed) && log.copies == old(log).copies
      ensures tally.losses == old(tally).losses + (if landed then 0 else 1) && tally.settled == old(tally).settled
      ensures Capped(old(cache).slots, cache.slots, e.maxStreams)
      ensures Slotted(old(cache).slots, cache.slots, landed, KeyOf(e.prefix, pin.tag, e.suffix))
      ensures Went(old(log).writes, log.writes, 0, KeyOf(e.prefix, pin.tag, e.suffix), e.dataRetention)
      ensures perNode && env.owned(old(tick)).None? ==>
                && !landed && log == old(log) && counts.markers == old(counts).markers
                && Unreached(old(counts).dropped, counts.dropped, true)
      ensures !perNode || env.owned(old(tick)).Some? ==>
                counts.markers + tally.asides == old(counts).markers + old(tally).asides + 1
    {
      pin := Pin(None, None, 0);
      counts := counts.(repins := counts.repins + 1);
      var found, tag := TagSegment();
      if !found {
        Lose(1, NoOwnedSlot);
        return false;
      }
      landed := MarkAndRetry(e, seqno, tag);
    }

    /** The first attempt, and whether its refusal means the pinned slot is gone: by its text, or by a probe. */
    method FirstTry(e: PendingEvent, seqno: Option<nat>, stream: StreamKey)
      returns (outcome: Outcome, repin: bool, probed: bool)
      requires Core()
      modifies this`tick, this`cache, this`counts, this`pin, this`log
      ensures Core() && (Enrolled(old(cache)) ==> Enrolled(cache))
      ensures Tries(old(log).writes, log.writes, env.encode(e, seqno), 1, outcome.Written?)
      ensures log.copies == old(log).copies
      ensures Went(old(log).writes, log.writes, 0, stream, e.dataRetention)
      ensures outcome == Verdict(env, e, seqno, old(cache), stream, old(tick))
      ensures outcome.Rejected? ==> |log.writes| == |old(log).writes| + 1
      ensures outcome.Written? ==> SameAccounts(counts, Credit(old(counts), false, 1)) && !repin
      ensures pin.tag == old(pin).tag
      ensures Slotted(old(cache).slots, cache.slots, outcome.Written?, stream)
      ensures !outcome.Written? ==> cache == old(cache) && counts == old(counts)
      ensures Capped(old(cache).slots, cache.slots, e.maxStreams)
      ensures SlotGone(outcome) ==> repin && !probed
      ensures repin && !SlotGone(outcome) ==> probed
      ensures repin ==> outcome.Rejected? && !outcome.failure.Oom?
      ensures probed ==> repin && outcome == Rejected(Unrecognized) && perNode
    {
      if !CapStops(cache, stream, e.maxStreams) {
        CapHolds(cache, stream, e.maxStreams);
      }
      outcome := MirrorEntry(e, seqno, stream, e.dataRetention, e.maxStreams, false);
      repin := SlotGone(outcome);
      probed := false;
      if outcome == Rejected(Unrecognized) {
        probed := TagLost();
        repin := probed;
      }
    }

    /** An event under its tag: the first attempt, and at most one re-pin with one more. */
    method WriteEvent(e: PendingEvent, seqno: Option<nat>, tag: Option<string>) returns (landed: bool)
      requires Core() && tag == pin.tag
      modifies this`tick, this`cache, this`counts, this`pin, this`log, this`tally
      ensures Core() && (Enrolled(old(cache)) ==> Enrolled(cache))
      ensures counts.repins <= old(counts).repins + 1
      ensures Resolved(old(counts), counts, 1, landed) && counts.copied == old(counts).copied
      ensures Tries(old(log).writes, log.writes, env.encode(e, seqno), 2, landed) && log.copies == old(log).copies
      ensures |log.writes| == |old(log).writes| + 2 ==> counts.repins == old(counts).repins + 1
      ensures tally.losses == old(tally).losses + (if landed then 0 else 1) && tally.settled == old(tally).settled
      ensures Capped(old(cache).slots, cache.slots, e.maxStreams)
      ensures Slotted(old(cache).slots, cache.slots, landed, KeyOf(e.prefix, pin.tag, e.suffix))
      ensures Follows(Verdict(env, e, seqno, old(cache), KeyOf(e.prefix, tag, e.suffix), old(tick)),
                      old(counts), counts, landed)
      ensures Went(old(log).writes, log.writes, 0, KeyOf(e.prefix, tag, e.suffix), e.dataRetention)
      ensures Went(old(log).writes, log.writes, 1, KeyOf(e.prefix, pin.tag, e.suffix), e.dataRetention)
    {
      var stream := KeyOf(e.prefix, tag, e.suffix);
      var outcome, repin, probed := FirstTry(e, seqno, stream);
      if !repin {
        Settle(stream, outcome, 1);
        return outcome.Written?;
      }
      ghost var once := log.writes;
      landed := RepinAndRetry(e, seqno);
      TriesTwice(old(log).writes, once, log.writes, env.encode(e, seqno), landed);
      if probed {
        counts := counts.(repinsByProbe := counts.repinsByProbe + 1);
      }
    }

    /** The firehose copy under a known tag. */
    method CopyUnder(e: PendingEvent, seqno: Option<nat>, stream: StreamKey) returns (landed: bool)
      requires Core()
      modifies this`tick, this`cache, this`counts, this`pin, this`log, this`tally
      ensures Core() && (Enrolled(old(cache)) ==> Enrolled(cache))
      ensures counts.forwarded == old(counts).forwarded && counts.eventsLost == old(counts).eventsLost
      ensures counts.repins == old(counts).repins && log.writes == old(log).writes && pin.tag == old(pin).tag
      ensures tally == old(tally).(asides := old(tally).asides + if landed then 0 else 1)
      ensures counts.copied == old(counts).copied + if landed then 1 else 0
      ensures Tries(old(log).copies, log.copies, env.encode(e, seqno), 1, landed)
      ensures Slotted(old(cache).slots, cache.slots, landed, stream)
      ensures landed <==> env.encode(e, seqno).Some? && env.server(old(tick)).None?
      ensures Went(old(log).copies, log.copies, 0, stream, e.firehoseRetention)
      ensures !landed ==>
                Charged(old(counts).dropped, counts.dropped,
                        if env.encode(e, seqno).None? then EncodeError else OutcomeOf(env.server(old(tick))))
    {
      var outcome := MirrorEntry(e, seqno, stream, e.firehoseRetention, 0, true);
      landed := outcome.Written?;
      if !landed {
        SetAside(ReasonFor(outcome));
        if ChargesStream(outcome) {
          Charge(stream);
        }
      }
    }

    /** `mirror_firehose`: a second write of the same field set, exempt from the cap and never an event lost. */
    method MirrorFirehose(e: PendingEvent, seqno: Option<nat>)
      requires Core()
      modifies this`tick, this`cache, this`counts, this`pin, this`log, this`tally
      ensures Core() && (Enrolled(old(cache)) ==> Enrolled(cache))
      ensures counts.forwarded == old(counts).forwarded && counts.eventsLost == old(counts).eventsLost
      ensures counts.repins == old(counts).repins && log.writes == old(log).writes
      ensures tally.losses == old(tally).losses && tally.settled == old(tally).settled
      ensures counts.copied + tally.asides == old(counts).copied + old(tally).asides + 1
      ensures Tries(old(log).copies, log.copies, env.encode(e, seqno), 1, counts.copied > old(counts).copied)
      ensures Slotted(old(cache).slots, cache.slots, counts.copied > old(counts).copied,
                      KeyOf(e.prefix, pin.tag, FIREHOSE))
      ensures var (tag, call) := TagFor(env, perNode, old(pin), old(tick));
              var accepted := env.encode(e, seqno).Some? && env.server(call).None?;
              counts.copied > old(counts).copied <==> (!perNode || tag.Some?) && accepted
      ensures Mirrors(env, perNode, env.encode(e, seqno), counts.copied > old(counts).copied)
      ensures Went(old(log).copies, log.copies, 0, KeyOf(e.prefix, pin.tag, FIREHOSE), e.firehoseRetention)
      ensures perNode && TagFor(env, perNode, old(pin), old(tick)).0.None? ==>
                Unreached(old(counts).dropped, counts.dropped, true)
    {
      var found, tag := TagSegment();
      if found {
        ghost var call := tick;
        var landed := CopyUnder(e, seqno, KeyOf(e.prefix, tag, FIREHOSE));
        assert Answers(env, env.encode(e, seqno), landed, call);
      } else {
        SetAside(NoOwnedSlot);
      }
    }

    /** Database 0 and a tag for one event, or the event lost for want of either. */
    method Reach() returns (ready: bool, tag: Option<string>)
      requires Core()
      modifies this`tick, this`pin, this`counts, this`tally
      ensures Core()
      ensures var next := TagFor(env, perNode, old(pin), old(tick) + 1);
              && (ready <==> env.database(old(tick)) && (!perNode || next.0.Some?))
              && (ready ==> (tag, tick) == next && tag == pin.tag && counts == old(counts) && tally == old(tally))
      ensures !ready ==>
                && counts == old(counts).(eventsLost := old(counts).eventsLost + 1, dropped := counts.dropped)
                && Unreached(old(counts).dropped, counts.dropped, env.database(old(tick)))
                && tally == old(tally).(losses := old(tally).losses + 1)
    {
      var selected := env.database(tick);
      tick := tick + 1;
      if !selected {
        Lose(1, XaddError);
        return false, None;
      }
      ready, tag := TagSegment();
      if !ready {
        Lose(1, NoOwnedSlot);
      }
    }

    /**
     The canonical part of `process_pending_event`: every event is forwarded once or lost once, with at most two
     attempts, one re-pin and one sequence number. `tried` is false when it never reached a destination.
     */
    method CanonicalWrite(e: PendingEvent) returns (landed: bool, seqno: Option<nat>, tried: bool)
      requires Valid()
      modifies this`tick, this`cache, this`counts, this`pin, this`log, this`tally, this`nextSeq
      ensures Valid() && (Enrolled(old(cache)) ==> Enrolled(cache))
      ensures tally.settled == old(tally).settled + 1
      ensures Resolved(old(counts), counts, 1, landed) && counts.copied == old(counts).copied
      ensures tally.losses == old(tally).losses + (if landed then 0 else 1)
      ensures Tries(old(log).writes, log.writes, env.encode(e, seqno), 2, landed) && log.copies == old(log).copies
      ensures counts.repins <= old(counts).repins + 1
      ensures |log.writes| == |old(log).writes| + 2 ==> counts.repins == old(counts).repins + 1
      ensures Capped(old(cache).slots, cache.slots, e.maxStreams)
      ensures nextSeq == old(nextSeq) + (if seqno.Some? then 1 else 0)
      ensures seqno == if tried && e.entrySeq then Some(old(nextSeq)) else None
      ensures Slotted(old(cache).slots, cache.slots, landed, KeyOf(e.prefix, pin.tag, e.suffix))
      ensures !tried ==>
                && !landed && log == old(log)
                && Unreached(old(counts).dropped, counts.dropped, env.database(old(tick)))
      ensures var (tag, first) := TagFor(env, perNode, old(pin), old(tick) + 1);
              && (tried <==> env.database(old(tick)) && (!perNode || tag.Some?))
              && (tried ==>
                    var stream := KeyOf(e.prefix, tag, e.suffix);
                    && Follows(Verdict(env, e, seqno, old(cache), stream, first), old(counts), counts, landed)
                    && Went(old(log).writes, log.writes, 0, stream, e.dataRetention))
      ensures tried <==> Reaches(env, perNode, old(pin), old(tick))
      ensures tried ==> SettledBy(env, e, seqno, old(cache), TagFor(env, perNode, old(pin), old(tick) + 1), landed)
    {
      seqno := None;
      tally := tally.(settled := tally.settled + 1);
      var tag;
      tried, tag := Reach();
      if !tried {
        return false, None, false;
      }
      if e.entrySeq {
        seqno := Some(nextSeq);
        nextSeq := nextSeq + 1;
      }
      landed := WriteEvent(e, seqno, tag);
    }

    /** `process_pending_event`: the canonical write, then the firehose copy, which never changes the outcome. */
    method ProcessEvent(e: PendingEvent) returns (landed: bool, seqno: Option<nat>)
      requires Valid()
      modifies this`tick, this`cache, this`counts, this`pin, this`log, this`tally, this`nextSeq
      ensures Valid() && (Enrolled(old(cache)) ==> Enrolled(cache))
      ensures tally.settled == old(tally).settled + 1
      ensures Resolved(old(counts), counts, 1, landed)
      ensures tally.losses == old(tally).losses + (if landed then 0 else 1)
      ensures Tries(old(log).writes, log.writes, env.encode(e, seqno), 2, landed)
      ensures Tries(old(log).copies, log.copies, env.encode(e, seqno), 1, counts.copied > old(counts).copied)
      ensures counts.repins <= old(counts).repins + 1
      ensures nextSeq == old(nextSeq) + (if seqno.Some? then 1 else 0)
      ensures EventCapped(old(cache).slots, cache.slots, e.maxStreams)
      ensures !firehose ==> log.copies == old(log).copies && Capped(old(cache).slots, cache.slots, e.maxStreams)
      ensures Reaches(env, perNode, old(pin), old(tick)) ==>
                SettledBy(env, e, seqno, old(cache), TagFor(env, perNode, old(pin), old(tick) + 1), landed)
      ensures firehose && Reaches(env, perNode, old(pin), old(tick)) ==>
                Mirrors(env, perNode, env.encode(e, seqno), counts.copied > old(counts).copied)
      ensures !perNode ==> SlottedTwice(old(cache).slots, cache.slots, e, landed, counts.copied > old(counts).copied)
    {
      var tried;
      landed, seqno, tried := CanonicalWrite(e);
      ghost var mid := cache.slots;
      if tried && firehose {
        MirrorFirehose(e, seqno);
      }
      CopyIsExempt(old(cache).slots, mid, cache.slots, KeyOf(e.prefix, pin.tag, FIREHOSE), e.maxStreams);
    }

    /**
     `process_pending_envelope`: one write for the whole group, never re-pinned; its events are forwarded or lost
     together.
     */
    method ProcessEnvelope(events: seq<PendingEvent>, fields: seq<Field>) returns (landed: bool)
      requires Valid()
      modifies this`tick, this`cache, this`counts, this`pin, this`log, this`tally
      ensures Valid() && (Enrolled(old(cache)) ==> Enrolled(cache))
      ensures tally.settled == old(tally).settled + |events|
      ensures Resolved(old(counts), counts, |events|, landed) && counts.repins == old(counts).repins
      ensures log.copies == old(log).copies && old(log).writes <= log.writes && |log.writes| <= |old(log).writes| + 1
      ensures landed ==> |log.writes| == |old(log).writes| + 1
      ensures |log.writes| > |old(log).writes| ==>
                && events != []
                && var w := log.writes[|old(log).writes|];
                   && w.fields == fields && w.events == |events| && w.landed == landed
                   && w.stream == KeyOf(events[0].prefix, pin.tag, events[0].suffix)
                   && w.retention == events[0].dataRetention
      ensures counts.envelopeEvents == old(counts).envelopeEvents + (if landed then |events| else 0)
      ensures tally.asides == old(tally).asides
      ensures var noSlot := env.database(old(tick)) && perNode && TagFor(env, perNode, old(pin), old(tick) + 1).0.None?;
              tally.losses == old(tally).losses + (if landed || events == [] then 0 else if noSlot then |events| else 1)
      ensures events == [] ==> cache == old(cache)
      ensures events != [] ==> Capped(old(cache).slots, cache.slots, events[0].maxStreams)
      ensures events != [] && Reaches(env, perNode, old(pin), old(tick)) ==>
                var (tag, call) := TagFor(env, perNode, old(pin), old(tick) + 1);
                var stream := KeyOf(events[0].prefix, tag, events[0].suffix);
                var outcome := GroupVerdict(env, old(cache), stream, events[0].maxStreams, call);
                && (landed <==> outcome.Written?)
                && (!landed ==> Charged(old(counts).dropped, counts.dropped, outcome))
      ensures events != [] && !Reaches(env, perNode, old(pin), old(tick)) ==>
                && !landed
                && var d := old(counts).dropped;
                   counts.dropped == if env.database(old(tick)) then d.(noOwnedSlot := d.noOwnedSlot + |events|)
                                     else d.(xaddError := d.xaddError + 1)
    {
      if events == [] {
        return false;
      }
      var first, n := events[0], |events|;
      tally := tally.(settled := tally.settled + n);
      var selected := env.database(tick);
      tick := tick + 1;
      if !selected {
        Lose(n, XaddError);
        return false;
      }
      var found, tag := TagSegment();
      if !found {
        LoseEach(n);
        return false;
      }
      landed := WriteGroup(KeyOf(first.prefix, tag, first.suffix), fields, first.dataRetention, first.maxStreams, n);
    }

    /** The no-slot loop of the envelope path: one drop for each event. */
    method LoseEach(n: nat)
      requires Core()
      modifies this`counts, this`tally
      ensures Core()
      ensures Resolved(old(counts), counts, n, false) && counts.repins == old(counts).repins
      ensures counts.envelopeEvents == old(counts).envelopeEvents
      ensures counts.dropped == old(counts).dropped.(noOwnedSlot := old(counts).dropped.noOwnedSlot + n)
      ensures tally == old(tally).(losses := old(tally).losses + n)
    {
      var i := 0;
      while i < n
        invariant 0 <= i <= n && Core()
        invariant Resolved(old(counts), counts, i, false) && counts.repins == old(counts).repins
        invariant counts.envelopeEvents == old(counts).envelopeEvents
        invariant counts.dropped == old(counts).dropped.(noOwnedSlot := old(counts).dropped.noOwnedSlot + i)
        invariant tally == old(tally).(losses := old(tally).losses + i)
      {
        Lose(1, NoOwnedSlot);
        i := i + 1;
      }
    }

    method WriteGroup(stream: StreamKey, fields: seq<Field>, retention: Retention, maxStreams: int, n: nat)
      returns (landed: bool)
      requires Core()
      modifies this`tick, this`cache, this`counts, this`pin, this`log, this`tally
      ensures Core() && (Enrolled(old(cache)) ==> Enrolled(cache))
      ensures Resolved(old(counts), counts, n, landed) && counts.repins == old(counts).repins
      ensures tally == old(tally).(losses := old(tally).losses + if landed then 0 else 1)
      ensures tally.settled == old(tally).settled && pin.tag == old(pin).tag
      ensures log == old(log) || log == Logged(old(log), false, Write(stream, fields, retention, n, landed))
      ensures landed ==> log != old(log)
      ensures counts.envelopeEvents == old(counts).envelopeEvents + (if landed then n else 0)
      ensures Capped(old(cache).slots, cache.slots, maxStreams)
      ensures var outcome := GroupVerdict(env, old(cache), stream, maxStreams, old(tick));
              && (landed <==> outcome.Written?)
              && (!landed ==> Charged(old(counts).dropped, counts.dropped, outcome))
    {
      if !CapStops(cache, stream, maxStreams) {
        CapHolds(cache, stream, maxStreams);
      }
      var outcome := MirrorFields(stream, fields, retention, maxStreams, false, n);
      landed := outcome.Written?;
      if landed {
        counts := counts.(envelopes := counts.envelopes + 1, envelopeEvents := counts.envelopeEvents + n);
      } else {
        Settle(stream, outcome, n);
      }
    }

    /** `count_defer_failure`: a job that could not be registered loses its event. */
    method DeferFailure()
      requires Valid()
      modifies this`counts, this`tally
      ensures Valid() && tally.settled == old(tally).settled + 1 && Resolved(old(counts), counts, 1, false)
      ensures counts.dropped == old(counts).dropped.(deferError := old(counts).dropped.deferError + 1)
    {
      tally := tally.(settled := tally.settled + 1);
      Lose(1, DeferError);
    }

    /** `on_flush_started`: the cache starts over, on any role and for any database. */
    method FlushStarted(db: int)
      requires Valid()
      modifies this`cache
      ensures Valid() && Enrolled(cache) && cache.slots == {} && cache.records.Keys == {}
      ensures cache.registry == if db == 0 || db == -1 then {} else old(cache).registry
    {
      cache := Cache(map[], 0, {}, if db == 0 || db == -1 then {} else cache.registry);
      FreshCache(cache);
    }

    /**
     `on_swapdb`, with `arrived` the registry that moves into database 0. Only a capturing master starts its cache
     over, so elsewhere the cache still matches the registry exactly when the arriving one holds every registered name.
     */
    method SwapDb(first: int, second: int, capturing: bool, arrived: set<StreamKey>)
      requires Valid()
      modifies this`cache
      ensures Valid()
      ensures first != 0 && second != 0 ==> cache == old(cache)
      ensures first == 0 || second == 0 ==>
                && cache.registry == arrived && cache.slots == (if capturing then {} else old(cache).slots)
                && cache.records.Keys == (if capturing then {} else old(cache).records.Keys)
                && (Enrolled(cache) <==> capturing || Discoverable(old(cache).records, arrived))
    {
      if first != 0 && second != 0 {
        return;
      }
      if capturing {
        cache := Cache(map[], 0, {}, arrived);
        FreshCache(cache);
      } else {
        cache := cache.(registry := arrived);
      }
    }

    /**
     `prune_in_db0` over the registry's members: exactly the names found absent and removed leave the registry and
     give their cap slots back.
     */
    method Prune(names: seq<StreamKey>, absent: StreamKey -> bool, removed: StreamKey -> bool) returns (pruned: nat)
      requires Valid() && Distinct(names)
      modifies this`cache
      ensures Valid() && (Enrolled(old(cache)) ==> Enrolled(cache))
      ensures var gone := Gone(names, absent, removed);
              && pruned == |gone|
              && cache.registry == old(cache).registry - gone && cache.slots == old(cache).slots - gone
    {
      CountsGone(names, absent, removed);
      PrunedAllKeeps(cache, names, absent, removed);
      PrunedAllGone(cache, names, absent, removed);
      pruned := 0;
      var i := 0;
      assert names[0..] == names;
      while i < |names|
        invariant 0 <= i <= |names|
        invariant PrunedAll(cache, names[i..], absent, removed) == PrunedAll(old(cache), names, absent, removed)
        invariant pruned + PrunedCount(names[i..], absent, removed) == PrunedCount(names, absent, removed)
      {
        assert names[i..][1..] == names[i + 1..];
        assert Considered(cache, names[i], absent, removed)
            == if absent(names[i]) && removed(names[i]) then Pruned(cache, names[i]) else cache;
        if absent(names[i]) && removed(names[i]) {
          cache := Pruned(cache, names[i]);
          pruned := pruned + 1;
        }
        i := i + 1;
      }
    }

    /** One thing that happens to the writer between two loads. */
    method Do(op: Op)
      requires Valid() && WellPosed(op)
      modifies this
      ensures Valid() && tally.settled == old(tally).settled + HandedBy(op)
      ensures forall cap :: cap > 0 && Under(op, cap) ==> EventCapped(old(cache).slots, cache.slots, cap)
      ensures KeepsRegistry(op) && Enrolled(old(cache)) ==> Enrolled(cache)
    {
      match op {
        case EventOp(e) =>
          var landed, seqno := ProcessEvent(e);
        case EnvelopeOp(events, fields) =>
          var landed := ProcessEnvelope(events, fields);
          if events != [] {
            CappedEvents(old(cache).slots, cache.slots, events[0].maxStreams);
          }
        case DeferOp => DeferFailure();
        case PruneOp(names, absent, removed) =>
          var pruned := Prune(names, absent, removed);
          EventSlotsFit(cache.slots, old(cache).slots);
        case FlushOp(db) =>
          FlushStarted(db);
          EventSlotsFit(cache.slots, old(cache).slots);
        case SwapOp(first, second, capturing, arrived) =>
          SwapDb(first, second, capturing, arrived);
          EventSlotsFit(cache.slots, old(cache).slots);
        case FirehoseOp(on) => firehose := on;
        case AutoGroupOp(on) => autoGroup := on;
      }
    }

    /**
     Every run after a load: whatever the firehose does, the event streams never exceed the largest cap in force;
     every event handed over was forwarded or lost; and without a swap behind its back the cache agrees with the
     registry.
     */
    method Drive(ops: seq<Op>, cap: int)
      requires cap > 0 && forall i :: 0 <= i < |ops| ==> WellPosed(ops[i]) && Under(ops[i], cap)
      modifies this
      ensures Valid() && |EventSlots(cache.slots)| <= cap
      ensures counts.forwarded + counts.eventsLost == Handed(ops)
      ensures (forall i :: 0 <= i < |ops| ==> KeepsRegistry(ops[i])) ==> Enrolled(cache)
    {
      Reset();
      EventSlotsFit({}, cache.slots);
      var i := 0;
      while i < |ops|
        invariant 0 <= i <= |ops| && Valid() && |EventSlots(cache.slots)| <= cap
        invariant tally.settled == Handed(ops[..i])
        invariant (forall j :: 0 <= j < i ==> KeepsRegistry(ops[j])) ==> Enrolled(cache)
      {
        Do(ops[i]);
        assert ops[..i + 1][..i] == ops[..i];
        i := i + 1;
      }
      assert ops[..i] == ops;
    }
  }

  /** A standalone server that accepts everything. */
  ghost predicate Accepting(w: Writer) {
    && !w.perNode && (forall n: nat :: w.env.server(n).None? && w.env.database(n))
    && (forall e, seqno :: w.env.encode(e, seqno).Some?)
  }

  /** One event with its copy fills two slots. */
  method EventAndCopy(w: Writer, e: PendingEvent)
    requires w.Valid() && Accepting(w) && w.firehose && w.cache.slots == {} && e.maxStreams == 2
    modifies w
    ensures w.Valid() && w.firehose
    ensures w.cache.slots == {KeyOf(e.prefix, None, e.suffix)} + {KeyOf(e.prefix, None, FIREHOSE)}
    ensures w.counts.forwarded == old(w.counts).forwarded + 1 && w.counts.eventsLost == old(w.counts).eventsLost
  {
    assert !CapStops(w.cache, KeyOf(e.prefix, None, e.suffix), 2);
    var landed, seqno := w.ProcessEvent(e);
  }

  /** An event whose stream has no slot, behind two that are taken under a cap of two. */
  method RefusedByCap(w: Writer, e: PendingEvent)
    requires w.Valid() && Accepting(w) && w.firehose && |w.cache.slots| == 2 && e.maxStreams == 2
    requires KeyOf(e.prefix, None, e.suffix) !in w.cache.slots
    modifies w
    ensures w.counts.forwarded == old(w.counts).forwarded && w.counts.eventsLost == old(w.counts).eventsLost + 1
    ensures w.cache.slots == old(w.cache).slots + {KeyOf(e.prefix, None, FIREHOSE)}
  {
    var stream := KeyOf(e.prefix, None, e.suffix);
    assert stream in w.cache.slots <==> IsCounted(w.cache.records, stream);
    assert CapStops(w.cache, stream, 2);
    var landed, seqno := w.ProcessEvent(e);
  }

  /** A run in which the firehose's slot makes a cap of two refuse the second event stream. */
  method FirehoseTakesSlot(w: Writer, a: PendingEvent, b: PendingEvent)
    requires w.Valid() && Accepting(w) && w.firehose && w.cache.slots == {} && a.maxStreams == b.maxStreams == 2
    requires KeyOf(a.prefix, None, a.suffix) != KeyOf(b.prefix, None, b.suffix)
    requires a.suffix != FIREHOSE && b.suffix != FIREHOSE
    modifies w
    ensures w.counts.forwarded == old(w.counts).forwarded + 1 && w.counts.eventsLost == old(w.counts).eventsLost + 1
    ensures |EventSlots(w.cache.slots)| == 1
  {
    var first, copy := KeyOf(a.prefix, None, a.suffix), KeyOf(a.prefix, None, FIREHOSE);
    EventAndCopy(w, a);
    SlotsChange({first}, copy);
    assert copy !in {first} && |w.cache.slots| == 2;
    RefusedByCap(w, b);
    assert EventSlots(w.cache.slots) == {first};
  }

  /** A swap on a node that is not capturing does leave a registered stream the registry does not hold. */
  method SwapLeavesStale(w: Writer, stream: StreamKey)
    requires w.Valid() && stream in w.cache.records && w.cache.records[stream].registered
    modifies w
    ensures !Enrolled(w.cache)
  {
    w.SwapDb(0, 1, false, {});
  }
}
