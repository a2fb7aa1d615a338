/** What a consumer reads back from the dispatched entries, whichever mode wrote them. */
module Refinement {
  import opened Bytes
  import opened Text
  import opened Events
  import opened Queue
  import opened Dispatch
  import Utf8
  import Client

  /** What both formats carry of an event. */
  datatype Triple = Triple(event: string, key: seq<Byte>, db: int)

  /** The fixed format, and a database number that fits its `i32`. */
  predicate Supported(e: PendingEvent) {
    e.format.FixedFormat? && Client.ValidDb(e.db)
  }

  predicate AllSupported(q: seq<Queued>) {
    forall i :: 0 <= i < |q| ==> Supported(q[i].event)
  }

  function TripleOf(e: PendingEvent): Triple {
    Triple(e.event, e.key, e.db)
  }

  function Triples(q: seq<Queued>): (ts: seq<Triple>)
    ensures |ts| == |q|
  {
    seq(|q|, i requires 0 <= i < |q| => TripleOf(q[i].event))
  }

  function Read(es: seq<Client.LogicalEvent>): (ts: seq<Triple>)
    ensures |ts| == |es|
  {
    seq(|es|, i requires 0 <= i < |es| => Triple(es[i].event, es[i].key, es[i].db))
  }

  function WorkFields(w: Work, seqno: Option<nat>): Option<seq<Field>> {
    match w
    case Single(q) => EncodeEntryFields(SpecOf(q.event, seqno))
    case Envelope(group) => Some(BatchFields(Payload(group)))
  }

  /** What the reference client makes of a stored entry. */
  function ReadEntry(x: Write): Option<seq<Triple>> {
    var fields := WorkFields(x.work, x.seqno);
    if fields.None? then None
    else
      var r := Client.DecodeEntry(Client.Stored(WorkStream(x.work), x.id, fields.value));
      if r.Failure? then None else Some(Read(r.value))
  }

  /** A consumer's view of `stream`: its entries decoded in order; `None` once an entry does not decode. */
  function Decoded(read: Write -> Option<seq<Triple>>, written: seq<Write>, stream: string): Option<seq<Triple>> {
    if written == [] then Some([])
    else
      var before := Decoded(read, written[..|written| - 1], stream);
      var x := written[|written| - 1];
      if before.None? || WorkStream(x.work) != stream then before
      else
        var r := read(x);
        if r.None? then None else Some(before.value + r.value)
  }

  /** The events that landed on `stream`, in the order they were attempted. */
  function Landed(log: seq<Attempt>, stream: string): seq<Triple> {
    if log == [] then []
    else
      var before := Landed(log[..|log| - 1], stream);
      var a := log[|log| - 1];
      if a.landed && Destination(a.q.event) == stream then before + [TripleOf(a.q.event)] else before
  }

  predicate WellFormed(w: Work) {
    && AllSupported(Members(w)) && 0 < |Members(w)| <= U64_MAX
    && forall i :: 0 <= i < |Members(w)| ==> Destination(Members(w)[i].event) == WorkStream(w)
  }

  predicate AllWellFormed(hand: seq<Work>) {
    forall i :: 0 <= i < |hand| ==> WellFormed(hand[i])
  }

  lemma {:induction false} SinglesWellFormed(q: seq<Queued>)
    requires AllSupported(q)
    ensures AllWellFormed(Singles(q))
  {
    if q != [] {
      SinglesWellFormed(q[1..]);
    }
  }

  lemma {:induction false} EnvelopesWellFormed(s: seq<Queued>)
    requires AllSupported(s) && |s| <= U64_MAX
    ensures AllWellFormed(Envelopes(s))
    decreases |s|
  {
    if s != [] {
      var n := RunLength(Payload(s), 1);
      GroupWellFormed(s, n);
      EnvelopesWellFormed(s[n..]);
    }
  }

  lemma GroupWellFormed(s: seq<Queued>, n: nat)
    requires AllSupported(s) && 0 < |s| <= U64_MAX && n == RunLength(Payload(s), 1)
    ensures WellFormed(Envelope(s[..n]))
  {
    forall i | 0 <= i < n
      ensures Destination(s[..n][i].event) == Destination(s[0].event)
    {
      assert Compatible(Payload(s)[0], Payload(s)[i]);
    }
  }

  /** A batch entry reads back as its events. */
  lemma EnvelopeReads(stream: string, id: string, group: seq<Queued>)
    requires AllSupported(group) && |group| <= U64_MAX
    ensures var r := Client.DecodeEntry(Client.Stored(stream, id, BatchFields(Payload(group))));
            r.Success? && Read(r.value) == Triples(group)
  {
    Client.BatchRoundTrip(stream, id, Payload(group));
    assert Read(Client.Expected(stream, id, Payload(group))) == Triples(group);
  }

  /** A fixed entry reads back as its event. */
  lemma SingleReads(stream: string, id: string, q: Queued, seqno: Option<nat>)
    requires Supported(q.event)
    ensures var r := Client.DecodeEntry(Client.Stored(stream, id, EncodeEntryFields(SpecOf(q.event, seqno)).value));
            r.Success? && Read(r.value) == Triples([q])
  {
    Client.FixedRoundTrip(stream, id, SpecOf(q.event, seqno), q.event.db);
    Utf8.RoundTrip(q.event.event);
  }

  /** `read` recovers the events of every well-formed write. */
  ghost predicate Recovers(read: Write -> Option<seq<Triple>>) {
    forall x: Write :: WellFormed(x.work) ==> read(x) == Some(Triples(Members(x.work)))
  }

  lemma ClientReads(x: Write)
    requires WellFormed(x.work)
    ensures ReadEntry(x) == Some(Triples(Members(x.work)))
  {
    match x.work
    case Single(q) =>
      assert Members(x.work)[0] == q;
      SingleReads(WorkStream(x.work), x.id, q, x.seqno);
    case Envelope(group) =>
      EnvelopeReads(WorkStream(x.work), x.id, group);
  }

  lemma ClientRecovers()
    ensures Recovers(ReadEntry)
  {
    forall x: Write | WellFormed(x.work)
      ensures ReadEntry(x) == Some(Triples(Members(x.work)))
    {
      ClientReads(x);
    }
  }

  lemma LandedOne(log: seq<Attempt>, a: Attempt, stream: string)
    ensures Landed(log + [a], stream)
         == Landed(log, stream) + if a.landed && Destination(a.q.event) == stream then [TripleOf(a.q.event)] else []
  {
    assert (log + [a])[..|log|] == log;
    var before := Landed(log, stream);
    assert before + [] == before;
  }

  lemma {:induction false} LandedGrows(log: seq<Attempt>, q: seq<Queued>, landed: bool, mine: bool, stream: string)
    requires forall i :: 0 <= i < |q| ==> (Destination(q[i].event) == stream) == mine
    ensures Landed(log + Attempts(q, landed), stream) == Landed(log, stream) + if landed && mine then Triples(q) else []
    decreases |q|
  {
    if q == [] {
      assert log + Attempts(q, landed) == log;
      var before := Landed(log, stream);
      assert before + [] == before && Triples(q) == [];
    } else {
      var n := |q| - 1;
      var shorter := log + Attempts(q[..n], landed);
      LandedGrows(log, q[..n], landed, mine, stream);
      AttemptsCut(log, q, landed);
      LandedOne(shorter, Attempt(q[n], landed), stream);
      JoinTriples(Landed(log, stream), q);
    }
  }

  lemma AttemptsCut(log: seq<Attempt>, q: seq<Queued>, landed: bool)
    requires q != []
    ensures log + Attempts(q, landed) == log + Attempts(q[..|q| - 1], landed) + [Attempt(q[|q| - 1], landed)]
  {
  }

  lemma JoinTriples(before: seq<Triple>, q: seq<Queued>)
    requires q != []
    ensures before + Triples(q) == before + Triples(q[..|q| - 1]) + [TripleOf(q[|q| - 1].event)]
    ensures before + [] + [] == before + []
  {
  }

  lemma DecodedGrows(read: Write -> Option<seq<Triple>>, written: seq<Write>, x: Write, stream: string)
    requires read(x).Some? && Decoded(read, written, stream).Some?
    ensures Decoded(read, written + [x], stream)
         == Some(Decoded(read, written, stream).value + if WorkStream(x.work) == stream then read(x).value else [])
  {
    assert (written + [x])[..|written|] == written;
    var before := Decoded(read, written, stream).value;
    assert before + [] == before;
  }

  predicate Faithful(read: Write -> Option<seq<Triple>>, s: State, stream: string) {
    Decoded(read, s.written, stream) == Some(Landed(s.log, stream))
  }

  /** Everything still on its way is supported. */
  predicate Carries(s: State) {
    AllSupported(s.queue) && AllSupported(s.jobs) && AllSupported(s.held) && AllWellFormed(s.hand)
  }

  lemma FaithfulProcess(read: Write -> Option<seq<Triple>>, s: State, landed: bool, id: string, seqno: Option<nat>,
                        stream: string)
    requires Recovers(read) && s.hand != [] && WellFormed(s.hand[0]) && Faithful(read, s, stream)
    ensures Faithful(read, ApplyProcess(s, landed, id, seqno), stream)
  {
    var w := s.hand[0];
    LandedGrows(s.log, Members(w), landed, WorkStream(w) == stream, stream);
    DecodedGrows(read, s.written, Write(w, id, seqno), stream);
    var before := Landed(s.log, stream);
    assert before + [] == before;
  }

  lemma CarriesDrain(c: Config, s: State)
    requires Sane(c, s) && Carries(s) && Enabled(c, s, WorkerDrains) && c.capacity <= U64_MAX
    ensures Carries(ApplyDrain(c, s))
  {
    if s.phase.snapshot.Some? {
      var prefix := s.phase.snapshot.value;
      MatchIsExact(prefix, s.queue);
      if prefix <= s.queue {
        EnvelopesWellFormed(prefix);
      }
    } else {
      SinglesWellFormed(s.queue[..Min(|s.queue|, c.batch)]);
    }
  }

  lemma CarriesNotify(c: Config, s: State, event: PendingEvent, contended: bool, registered: bool)
    requires Carries(s) && Supported(event)
    ensures Carries(ApplyNotify(c, s, event, contended, registered))
  {
  }

  lemma CarriesStep(c: Config, s: State, step: Step)
    requires Sane(c, s) && Carries(s) && Enabled(c, s, step) && c.capacity <= U64_MAX
    requires step.Notify? ==> Supported(step.event)
    ensures Carries(Apply(c, s, step))
  {
    match step {
      case Notify(event, contended, registered) => CarriesNotify(c, s, event, contended, registered);
      case RunJob => SinglesWellFormed(s.queue[..Earlier(s.queue, s.jobs[0].id)] + [s.jobs[0]]);
      case WorkerDrains => CarriesDrain(c, s);
      case Join => SinglesWellFormed(s.held);
      case _ =>
    }
  }

  lemma FaithfulStep(read: Write -> Option<seq<Triple>>, c: Config, s: State, step: Step, stream: string)
    requires Recovers(read) && Carries(s) && Enabled(c, s, step) && Faithful(read, s, stream)
    ensures Faithful(read, Apply(c, s, step), stream)
  {
    if step.Process? {
      FaithfulProcess(read, s, step.landed, step.id, step.seqno, stream);
    } else {
      OnlyProcessWrites(c, s, step);
    }
  }

  predicate FixedRun(steps: seq<Step>) {
    forall i :: 0 <= i < |steps| && steps[i].Notify? ==> Supported(steps[i].event)
  }

  lemma {:induction false} RunIsFaithful(
    read: Write -> Option<seq<Triple>>, c: Config, steps: seq<Step>, stream: string)
    requires Recovers(read) && Run(c, steps).Some? && c.capacity <= U64_MAX && FixedRun(steps)
    ensures var s := Run(c, steps).value; Carries(s) && Faithful(read, s, stream)
  {
    if steps != [] {
      var before, step := steps[..|steps| - 1], steps[|steps| - 1];
      RunIsFaithful(read, c, before, stream);
      Invariant(c, before);
      var s := Run(c, before).value;
      CarriesStep(c, s, step);
      FaithfulStep(read, c, s, step, stream);
    }
  }

  /**
   Both dispatch modes store the same thing. Whatever mix of single entries and envelopes a run wrote,
   every stream decodes, and decodes to exactly the events that landed on it, each once, in attempt order.
   */
  lemma StreamsReadBack(c: Config, steps: seq<Step>, stream: string)
    requires Run(c, steps).Some? && c.capacity <= U64_MAX && FixedRun(steps)
    ensures var s := Run(c, steps).value; Decoded(ReadEntry, s.written, stream) == Some(Landed(s.log, stream))
  {
    ClientRecovers();
    RunIsFaithful(ReadEntry, c, steps, stream);
  }

  /** The kept notifications for `stream`, in notification order. */
  function Addressed(q: seq<Queued>, stream: string): seq<Triple> {
    if q == [] then []
    else
      var n := |q| - 1;
      Addressed(q[..n], stream)
      + if Destination(q[n].event) == stream then [TripleOf(q[n].event)] else []
  }

  predicate AllLanded(log: seq<Attempt>) {
    forall i :: 0 <= i < |log| ==> log[i].landed
  }

  lemma {:induction false} LandedAll(log: seq<Attempt>, stream: string)
    requires AllLanded(log)
    ensures Landed(log, stream) == Addressed(Attempted(log), stream)
    decreases |log|
  {
    if log != [] {
      var n := |log| - 1;
      LandedAll(log[..n], stream);
      assert Attempted(log)[..n] == Attempted(log[..n]);
    }
  }

  /**
   End to end: when no write was refused, a consumer of a stopped writer's stream reads exactly the kept
   notifications for it, in notification order; individual and envelope runs are indistinguishable.
   */
  lemma EndToEnd(c: Config, steps: seq<Step>, stream: string)
    requires Run(c, steps).Some? && c.capacity <= U64_MAX && FixedRun(steps)
    requires var s := Run(c, steps).value; s.stopped && !s.failed && AllLanded(s.log)
    ensures var s := Run(c, steps).value;
            Decoded(ReadEntry, s.written, stream) == Some(Addressed(Kept(s.history), stream))
  {
    StreamsReadBack(c, steps, stream);
    StopIsComplete(c, steps);
    LandedAll(Run(c, steps).value.log, stream);
  }
}
