/**
 The bounded dispatch as a state machine (src/dispatch.rs): the notification callback and its fallback
 jobs on the main thread, one worker thread, and the Redis lock between them.
 */
module Dispatch {
  import opened Bytes
  import opened Text
  import opened Events
  import opened Queue
  import Names

  /** The immutable settings of a loaded writer. */
  datatype Config = Config(capacity: nat, batch: nat, envelope: bool)

  /** A notification, and whether the writer could keep it: a refused job registration cannot. */
  datatype Notified = Notified(event: PendingEvent, kept: bool)

  /** A write attempt and its outcome. */
  datatype Attempt = Attempt(q: Queued, landed: bool)

  /** One XADD still to be issued by the lock holder. */
  datatype Work = Single(q: Queued) | Envelope(group: seq<Queued>)

  /** An XADD that succeeded: what it carried, the id Redis gave it, and the `seq` in use. */
  datatype Write = Write(work: Work, id: string, seqno: Option<nat>)

  datatype Holder = Free | Main | Worker

  /** Where the worker is; `Trying` remembers the queue prefix its snapshot was taken from. */
  datatype Phase = Starting | Waiting | Trying(snapshot: Option<seq<Queued>>) | Exited

  datatype State = State(
    history: seq<Notified>,             // every notification; its index is its id
    queue: seq<Queued>, jobs: seq<Queued>,
    hand: seq<Work>,                    // what the lock holder has drained and not yet attempted
    held: seq<Queued>,                  // what an exited worker returned and nobody has joined yet
    log: seq<Attempt>, written: seq<Write>,
    holder: Holder, phase: Phase,
    failed: bool,                       // the worker left for want of a context while events were still accepted
    overtook: bool,                     // a fallback job newer than an event such a worker took along has run
    stopping: bool, stopped: bool,
    enqueued: nat, fallbacks: nat, drained: nat, returned: nat, forwarded: nat, lost: nat)

  const INIT: State :=
    State([], [], [], [], [], [], [], Free, Starting, false, false, false, false, 0, 0, 0, 0, 0, 0)

  datatype Step =
    | MainTakes
    | Notify(event: PendingEvent, contended: bool, registered: bool)
    | RunJob
    | Process(landed: bool, id: string, seqno: Option<nat>)
    | MainReleases
    | WorkerStarts(context: bool)
    | WorkerReady
    | WorkerDrains
    | WorkerReleases
    | StopBegins
    | WorkerExits
    | Join
    | StopEnds

  // ---------------------------------------------------------------------------------------------
  // What the steps do
  // ---------------------------------------------------------------------------------------------

  function Singles(q: seq<Queued>): seq<Work> {
    if q == [] then [] else [Single(q[0])] + Singles(q[1..])
  }

  /** The groups of a snapshot taken from `s`. */
  function Envelopes(s: seq<Queued>): seq<Work>
    decreases |s|
  {
    if s == [] then []
    else
      var n := RunLength(Payload(s), 1);
      [Envelope(s[..n])] + Envelopes(s[n..])
  }

  function Members(w: Work): seq<Queued> {
    match w
    case Single(q) => [q]
    case Envelope(group) => group
  }

  function Flat(hand: seq<Work>): seq<Queued> {
    if hand == [] then [] else Members(hand[0]) + Flat(hand[1..])
  }

  function Attempts(q: seq<Queued>, landed: bool): (a: seq<Attempt>)
    ensures |a| == |q|
  {
    seq(|q|, i requires 0 <= i < |q| => Attempt(q[i], landed))
  }

  function Attempted(log: seq<Attempt>): (q: seq<Queued>)
    ensures |q| == |log|
  {
    seq(|log|, i requires 0 <= i < |log| => log[i].q)
  }

  /** The async modes refuse cluster mode at load, so no tag segment. */
  function Destination(e: PendingEvent): string {
    Names.StreamName(e.prefix, None, e.suffix)
  }

  function WorkStream(w: Work): string {
    match w
    case Single(q) => Destination(q.event)
    case Envelope(group) => if group == [] then "" else Destination(group[0].event)
  }

  predicate Enabled(c: Config, s: State, step: Step) {
    match step
    case MainTakes => s.holder.Free? && !s.stopped
    case Notify(_, _, _) => s.holder.Main? && !s.stopping
    case RunJob => s.holder.Main? && s.hand == [] && s.jobs != []
    case Process(_, _, _) => !s.holder.Free? && s.hand != []
    case MainReleases => s.holder.Main? && s.hand == [] && s.jobs == [] && !s.stopping
    case WorkerStarts(_) => s.phase.Starting?
    case WorkerReady => s.phase.Waiting? && !s.holder.Worker? && !s.stopping
    case WorkerDrains => s.phase.Trying? && s.holder.Free?
    case WorkerReleases => s.holder.Worker? && s.hand == []
    case StopBegins => s.holder.Main? && s.hand == [] && s.jobs == [] && !s.stopping
    case WorkerExits => s.stopping && (s.phase.Waiting? || s.phase.Trying?)
    case Join => s.stopping && s.phase.Exited? && s.hand == [] && s.held != []
    case StopEnds => s.stopping && s.phase.Exited? && s.hand == [] && s.held == []
  }

  function Apply(c: Config, s: State, step: Step): State
    requires Enabled(c, s, step)
  {
    match step
    case MainTakes => s.(holder := Main)
    case Notify(event, contended, registered) => ApplyNotify(c, s, event, contended, registered)
    case RunJob =>
      var n := Earlier(s.queue, s.jobs[0].id);
      s.(queue := s.queue[n..], jobs := s.jobs[1..], hand := Singles(s.queue[..n] + [s.jobs[0]]),
         drained := s.drained + n, overtook := s.overtook || Overtakes(s))
    case Process(landed, id, seqno) => ApplyProcess(s, landed, id, seqno)
    case MainReleases => s.(holder := Free)
    case WorkerStarts(context) =>
      if context then s.(phase := Waiting)
      else s.(phase := Exited, failed := !s.stopping, held := s.queue, queue := [], returned := s.returned + |s.queue|)
    case WorkerReady =>
      var n := Min(|s.queue|, c.batch);
      s.(phase := Trying(if c.envelope && n > 0 then Some(s.queue[..n]) else None))
    case WorkerDrains => ApplyDrain(c, s)
    case WorkerReleases => s.(holder := Free)
    case StopBegins => s.(stopping := true)
    case WorkerExits => s.(phase := Exited, held := s.queue, queue := [], returned := s.returned + |s.queue|)
    case Join => s.(hand := Singles(s.held), held := [])
    case StopEnds => s.(stopped := true, holder := Free)
  }

  /** The job about to run is newer than an event a worker without a context has taken along. */
  predicate Overtakes(s: State)
    requires s.jobs != []
  {
    s.held != [] && s.held[0].id < s.jobs[0].id
  }

  /** `dispatch_pending_event` and the registration in `defer_ordered_fallback`. */
  function ApplyNotify(c: Config, s: State, event: PendingEvent, contended: bool, registered: bool): State {
    var q := Queued(|s.history|, event);
    if !contended && |s.queue| < c.capacity then
      s.(history := s.history + [Notified(event, true)], queue := s.queue + [q], enqueued := s.enqueued + 1)
    else if registered then
      s.(history := s.history + [Notified(event, true)], jobs := s.jobs + [q], fallbacks := s.fallbacks + 1)
    else
      s.(history := s.history + [Notified(event, false)], fallbacks := s.fallbacks + 1, lost := s.lost + 1)
  }

  /** One call of `process_pending_event` or `process_pending_envelope`. */
  function ApplyProcess(s: State, landed: bool, id: string, seqno: Option<nat>): State
    requires s.hand != []
  {
    var w := s.hand[0];
    var n := |Members(w)|;
    s.(hand := s.hand[1..], log := s.log + Attempts(Members(w), landed),
       written := if landed then s.written + [Write(w, id, seqno)] else s.written,
       forwarded := if landed then s.forwarded + n else s.forwarded,
       lost := if landed then s.lost else s.lost + n)
  }

  /** The worker's critical section: a snapshot that no longer matches is dropped. */
  function ApplyDrain(c: Config, s: State): State
    requires s.phase.Trying?
  {
    var s' := s.(holder := Worker, phase := Waiting);
    match s.phase.snapshot
    case Some(prefix) =>
      if prefix != [] && StillMatches(s.queue, prefix) then
        s'.(hand := Envelopes(prefix), queue := s.queue[|prefix|..], drained := s.drained + |prefix|)
      else s'
    case None =>
      var n := Min(|s.queue|, c.batch);
      s'.(hand := Singles(s.queue[..n]), queue := s.queue[n..], drained := s.drained + n)
  }

  /** The state after `steps`, if each was enabled. */
  function Run(c: Config, steps: seq<Step>): Option<State> {
    if steps == [] then Some(INIT)
    else
      var before := Run(c, steps[..|steps| - 1]);
      var step := steps[|steps| - 1];
      if before.Some? && Enabled(c, before.value, step) then Some(Apply(c, before.value, step)) else None
  }

  // ---------------------------------------------------------------------------------------------
  // Notification order
  // ---------------------------------------------------------------------------------------------

  /** The notifications the writer kept, in notification order. */
  function Kept(history: seq<Notified>): seq<Queued> {
    if history == [] then []
    else
      var n := |history| - 1;
      Kept(history[..n]) + if history[n].kept then [Queued(n, history[n].event)] else []
  }

  lemma KeptGrows(history: seq<Notified>, x: Notified)
    ensures Kept(history + [x]) == Kept(history) + if x.kept then [Queued(|history|, x.event)] else []
  {
    assert (history + [x])[..|history|] == history;
  }

  /** The events still waiting, in the order their ids give. */
  function Merge(queue: seq<Queued>, jobs: seq<Queued>): seq<Queued>
    decreases |queue| + |jobs|
  {
    if queue == [] then jobs
    else if jobs == [] then queue
    else if queue[0].id < jobs[0].id then [queue[0]] + Merge(queue[1..], jobs)
    else [jobs[0]] + Merge(queue, jobs[1..])
  }

  /** A newer event joins the end of the merge, whichever side takes it. */
  lemma {:induction false} MergeGrows(queue: seq<Queued>, jobs: seq<Queued>, x: Queued)
    requires AllBelow(queue, x.id) && AllBelow(jobs, x.id)
    ensures Merge(queue + [x], jobs) == Merge(queue, jobs) + [x]
    ensures Merge(queue, jobs + [x]) == Merge(queue, jobs) + [x]
    decreases |queue| + |jobs|
  {
    if queue == [] {
      MergeOnto(jobs, x);
      assert queue + [x] == [x];
    } else if jobs == [] {
      MergeUnder(queue, x);
      assert jobs + [x] == [x];
    } else if queue[0].id < jobs[0].id {
      MergeGrows(queue[1..], jobs, x);
      assert (queue + [x])[1..] == queue[1..] + [x];
    } else {
      MergeGrows(queue, jobs[1..], x);
      assert (jobs + [x])[1..] == jobs[1..] + [x];
    }
  }

  lemma {:induction false} MergeOnto(jobs: seq<Queued>, x: Queued)
    requires AllBelow(jobs, x.id)
    ensures Merge([x], jobs) == jobs + [x]
  {
    if jobs != [] {
      MergeOnto(jobs[1..], x);
    }
  }

  lemma {:induction false} MergeUnder(queue: seq<Queued>, x: Queued)
    requires AllBelow(queue, x.id)
    ensures Merge(queue, [x]) == queue + [x]
  {
    if queue != [] {
      MergeUnder(queue[1..], x);
    }
  }

  /** What a fallback job drains, then its own event, is the front of the merge. */
  lemma {:induction false} MergeFront(queue: seq<Queued>, jobs: seq<Queued>)
    requires jobs != []
    ensures var n := Earlier(queue, jobs[0].id);
            Merge(queue, jobs) == queue[..n] + [jobs[0]] + Merge(queue[n..], jobs[1..])
    decreases |queue|
  {
    if queue != [] && queue[0].id < jobs[0].id {
      MergeFront(queue[1..], jobs);
      var n := Earlier(queue[1..], jobs[0].id);
      assert queue[..n + 1] == [queue[0]] + queue[1..][..n];
      assert queue[n + 1..] == queue[1..][n..];
    } else if queue != [] {
      assert queue[0..] == queue && queue[..0] == [];
    } else {
      assert jobs == [jobs[0]] + jobs[1..];
    }
  }

  lemma {:induction false} SinglesFlat(q: seq<Queued>)
    ensures Flat(Singles(q)) == q
  {
    if q != [] {
      SinglesFlat(q[1..]);
      assert Singles(q)[1..] == Singles(q[1..]);
    }
  }

  lemma FlatCons(w: Work, rest: seq<Work>)
    ensures Flat([w] + rest) == Members(w) + Flat(rest)
  {
    assert ([w] + rest)[1..] == rest;
  }

  lemma {:induction false} EnvelopesFlat(s: seq<Queued>)
    ensures Flat(Envelopes(s)) == s
    decreases |s|
  {
    if s != [] {
      var n := RunLength(Payload(s), 1);
      var head, tail := s[..n], s[n..];
      assert head + tail == s;
      EnvelopesFlat(tail);
      var rest := Envelopes(tail);
      FlatCons(Envelope(head), rest);
      assert Envelopes(s) == [Envelope(head)] + rest;
    }
  }

  function GroupsIn(hand: seq<Work>): seq<seq<PendingEvent>> {
    if hand == [] then [] else [Payload(Members(hand[0]))] + GroupsIn(hand[1..])
  }

  lemma GroupsInCons(w: Work, rest: seq<Work>)
    ensures GroupsIn([w] + rest) == [Payload(Members(w))] + GroupsIn(rest)
  {
    assert ([w] + rest)[1..] == rest;
  }

  lemma PayloadCut(s: seq<Queued>, n: nat)
    requires n <= |s|
    ensures Payload(s)[..n] == Payload(s[..n]) && Payload(s)[n..] == Payload(s[n..])
  {
  }

  /** The envelopes a snapshot is written as are the groups it was encoded in. */
  lemma {:induction false} EnvelopesAreGroups(s: seq<Queued>)
    ensures GroupsIn(Envelopes(s)) == Groups(Payload(s))
    decreases |s|
  {
    if s != [] {
      var n := RunLength(Payload(s), 1);
      EnvelopesAreGroups(s[n..]);
      PayloadCut(s, n);
      GroupsInCons(Envelope(s[..n]), Envelopes(s[n..]));
    }
  }

  lemma AttemptedGrows(log: seq<Attempt>, q: seq<Queued>, landed: bool)
    ensures Attempted(log + Attempts(q, landed)) == Attempted(log) + q
  {
  }

  // ---------------------------------------------------------------------------------------------
  // The invariant
  // ---------------------------------------------------------------------------------------------

  predicate Precede(a: seq<Queued>, b: seq<Queued>) {
    forall i, j :: 0 <= i < |a| && 0 <= j < |b| ==> a[i].id < b[j].id
  }

  /** Ids, locks and the snapshot. */
  ghost predicate Sane(c: Config, s: State) {
    && Increasing(s.queue) && AllBelow(s.queue, |s.history|) && AllBelow(s.jobs, |s.history|)
    && Increasing(s.held) && AllBelow(s.held, |s.history|) && Precede(s.held, s.queue)
    && |s.queue| <= c.capacity
    && (!s.holder.Main? ==> s.jobs == [])
    && (s.holder.Free? ==> s.hand == [])
    && (s.stopping ==> s.jobs == [] && !s.holder.Worker? && (s.holder.Free? ==> s.stopped))
    && (s.stopped ==> s.stopping && s.phase.Exited? && s.hand == [] && s.held == [])
    && (s.held != [] ==> s.phase.Exited?)
    && (s.phase.Exited? && !s.failed ==> s.stopping && s.queue == []) && (s.failed ==> s.phase.Exited?)
    && (s.overtook ==> s.failed)
    && (s.phase.Trying? && s.phase.snapshot.Some? ==>
          SnapshotOk(s.phase.snapshot.value, s.queue) && AllBelow(s.phase.snapshot.value, |s.history|))
  }

  /** Attempts so far, then what is in hand, then what waits by id, are the kept notifications in order. */
  predicate InOrder(s: State) {
    !s.overtook ==> Attempted(s.log) + Flat(s.hand) + Merge(s.held + s.queue, s.jobs) == Kept(s.history)
  }

  /** Some attempt, made or in hand, is not the notification that was due. */
  predicate Diverged(s: State) {
    exists k :: 0 <= k < |Attempted(s.log) + Flat(s.hand)| && k < |Kept(s.history)|
                && (Attempted(s.log) + Flat(s.hand))[k] != Kept(s.history)[k]
  }

  lemma LineEnds(a: seq<Queued>, b: seq<Queued>, d: seq<Queued>, x: Queued)
    ensures a + b + (d + [x]) == (a + b + d) + [x]
    ensures (a + b + d) + [] == a + b + d
  {
  }

  lemma LineShifts(a: seq<Queued>, m: seq<Queued>, b: seq<Queued>, d: seq<Queued>)
    ensures (a + m) + b + d == a + (m + b) + d && (a + m) + b == a + (m + b)
  {
  }

  lemma LineSplits(a: seq<Queued>, front: seq<Queued>, rest: seq<Queued>)
    ensures a + [] + (front + rest) == a + front + rest
  {
  }

  /** Every notification is counted in exactly one place. */
  predicate Counted(s: State) {
    && |s.history| == s.forwarded + s.lost + |Flat(s.hand)| + |s.held| + |s.queue| + |s.jobs|
    && |s.history| == s.enqueued + s.fallbacks
    && s.enqueued == s.drained + |s.queue| + s.returned
    && (!s.stopping && !s.failed ==> s.returned == 0)
  }

  lemma SaneNotify(c: Config, s: State, event: PendingEvent, contended: bool, registered: bool)
    requires Sane(c, s) && Enabled(c, s, Notify(event, contended, registered))
    ensures Sane(c, ApplyNotify(c, s, event, contended, registered))
  {
    if s.phase.Trying? && s.phase.snapshot.Some? {
      SnapshotUnderPush(s.phase.snapshot.value, s.queue, Queued(|s.history|, event));
    }
    if !contended && |s.queue| < c.capacity {
    } else if registered {
    } else {
    }
  }

  lemma SaneDrain(c: Config, s: State)
    requires Sane(c, s) && Enabled(c, s, WorkerDrains)
    ensures Sane(c, ApplyDrain(c, s))
  {
  }

  lemma SaneRunJob(c: Config, s: State)
    requires Sane(c, s) && Enabled(c, s, RunJob)
    ensures Sane(c, Apply(c, s, RunJob))
  {
    if s.phase.Trying? && s.phase.snapshot.Some? {
      SnapshotUnderDrain(s.phase.snapshot.value, s.queue, Earlier(s.queue, s.jobs[0].id));
    }
  }

  lemma SaneReady(c: Config, s: State)
    requires Sane(c, s) && Enabled(c, s, WorkerReady)
    ensures Sane(c, Apply(c, s, WorkerReady))
  {
    var n := Min(|s.queue|, c.batch);
    if n > 0 {
      SnapshotTaken(s.queue, n);
    }
  }

  lemma SaneStep(c: Config, s: State, step: Step)
    requires Sane(c, s) && Enabled(c, s, step)
    ensures Sane(c, Apply(c, s, step))
  {
    match step {
      case Notify(event, contended, registered) => SaneNotify(c, s, event, contended, registered);
      case RunJob => SaneRunJob(c, s);
      case WorkerReady => SaneReady(c, s);
      case WorkerDrains => SaneDrain(c, s);
      case _ =>
    }
  }

  lemma WaitGrows(held: seq<Queued>, queue: seq<Queued>, jobs: seq<Queued>, x: Queued)
    requires AllBelow(held, x.id) && AllBelow(queue, x.id) && AllBelow(jobs, x.id)
    ensures Merge(held + (queue + [x]), jobs) == Merge(held + queue, jobs) + [x]
    ensures Merge(held + queue, jobs + [x]) == Merge(held + queue, jobs) + [x]
  {
    MergeGrows(held + queue, jobs, x);
    assert held + (queue + [x]) == held + queue + [x];
  }

  lemma OrderNotify(c: Config, s: State, event: PendingEvent, contended: bool, registered: bool)
    requires Sane(c, s) && InOrder(s)
    ensures InOrder(ApplyNotify(c, s, event, contended, registered))
  {
    var x := Queued(|s.history|, event);
    WaitGrows(s.held, s.queue, s.jobs, x);
    KeptGrows(s.history, Notified(event, true));
    KeptGrows(s.history, Notified(event, false));
    LineEnds(Attempted(s.log), Flat(s.hand), Merge(s.held + s.queue, s.jobs), x);
  }

  /** What a job that overtakes nothing drains, then its own event, is the front of all that waits. */
  lemma JobFront(held: seq<Queued>, queue: seq<Queued>, jobs: seq<Queued>)
    requires jobs != [] && Increasing(queue) && Precede(held, queue) && (held != [] ==> held[0].id >= jobs[0].id)
    ensures var n := Earlier(queue, jobs[0].id);
            Merge(held + queue, jobs) == queue[..n] + [jobs[0]] + Merge(held + queue[n..], jobs[1..])
  {
    var n := Earlier(queue, jobs[0].id);
    if held == [] {
      MergeFront(queue, jobs);
      assert held + queue == queue && held + queue[n..] == queue[n..];
    } else {
      JobFirst(held, queue, jobs);
    }
  }

  lemma JobFirst(held: seq<Queued>, queue: seq<Queued>, jobs: seq<Queued>)
    requires jobs != [] && held != [] && Precede(held, queue) && held[0].id >= jobs[0].id
    ensures Earlier(queue, jobs[0].id) == 0 && queue[0..] == queue && queue[..0] + [jobs[0]] == [jobs[0]]
    ensures Merge(held + queue, jobs) == [jobs[0]] + Merge(held + queue, jobs[1..])
  {
    assert (held + queue)[0] == held[0];
    EarlierUnique(queue, jobs[0].id, 0);
  }

  lemma OrderRunJob(c: Config, s: State)
    requires Sane(c, s) && InOrder(s) && Enabled(c, s, RunJob)
    ensures InOrder(Apply(c, s, RunJob))
  {
    if !Overtakes(s) {
      var n := Earlier(s.queue, s.jobs[0].id);
      var front := s.queue[..n] + [s.jobs[0]];
      JobFront(s.held, s.queue, s.jobs);
      SinglesFlat(front);
      LineSplits(Attempted(s.log), front, Merge(s.held + s.queue[n..], s.jobs[1..]));
    }
  }

  lemma OrderProcess(s: State, landed: bool, id: string, seqno: Option<nat>)
    requires InOrder(s) && s.hand != []
    ensures InOrder(ApplyProcess(s, landed, id, seqno))
  {
    var w := s.hand[0];
    AttemptedGrows(s.log, Members(w), landed);
    LineShifts(Attempted(s.log), Members(w), Flat(s.hand[1..]), Merge(s.held + s.queue, s.jobs));
  }

  /** Taking the front of a queue nobody else holds a part of keeps the order. */
  lemma OrderTaken(s: State, n: nat)
    requires s.held == [] && s.jobs == [] && n <= |s.queue|
    ensures Attempted(s.log) + [] + Merge(s.held + s.queue, s.jobs)
         == Attempted(s.log) + s.queue[..n] + Merge(s.held + s.queue[n..], s.jobs)
  {
    assert s.held + s.queue == s.queue && s.held + s.queue[n..] == s.queue[n..];
    assert s.queue == s.queue[..n] + s.queue[n..];
    MergeAlone(s.queue);
    MergeAlone(s.queue[n..]);
    LineSplits(Attempted(s.log), s.queue[..n], s.queue[n..]);
  }

  lemma MergeAlone(queue: seq<Queued>)
    ensures Merge(queue, []) == queue
  {
  }

  lemma OrderDrainSnapshot(c: Config, s: State, prefix: seq<Queued>)
    requires Sane(c, s) && InOrder(s) && Enabled(c, s, WorkerDrains) && s.phase.snapshot == Some(prefix)
    ensures InOrder(ApplyDrain(c, s))
  {
    MatchIsExact(prefix, s.queue);
    if prefix <= s.queue {
      assert prefix == s.queue[..|prefix|];
      EnvelopesFlat(prefix);
      OrderTaken(s, |prefix|);
    }
  }

  lemma OrderDrainBatch(c: Config, s: State)
    requires Sane(c, s) && InOrder(s) && Enabled(c, s, WorkerDrains) && s.phase.snapshot == None
    ensures InOrder(ApplyDrain(c, s))
  {
    var n := Min(|s.queue|, c.batch);
    SinglesFlat(s.queue[..n]);
    OrderTaken(s, n);
  }

  lemma OrderJoin(c: Config, s: State)
    requires Sane(c, s) && InOrder(s) && Enabled(c, s, Join)
    ensures InOrder(Apply(c, s, Join))
  {
    SinglesFlat(s.held);
    MergeAlone(s.held + s.queue);
    MergeAlone([] + s.queue);
    assert [] + s.queue == s.queue;
    LineSplits(Attempted(s.log), s.held, s.queue);
  }

  /** The order looks at the waiting events only as one line. */
  lemma OrderRegrouped(s: State, s': State)
    requires InOrder(s) && s'.log == s.log && s'.hand == s.hand && s'.history == s.history && s'.jobs == s.jobs
    requires s'.held + s'.queue == s.held + s.queue && (s.overtook ==> s'.overtook)
    ensures InOrder(s')
  {
  }

  lemma OrderExit(c: Config, s: State, step: Step)
    requires InOrder(s) && Enabled(c, s, step) && (step.WorkerStarts? || step.WorkerExits?) && s.held == []
    ensures InOrder(Apply(c, s, step))
  {
    assert [] + s.queue == s.queue && s.queue + [] == s.queue;
    OrderRegrouped(s, Apply(c, s, step));
  }

  lemma OrderStep(c: Config, s: State, step: Step)
    requires Sane(c, s) && InOrder(s) && Enabled(c, s, step)
    ensures InOrder(Apply(c, s, step))
  {
    match step {
      case Notify(event, contended, registered) => OrderNotify(c, s, event, contended, registered);
      case RunJob => OrderRunJob(c, s);
      case Process(landed, id, seqno) => OrderProcess(s, landed, id, seqno);
      case WorkerDrains =>
        if s.phase.snapshot.Some? {
          OrderDrainSnapshot(c, s, s.phase.snapshot.value);
        } else {
          OrderDrainBatch(c, s);
        }
      case Join => OrderJoin(c, s);
      case WorkerStarts(_) => OrderExit(c, s, step);
      case WorkerExits => OrderExit(c, s, step);
      case _ =>
    }
  }

  // ---------------------------------------------------------------------------------------------
  // Once overtaken, never in order again
  // ---------------------------------------------------------------------------------------------

  /** The attempts and the notifications only grow. */
  lemma DivergedGrows(s: State, s': State)
    requires Diverged(s)
    requires Attempted(s.log) + Flat(s.hand) <= Attempted(s'.log) + Flat(s'.hand) && Kept(s.history) <= Kept(s'.history)
    ensures Diverged(s')
  {
    var a, k := Attempted(s.log) + Flat(s.hand), Kept(s.history);
    var a', k' := Attempted(s'.log) + Flat(s'.hand), Kept(s'.history);
    var i :| 0 <= i < |a| && i < |k| && a[i] != k[i];
    assert a[i] == a'[i] && k[i] == k'[i];
  }

  lemma DivergesAt(c: Config, s: State)
    requires Sane(c, s) && InOrder(s) && !s.overtook && Enabled(c, s, RunJob) && Overtakes(s)
    ensures Diverged(Apply(c, s, RunJob))
  {
    var n := Earlier(s.queue, s.jobs[0].id);
    var front := s.queue[..n] + [s.jobs[0]];
    var s' := Apply(c, s, RunJob);
    SinglesFlat(front);
    assert (s.held + s.queue)[0] == s.held[0];
    var k := |s.log|;
    assert Kept(s.history)[k] == s.held[0];
    assert (Attempted(s'.log) + Flat(s'.hand))[k] == front[0];
  }

  lemma GrowsStep(c: Config, s: State, step: Step)
    requires Sane(c, s) && s.failed && Enabled(c, s, step)
    ensures var s' := Apply(c, s, step);
            Attempted(s.log) + Flat(s.hand) <= Attempted(s'.log) + Flat(s'.hand) && Kept(s.history) <= Kept(s'.history)
  {
    match step {
      case Notify(event, contended, registered) =>
        KeptGrows(s.history, Notified(event, true));
        KeptGrows(s.history, Notified(event, false));
      case Process(landed, id, seqno) =>
        AttemptedGrows(s.log, Members(s.hand[0]), landed);
        LineShifts(Attempted(s.log), Members(s.hand[0]), Flat(s.hand[1..]), []);
      case _ =>
    }
  }

  lemma DivergedStep(c: Config, s: State, step: Step)
    requires Sane(c, s) && InOrder(s) && (s.overtook ==> Diverged(s)) && Enabled(c, s, step)
    ensures Apply(c, s, step).overtook ==> Diverged(Apply(c, s, step))
  {
    if s.overtook {
      GrowsStep(c, s, step);
      DivergedGrows(s, Apply(c, s, step));
    } else if step.RunJob? && Overtakes(s) {
      DivergesAt(c, s);
    }
  }

  lemma CountStep(c: Config, s: State, step: Step)
    requires Sane(c, s) && Counted(s) && Enabled(c, s, step)
    ensures Counted(Apply(c, s, step))
  {
    match step {
      case Notify(event, contended, registered) => CountNotify(c, s, event, contended, registered);
      case RunJob => CountRunJob(c, s);
      case Process(landed, id, seqno) => CountProcess(s, landed, id, seqno);
      case WorkerDrains => CountDrain(c, s);
      case Join => SinglesFlat(s.held);
      case _ =>
    }
  }

  /** One more notification, in one more place. */
  lemma CountOneMore(s: State, s': State)
    requires Counted(s) && |s'.history| == |s.history| + 1 && s'.hand == s.hand && s'.held == s.held
    requires s'.drained == s.drained && s'.returned == s.returned && s'.forwarded == s.forwarded
    requires s'.stopping == s.stopping && s'.failed == s.failed
    requires s'.lost + |s'.queue| + |s'.jobs| == s.lost + |s.queue| + |s.jobs| + 1
    requires s'.enqueued - |s'.queue| == s.enqueued - |s.queue|
    requires s'.enqueued + s'.fallbacks == s.enqueued + s.fallbacks + 1
    ensures Counted(s')
  {
  }

  lemma CountNotify(c: Config, s: State, event: PendingEvent, contended: bool, registered: bool)
    requires Counted(s)
    ensures Counted(ApplyNotify(c, s, event, contended, registered))
  {
    var s' := ApplyNotify(c, s, event, contended, registered);
    if !contended && |s.queue| < c.capacity {
      CountOneMore(s, s');
    } else if registered {
      CountOneMore(s, s');
    } else {
      CountOneMore(s, s');
    }
  }

  lemma CountRunJob(c: Config, s: State)
    requires Counted(s) && Enabled(c, s, RunJob)
    ensures Counted(Apply(c, s, RunJob))
  {
    SinglesFlat(s.queue[..Earlier(s.queue, s.jobs[0].id)] + [s.jobs[0]]);
  }

  lemma CountProcess(s: State, landed: bool, id: string, seqno: Option<nat>)
    requires Counted(s) && s.hand != []
    ensures Counted(ApplyProcess(s, landed, id, seqno))
  {
  }

  lemma CountDrain(c: Config, s: State)
    requires Sane(c, s) && Counted(s) && Enabled(c, s, WorkerDrains)
    ensures Counted(ApplyDrain(c, s))
  {
    match s.phase.snapshot
    case Some(prefix) =>
      MatchIsExact(prefix, s.queue);
      EnvelopesFlat(prefix);
    case None =>
      SinglesFlat(s.queue[..Min(|s.queue|, c.batch)]);
  }

  // ---------------------------------------------------------------------------------------------
  // What the counters count
  // ---------------------------------------------------------------------------------------------

  /** The attempts that landed. */
  function LandedIn(log: seq<Attempt>): (n: nat)
    ensures n <= |log|
  {
    if log == [] then 0
    else LandedIn(log[..|log| - 1]) + if log[|log| - 1].landed then 1 else 0
  }

  /** The notifications the writer could not keep. */
  function Unkept(history: seq<Notified>): nat {
    if history == [] then 0
    else Unkept(history[..|history| - 1]) + if history[|history| - 1].kept then 0 else 1
  }

  lemma {:induction false} LandedGrows(log: seq<Attempt>, q: seq<Queued>, landed: bool)
    ensures LandedIn(log + Attempts(q, landed)) == LandedIn(log) + if landed then |q| else 0
    decreases |q|
  {
    var all := log + Attempts(q, landed);
    if q == [] {
      assert all == log;
    } else {
      var n := |q| - 1;
      LandedGrows(log, q[..n], landed);
      assert all[..|all| - 1] == log + Attempts(q[..n], landed);
      assert all[|all| - 1].landed == landed;
    }
  }

  lemma UnkeptGrows(history: seq<Notified>, x: Notified)
    ensures Unkept(history + [x]) == Unkept(history) + if x.kept then 0 else 1
  {
    assert (history + [x])[..|history|] == history;
  }

  predicate Accounted(s: State) {
    s.forwarded == LandedIn(s.log) && s.lost == |s.log| - LandedIn(s.log) + Unkept(s.history)
  }

  lemma AccountProcess(s: State, landed: bool, id: string, seqno: Option<nat>)
    requires Accounted(s) && s.hand != []
    ensures Accounted(ApplyProcess(s, landed, id, seqno))
  {
    LandedGrows(s.log, Members(s.hand[0]), landed);
  }

  lemma AccountNotify(c: Config, s: State, event: PendingEvent, contended: bool, registered: bool)
    requires Accounted(s)
    ensures Accounted(ApplyNotify(c, s, event, contended, registered))
  {
    UnkeptGrows(s.history, Notified(event, true));
    UnkeptGrows(s.history, Notified(event, false));
  }

  /** The other steps move no event in or out. */
  lemma QuietStep(c: Config, s: State, step: Step)
    requires Enabled(c, s, step) && !step.Notify? && !step.Process?
    ensures var s' := Apply(c, s, step);
            s'.log == s.log && s'.history == s.history && s'.forwarded == s.forwarded && s'.lost == s.lost
  {
    match step {
      case RunJob =>
      case WorkerDrains =>
      case WorkerStarts(_) =>
      case Join =>
      case _ =>
    }
  }

  lemma AccountStep(c: Config, s: State, step: Step)
    requires Accounted(s) && Enabled(c, s, step)
    ensures Accounted(Apply(c, s, step))
  {
    if step.Notify? {
      AccountNotify(c, s, step.event, step.contended, step.registered);
    } else if step.Process? {
      AccountProcess(s, step.landed, step.id, step.seqno);
    } else {
      QuietStep(c, s, step);
    }
  }

  /** The notifications that found the queue's lock free and room in it, over a run. */
  function QueuedIn(c: Config, steps: seq<Step>): nat
    requires Run(c, steps).Some?
  {
    if steps == [] then 0
    else
      var before, step := steps[..|steps| - 1], steps[|steps| - 1];
      QueuedIn(c, before)
        + if step.Notify? && !step.contended && |Run(c, before).value.queue| < c.capacity then 1 else 0
  }

  lemma EnqueuedStep(c: Config, s: State, step: Step)
    requires Enabled(c, s, step)
    ensures Apply(c, s, step).enqueued
         == s.enqueued + if step.Notify? && !step.contended && |s.queue| < c.capacity then 1 else 0
  {
  }

  /** Only an exiting worker returns events, and what it returned is what it holds. */
  predicate Returns(s: State) {
    (!s.phase.Exited? ==> s.returned == 0) && (s.held != [] ==> s.returned == |s.held|)
  }

  lemma ReturnsStep(c: Config, s: State, step: Step)
    requires Sane(c, s) && Enabled(c, s, step) && Returns(s)
    ensures Returns(Apply(c, s, step))
  {
  }

  lemma {:induction false} Invariant(c: Config, steps: seq<Step>)
    requires Run(c, steps).Some?
    ensures var s := Run(c, steps).value; Sane(c, s) && InOrder(s) && Counted(s) && (s.overtook ==> Diverged(s))
  {
    if steps != [] {
      var before, step := steps[..|steps| - 1], steps[|steps| - 1];
      Invariant(c, before);
      var s := Run(c, before).value;
      SaneStep(c, s, step);
      OrderStep(c, s, step);
      CountStep(c, s, step);
      DivergedStep(c, s, step);
    }
  }

  // ---------------------------------------------------------------------------------------------
  // Main results
  // ---------------------------------------------------------------------------------------------

  /** The worker never holds or prepares more than a batch. */
  predicate InBatch(c: Config, s: State) {
    && (s.holder.Worker? ==> |Flat(s.hand)| <= c.batch)
    && (s.phase.Trying? && s.phase.snapshot.Some? ==> |s.phase.snapshot.value| <= c.batch)
  }

  lemma InBatchDrain(c: Config, s: State)
    requires Sane(c, s) && InBatch(c, s) && Enabled(c, s, WorkerDrains)
    ensures InBatch(c, ApplyDrain(c, s))
  {
    match s.phase.snapshot
    case Some(prefix) =>
      EnvelopesFlat(prefix);
    case None =>
      SinglesFlat(s.queue[..Min(|s.queue|, c.batch)]);
  }

  lemma InBatchStep(c: Config, s: State, step: Step)
    requires Sane(c, s) && InBatch(c, s) && Enabled(c, s, step)
    ensures InBatch(c, Apply(c, s, step))
  {
    match step {
      case Notify(_, _, _) =>
      case RunJob =>
      case Process(_, _, _) =>
      case WorkerStarts(_) =>
      case WorkerReady =>
      case WorkerDrains => InBatchDrain(c, s);
      case _ =>
    }
  }

  lemma {:induction false} RunAccounts(c: Config, steps: seq<Step>)
    requires Run(c, steps).Some?
    ensures var s := Run(c, steps).value;
            Accounted(s) && Returns(s) && InBatch(c, s) && s.enqueued == QueuedIn(c, steps)
  {
    if steps != [] {
      var before, step := steps[..|steps| - 1], steps[|steps| - 1];
      RunAccounts(c, before);
      Invariant(c, before);
      var s := Run(c, before).value;
      AccountStep(c, s, step);
      EnqueuedStep(c, s, step);
      ReturnsStep(c, s, step);
      InBatchStep(c, s, step);
    }
  }

  /**
   Every run: `forwarded` is the number of landed attempts, `lost` that of the attempts that did not land and of the
   notifications not kept, `enqueued` that of the notifications the queue took and `fallbacks` that of the others; what
   was enqueued and is neither queued nor returned by the worker has been drained.
   */
  lemma CountersMean(c: Config, steps: seq<Step>)
    requires Run(c, steps).Some?
    ensures var s := Run(c, steps).value;
            && s.forwarded == LandedIn(s.log) && s.lost == |s.log| - LandedIn(s.log) + Unkept(s.history)
            && s.enqueued == QueuedIn(c, steps) && s.fallbacks == |s.history| - QueuedIn(c, steps)
            && s.drained == s.enqueued - |s.queue| - s.returned
            && (!s.phase.Exited? ==> s.returned == 0) && (s.held != [] ==> s.returned == |s.held|)
  {
    RunAccounts(c, steps);
    Invariant(c, steps);
  }

  /**
   Every run: between jobs, the attempts made so far are a prefix of the kept notifications in notification order
   exactly when no fallback job has overtaken an event that a worker without a context took along. A run whose worker
   got its context never has: nothing is reordered, repeated or skipped, whatever the interleaving.
   */
  lemma NotificationOrder(c: Config, steps: seq<Step>)
    requires Run(c, steps).Some?
    ensures var s := Run(c, steps).value;
            && (!s.overtook ==> Attempted(s.log) <= Kept(s.history))
            && (s.hand == [] ==> (Attempted(s.log) <= Kept(s.history) <==> !s.overtook))
            && (!s.failed ==> !s.overtook)
  {
    Invariant(c, steps);
    var s := Run(c, steps).value;
    if s.hand == [] {
      assert Attempted(s.log) + Flat(s.hand) == Attempted(s.log);
    }
    Prefix(Attempted(s.log), Flat(s.hand), Merge(s.held + s.queue, s.jobs));
  }

  lemma Prefix(a: seq<Queued>, b: seq<Queued>, d: seq<Queued>)
    ensures a <= a + b + d
  {
  }

  /**
   A stopped writer has attempted every kept notification, in order, exactly when no job overtook and nothing was left
   queued; a worker that got its context sees to both, and then every notification is forwarded or lost.
   */
  lemma StopIsComplete(c: Config, steps: seq<Step>)
    requires Run(c, steps).Some? && Run(c, steps).value.stopped
    ensures var s := Run(c, steps).value;
            && (Attempted(s.log) == Kept(s.history) <==> !s.overtook && s.queue == [])
            && (!s.failed ==> !s.overtook && s.queue == [] && |s.history| == s.forwarded + s.lost)
  {
    Invariant(c, steps);
    var s := Run(c, steps).value;
    assert s.hand == [] && s.held == [] && s.jobs == [];
    AllAttempted(s);
  }

  lemma AllAttempted(s: State)
    requires InOrder(s) && (s.overtook ==> Diverged(s)) && s.hand == [] && s.held == [] && s.jobs == []
    ensures Attempted(s.log) == Kept(s.history) <==> !s.overtook && s.queue == []
  {
    var done := Attempted(s.log);
    assert done + Flat(s.hand) == done;
    MergeAlone(s.queue);
    assert s.held + s.queue == s.queue;
    assert |done + s.queue| == |done| + |s.queue|;
  }

  /**
   Conservation in every reachable state: each notification is in exactly one place, the queue respects its bound and
   the worker its batch, and until the stop what was enqueued has been drained or is still queued.
   */
  lemma Conservation(c: Config, steps: seq<Step>)
    requires Run(c, steps).Some?
    ensures var s := Run(c, steps).value;
            && |s.history| == s.forwarded + s.lost + |Flat(s.hand)| + |s.held| + |s.queue| + |s.jobs|
            && |s.history| == s.enqueued + s.fallbacks && |s.queue| <= c.capacity
            && (s.holder.Worker? ==> |Flat(s.hand)| <= c.batch)
            && (!s.stopping && !s.failed ==> s.enqueued == s.drained + |s.queue|)
  {
    Invariant(c, steps);
    RunAccounts(c, steps);
  }

  /** After the stop began at `at`: nothing new is notified, and a queue without a worker is left as it was. */
  predicate Winds(at: State, s: State) {
    && s.stopping && s.failed == at.failed && s.history == at.history
    && (at.failed ==> s.phase.Exited? && s.queue == at.queue)
  }

  lemma WindsStep(c: Config, at: State, s: State, step: Step)
    requires Sane(c, s) && Winds(at, s) && Enabled(c, s, step)
    ensures Winds(at, Apply(c, s, step))
  {
  }

  lemma WindsBegin(c: Config, s: State)
    requires Sane(c, s) && Enabled(c, s, StopBegins)
    ensures Winds(s, Apply(c, s, StopBegins))
  {
  }

  /** The last step of a run. */
  lemma RunLast(c: Config, steps: seq<Step>, step: Step)
    requires Run(c, steps + [step]).Some?
    ensures Run(c, steps).Some? && Enabled(c, Run(c, steps).value, step)
    ensures Run(c, steps + [step]).value == Apply(c, Run(c, steps).value, step)
  {
    assert (steps + [step])[..|steps|] == steps;
  }

  lemma {:induction false} WindsDown(c: Config, before: seq<Step>, after: seq<Step>)
    requires Run(c, before).Some? && Run(c, before + [StopBegins] + after).Some?
    ensures Winds(Run(c, before).value, Run(c, before + [StopBegins] + after).value)
  {
    var stop := before + [StopBegins];
    if after == [] {
      assert stop + after == stop;
      Invariant(c, before);
      RunLast(c, before, StopBegins);
      WindsBegin(c, Run(c, before).value);
    } else {
      var shorter, step := after[..|after| - 1], after[|after| - 1];
      assert stop + after == (stop + shorter) + [step];
      RunLast(c, stop + shorter, step);
      WindsDown(c, before, shorter);
      Invariant(c, stop + shorter);
      WindsStep(c, Run(c, before).value, Run(c, stop + shorter).value, step);
    }
  }

  /**
   A completed stop has accounted for every notification exactly when, as it began, the worker had not been refused
   its context or nothing was queued.
   */
  lemma StopLossExactly(c: Config, before: seq<Step>, after: seq<Step>)
    requires Run(c, before).Some? && Run(c, before + [StopBegins] + after).Some?
    requires Run(c, before + [StopBegins] + after).value.stopped
    ensures var at, s := Run(c, before).value, Run(c, before + [StopBegins] + after).value;
            |s.history| == s.forwarded + s.lost <==> !at.failed || at.queue == []
  {
    WindsDown(c, before, after);
    Invariant(c, before + [StopBegins] + after);
  }

  lemma RunExtends(c: Config, steps: seq<Step>, s: State, step: Step)
    requires Run(c, steps) == Some(s) && Enabled(c, s, step)
    ensures Run(c, steps + [step]) == Some(Apply(c, s, step))
  {
    assert (steps + [step])[..|steps|] == steps;
  }

  /** A worker that got no context leaves at once; an event queued after that is dropped by the stop, uncounted. */
  lemma OrphanedEvent(c: Config, e: PendingEvent) returns (steps: seq<Step>, s: State)
    requires c.capacity > 0
    ensures Run(c, steps) == Some(s) && s.stopped && s.failed && s.log == [] && s.forwarded + s.lost == 0
    ensures Kept(s.history) == [Queued(0, e)]
  {
    RunExtends(c, [], INIT, WorkerStarts(false));
    var s1 := Apply(c, INIT, WorkerStarts(false));
    RunExtends(c, [] + [WorkerStarts(false)], s1, MainTakes);
    var s2 := Apply(c, s1, MainTakes);
    steps := [] + [WorkerStarts(false)] + [MainTakes];
    s := OrphanedBy(c, e, steps, s2);
    steps := steps + [Notify(e, false, true)] + [StopBegins] + [StopEnds];
  }

  lemma OrphanedBy(c: Config, e: PendingEvent, steps: seq<Step>, s2: State) returns (s: State)
    requires c.capacity > 0 && Run(c, steps) == Some(s2)
    requires s2 == INIT.(phase := Exited, failed := true, holder := Main)
    ensures Run(c, steps + [Notify(e, false, true)] + [StopBegins] + [StopEnds]) == Some(s)
    ensures s.stopped && s.failed && s.log == [] && s.forwarded + s.lost == 0 && Kept(s.history) == [Queued(0, e)]
  {
    RunExtends(c, steps, s2, Notify(e, false, true));
    var s3 := ApplyNotify(c, s2, e, false, true);
    KeptGrows([], Notified(e, true));
    RunExtends(c, steps + [Notify(e, false, true)], s3, StopBegins);
    var s4 := s3.(stopping := true);
    RunExtends(c, steps + [Notify(e, false, true)] + [StopBegins], s4, StopEnds);
    s := s4.(stopped := true, holder := Free);
  }

  /**
   A worker that got no context keeps what it took along until the stop, and a fallback job does not wait for it: the
   later of two notifications is attempted first.
   */
  lemma Reordered(c: Config, a: PendingEvent, b: PendingEvent) returns (steps: seq<Step>, s: State)
    requires c.capacity > 0
    ensures Run(c, steps) == Some(s) && s.failed && s.overtook && s.lost == 0
    ensures Attempted(s.log) == [Queued(1, b), Queued(0, a)] && Kept(s.history) == [Queued(0, a), Queued(1, b)]
  {
    RunExtends(c, [], INIT, MainTakes);
    var run := [] + [MainTakes];
    var s2 := TakenAlong(c, a, b, run, INIT.(holder := Main));
    run := run + [Notify(a, false, true)] + [WorkerStarts(false)] + [Notify(b, true, true)];
    var s4 := Overtaken(c, a, b, run, s2);
    run := run + [RunJob] + [Process(true, [], None)] + [StopBegins];
    s := JoinedLast(c, a, b, run, s4);
    steps := run + [Join] + [Process(true, [], None)];
  }

  /** `a` is queued, goes with the worker, and `b` finds the queue contended. */
  lemma TakenAlong(c: Config, a: PendingEvent, b: PendingEvent, steps: seq<Step>, s0: State) returns (s: State)
    requires c.capacity > 0 && Run(c, steps) == Some(s0) && s0 == INIT.(holder := Main)
    ensures Run(c, steps + [Notify(a, false, true)] + [WorkerStarts(false)] + [Notify(b, true, true)]) == Some(s)
    ensures s.holder == Main && s.phase == Exited && s.failed && !s.overtook && !s.stopping && s.lost == 0
    ensures s.held == [Queued(0, a)] && s.queue == [] && s.jobs == [Queued(1, b)] && s.hand == [] && s.log == []
    ensures Kept(s.history) == [Queued(0, a), Queued(1, b)]
  {
    RunExtends(c, steps, s0, Notify(a, false, true));
    var s1 := ApplyNotify(c, s0, a, false, true);
    KeptGrows(s0.history, Notified(a, true));
    RunExtends(c, steps + [Notify(a, false, true)], s1, WorkerStarts(false));
    var s2 := Apply(c, s1, WorkerStarts(false));
    RunExtends(c, steps + [Notify(a, false, true)] + [WorkerStarts(false)], s2, Notify(b, true, true));
    s := ApplyNotify(c, s2, b, true, true);
    KeptGrows(s1.history, Notified(b, true));
  }

  lemma OneInHand(x: Queued)
    ensures Singles([x]) == [Single(x)] && Members(Single(x)) == [x]
  {
    assert [x][1..] == [] && [Single(x)] + [] == [Single(x)];
  }

  lemma Overtaken(c: Config, a: PendingEvent, b: PendingEvent, steps: seq<Step>, s: State) returns (s': State)
    requires Run(c, steps) == Some(s) && s.holder == Main && s.failed && !s.stopping && s.lost == 0
    requires s.held == [Queued(0, a)] && s.queue == [] && s.jobs == [Queued(1, b)] && s.hand == [] && s.log == []
    ensures Run(c, steps + [RunJob] + [Process(true, [], None)] + [StopBegins]) == Some(s')
    ensures s'.history == s.history && s'.phase == s.phase && s'.failed && s'.overtook && s'.stopping && s'.lost == 0
    ensures s'.holder == Main && s'.held == s.held && s'.hand == [] && s'.log == Attempts([Queued(1, b)], true)
  {
    var x := Queued(1, b);
    RunExtends(c, steps, s, RunJob);
    var s1 := Apply(c, s, RunJob);
    assert s.queue[..0] + [x] == [x];
    OneInHand(x);
    RunExtends(c, steps + [RunJob], s1, Process(true, [], None));
    var s2 := ApplyProcess(s1, true, [], None);
    assert [] + Attempts([x], true) == Attempts([x], true);
    RunExtends(c, steps + [RunJob] + [Process(true, [], None)], s2, StopBegins);
    s' := s2.(stopping := true);
  }

  lemma JoinedLast(c: Config, a: PendingEvent, b: PendingEvent, steps: seq<Step>, s: State) returns (s': State)
    requires Run(c, steps) == Some(s) && s.phase == Exited && s.failed && s.overtook && s.stopping && s.lost == 0
    requires !s.holder.Free? && s.held == [Queued(0, a)] && s.hand == [] && s.log == Attempts([Queued(1, b)], true)
    ensures Run(c, steps + [Join] + [Process(true, [], None)]) == Some(s')
    ensures s'.history == s.history && s'.failed && s'.overtook && s'.lost == 0
    ensures Attempted(s'.log) == [Queued(1, b), Queued(0, a)]
  {
    RunExtends(c, steps, s, Join);
    var s1 := Apply(c, s, Join);
    OneInHand(Queued(0, a));
    RunExtends(c, steps + [Join], s1, Process(true, [], None));
    s' := ApplyProcess(s1, true, [], None);
    AttemptedGrows([], [Queued(1, b)], true);
    AttemptedGrows(s.log, [Queued(0, a)], true);
  }

  lemma OnlyProcessWrites(c: Config, s: State, step: Step)
    requires Enabled(c, s, step) && !step.Process?
    ensures Apply(c, s, step).log == s.log && Apply(c, s, step).written == s.written
  {
    match step {
      case Notify(_, _, _) =>
      case RunJob =>
      case WorkerDrains =>
      case WorkerStarts(_) =>
      case Join =>
      case _ =>
    }
  }
}
