/** The bounded FIFO between the notification callback and the worker (src/dispatch.rs). */
module Queue {
  import opened Text
  import opened Events

  /** An accepted event and its position in notification order. */
  datatype Queued = Queued(id: nat, event: PendingEvent)

  predicate Increasing(q: seq<Queued>) {
    forall i, j :: 0 <= i < j < |q| ==> q[i].id < q[j].id
  }

  predicate AllBelow(q: seq<Queued>, id: nat) {
    forall i :: 0 <= i < |q| ==> q[i].id < id
  }

  function Payload(q: seq<Queued>): (es: seq<PendingEvent>)
    ensures |es| == |q| && forall i :: 0 <= i < |q| ==> es[i] == q[i].event
  {
    seq(|q|, i requires 0 <= i < |q| => q[i].event)
  }

  /** How many leading entries precede `id`. */
  function Earlier(q: seq<Queued>, id: nat): (n: nat)
    ensures n <= |q| && AllBelow(q[..n], id)
    ensures n < |q| ==> q[n].id >= id
  {
    if q == [] || q[0].id >= id then 0
    else
      var n := Earlier(q[1..], id);
      assert q[..n + 1] == [q[0]] + q[1..][..n];
      n + 1
  }

  lemma {:induction false} EarlierUnique(q: seq<Queued>, id: nat, n: nat)
    requires n <= |q| && AllBelow(q[..n], id) && (n < |q| ==> q[n].id >= id)
    ensures Earlier(q, id) == n
  {
    if n > 0 {
      assert q[..n][0] == q[0];
      assert q[1..][..n - 1] == q[..n][1..];
      EarlierUnique(q[1..], id, n - 1);
    }
  }

  function Min(a: nat, b: nat): (m: nat)
    ensures m <= a && m <= b && (m == a || m == b)
  {
    if a <= b then a else b
  }

  // ---------------------------------------------------------------------------------------------
  // Envelope groups
  // ---------------------------------------------------------------------------------------------

  /** `envelope_compatible`: one destination, one retention, one cap. */
  predicate Compatible(left: PendingEvent, right: PendingEvent) {
    && left.prefix == right.prefix && left.suffix == right.suffix
    && left.dataRetention == right.dataRetention && left.maxStreams == right.maxStreams
  }

  /** The length of the leading run compatible with its first event, counting from `n`. */
  function RunLength(events: seq<PendingEvent>, n: nat): (r: nat)
    requires 1 <= n <= |events|
    requires forall i :: 0 <= i < n ==> Compatible(events[0], events[i])
    ensures n <= r <= |events|
    ensures forall i :: 0 <= i < r ==> Compatible(events[0], events[i])
    ensures r < |events| ==> !Compatible(events[0], events[r])
    decreases |events| - n
  {
    if n < |events| && Compatible(events[0], events[n]) then RunLength(events, n + 1) else n
  }

  /** The prepared groups of a snapshot. */
  function Groups(events: seq<PendingEvent>): (gs: seq<seq<PendingEvent>>)
    decreases |events|
  {
    if events == [] then []
    else [events[..RunLength(events, 1)]] + Groups(events[RunLength(events, 1)..])
  }

  function Flatten(gs: seq<seq<PendingEvent>>): seq<PendingEvent> {
    if gs == [] then [] else gs[0] + Flatten(gs[1..])
  }

  /** A group that can be written as one entry. */
  predicate Uniform(g: seq<PendingEvent>) {
    g != [] && forall i :: 0 <= i < |g| ==> Compatible(g[0], g[i])
  }

  /** No two neighbouring groups could have been one. */
  predicate Maximal(gs: seq<seq<PendingEvent>>) {
    forall g, h :: 0 <= g && h == g + 1 < |gs| ==> Breaks(gs[g], gs[h])
  }

  predicate Breaks(left: seq<PendingEvent>, right: seq<PendingEvent>) {
    left != [] && right != [] && !Compatible(left[0], right[0])
  }

  lemma FlattenCons(g: seq<PendingEvent>, gs: seq<seq<PendingEvent>>)
    ensures Flatten([g] + gs) == g + Flatten(gs)
  {
    assert ([g] + gs)[1..] == gs;
  }

  lemma {:induction false} GroupsFlatten(events: seq<PendingEvent>)
    ensures Flatten(Groups(events)) == events
    decreases |events|
  {
    if events != [] {
      var n := RunLength(events, 1);
      var head, tail := events[..n], events[n..];
      assert head + tail == events;
      GroupsFlatten(tail);
      var rest := Groups(tail);
      FlattenCons(head, rest);
      assert Groups(events) == [head] + rest;
    }
  }

  lemma {:induction false} GroupsUniform(events: seq<PendingEvent>)
    ensures forall g :: 0 <= g < |Groups(events)| ==> Uniform(Groups(events)[g])
    decreases |events|
  {
    if events != [] {
      var n := RunLength(events, 1);
      GroupsUniform(events[n..]);
      var gs := Groups(events);
      assert Uniform(gs[0]);
      forall g | 1 <= g < |gs|
        ensures Uniform(gs[g])
      {
        assert gs[g] == Groups(events[n..])[g - 1];
      }
    }
  }

  lemma {:induction false} GroupsMaximal(events: seq<PendingEvent>)
    ensures Maximal(Groups(events))
    ensures events != [] ==> Groups(events) != [] && Groups(events)[0] != [] && Groups(events)[0][0] == events[0]
    decreases |events|
  {
    if events != [] {
      var n := RunLength(events, 1);
      GroupsMaximal(events[n..]);
      var gs, rest := Groups(events), Groups(events[n..]);
      forall g, h | 0 <= g && h == g + 1 < |gs|
        ensures Breaks(gs[g], gs[h])
      {
        assert gs[h] == rest[h - 1];
        if g > 0 {
          assert gs[g] == rest[g - 1];
        }
      }
    }
  }

  /** The groups cut the snapshot, in order, into maximal runs that share destination, retention and cap. */
  lemma GroupsPartition(events: seq<PendingEvent>)
    ensures Flatten(Groups(events)) == events
    ensures forall g :: 0 <= g < |Groups(events)| ==> Uniform(Groups(events)[g])
    ensures Maximal(Groups(events))
    ensures forall g, i :: 0 <= g < |Groups(events)| && 0 <= i < |Groups(events)[g]| ==>
              var first, e := Groups(events)[g][0], Groups(events)[g][i];
              && e.prefix == first.prefix && e.suffix == first.suffix
              && e.dataRetention == first.dataRetention && e.maxStreams == first.maxStreams
    ensures forall g, h :: 0 <= g && h == g + 1 < |Groups(events)| ==>
              && Groups(events)[g] != [] && Groups(events)[h] != []
              && var a, b := Groups(events)[g][0], Groups(events)[h][0];
                 || a.prefix != b.prefix || a.suffix != b.suffix
                 || a.dataRetention != b.dataRetention || a.maxStreams != b.maxStreams
  {
    GroupsFlatten(events);
    GroupsUniform(events);
    GroupsMaximal(events);
    var gs := Groups(events);
    forall g, i | 0 <= g < |gs| && 0 <= i < |gs[g]|
      ensures Compatible(gs[g][0], gs[g][i])
    {
      assert Uniform(gs[g]);
    }
    forall g, h | 0 <= g && h == g + 1 < |gs|
      ensures Breaks(gs[g], gs[h])
    {
    }
  }

  lemma GroupsStep(selected: seq<PendingEvent>, start: nat, end: nat)
    requires start < end <= |selected| && end - start == RunLength(selected[start..], 1)
    ensures Groups(selected[start..]) == [selected[start..end]] + Groups(selected[end..])
  {
    var rest := selected[start..];
    assert selected[start..end] == rest[..end - start] && selected[end..] == rest[end - start..];
  }

  datatype PreparedGroup = PreparedGroup(len: nat, fields: seq<Field>)

  function PrepareGroup(g: seq<PendingEvent>): PreparedGroup {
    PreparedGroup(|g|, BatchFields(g))
  }

  function Prepared(gs: seq<seq<PendingEvent>>): seq<PreparedGroup> {
    if gs == [] then [] else [PrepareGroup(gs[0])] + Prepared(gs[1..])
  }

  lemma PreparedStep(selected: seq<PendingEvent>, start: nat, end: nat, groups: seq<PreparedGroup>)
    requires start < end <= |selected| && end - start == RunLength(selected[start..], 1)
    ensures groups + Prepared(Groups(selected[start..]))
         == (groups + [PrepareGroup(selected[start..end])]) + Prepared(Groups(selected[end..]))
  {
    GroupsStep(selected, start, end);
    PreparedCons(selected[start..end], Groups(selected[end..]));
    Reassociate(groups, PrepareGroup(selected[start..end]), Prepared(Groups(selected[end..])));
  }

  /** Each prepared group remembers how many events it covers. */
  predicate Sized(groups: seq<PreparedGroup>, gs: seq<seq<PendingEvent>>) {
    |groups| == |gs| && forall i :: 0 <= i < |gs| ==> groups[i].len == |gs[i]|
  }

  lemma {:induction false} PreparedSized(gs: seq<seq<PendingEvent>>)
    ensures Sized(Prepared(gs), gs)
  {
    if gs != [] {
      PreparedSized(gs[1..]);
    }
  }

  lemma SliceStep(events: seq<PendingEvent>, gs: seq<seq<PendingEvent>>, i: nat, start: nat)
    requires i < |gs| && start <= |events| && Flatten(gs[i..]) == events[start..]
    ensures start + |gs[i]| <= |events| && events[start..start + |gs[i]|] == gs[i]
    ensures Flatten(gs[i + 1..]) == events[start + |gs[i]|..]
  {
    var rest := events[start..];
    assert gs[i..] == [gs[i]] + gs[i + 1..];
    FlattenCons(gs[i], gs[i + 1..]);
    assert rest[..|gs[i]|] == gs[i] && rest[|gs[i]|..] == Flatten(gs[i + 1..]);
  }

  lemma Reassociate(a: seq<PreparedGroup>, b: PreparedGroup, c: seq<PreparedGroup>)
    ensures a + ([b] + c) == (a + [b]) + c
  {
  }

  lemma PreparedCons(run: seq<PendingEvent>, gs: seq<seq<PendingEvent>>)
    ensures Prepared([run] + gs) == [PrepareGroup(run)] + Prepared(gs)
  {
    assert ([run] + gs)[1..] == gs;
  }

  datatype Snapshot = Snapshot(
    firstId: nat, lastId: nat, count: nat, events: seq<PendingEvent>, groups: seq<PreparedGroup>)

  /** The snapshot of a non-empty queue prefix. */
  function SnapshotOf(prefix: seq<Queued>): Snapshot
    requires prefix != []
  {
    Snapshot(prefix[0].id, prefix[|prefix| - 1].id, |prefix|, Payload(prefix), Prepared(Groups(Payload(prefix))))
  }

  /** The two-id test of `drain_snapshot`. */
  predicate InPlace(q: seq<Queued>, firstId: nat, lastId: nat, count: nat) {
    && q != [] && q[0].id == firstId
    && var last := if count == 0 then 0 else count - 1; last < |q| && q[last].id == lastId
  }

  /** `s` carries the ids and the length of a snapshot of `prefix`. */
  predicate Describes(s: Snapshot, prefix: seq<Queued>) {
    prefix != [] && s.firstId == prefix[0].id && s.lastId == prefix[|prefix| - 1].id && s.count == |prefix|
  }

  // ---------------------------------------------------------------------------------------------
  // Stale snapshots
  // ---------------------------------------------------------------------------------------------

  /** The id test of `drain_snapshot` on the snapshot taken from `prefix`. */
  predicate StillMatches(queue: seq<Queued>, prefix: seq<Queued>)
    requires prefix != []
  {
    InPlace(queue, prefix[0].id, prefix[|prefix| - 1].id, |prefix|)
  }

  /** The snapshot's prefix without its first `k` events still heads the queue; all of it gone means newer ids only. */
  predicate Survives(prefix: seq<Queued>, queue: seq<Queued>, k: nat) {
    && k <= |prefix| && prefix != [] && Increasing(prefix)
    && (k < |prefix| ==> prefix[k..] <= queue)
    && (k == |prefix| ==> forall i :: 0 <= i < |queue| ==> prefix[|prefix| - 1].id < queue[i].id)
  }

  ghost predicate SnapshotOk(prefix: seq<Queued>, queue: seq<Queued>) {
    exists k: nat :: Survives(prefix, queue, k)
  }

  /** The two-id test is exact: it accepts a snapshot only while its whole prefix is still in place. */
  lemma MatchIsExact(prefix: seq<Queued>, queue: seq<Queued>)
    requires SnapshotOk(prefix, queue)
    ensures StillMatches(queue, prefix) <==> prefix <= queue
  {
    var k: nat :| Survives(prefix, queue, k);
    if 0 < k < |prefix| {
      assert prefix[k..][0] == queue[0];
    } else if k == 0 {
      assert prefix[0..] == prefix;
    }
    if prefix <= queue {
      assert queue[0] == prefix[0] && queue[|prefix| - 1] == prefix[|prefix| - 1];
    }
  }

  lemma SnapshotTaken(queue: seq<Queued>, n: nat)
    requires 0 < n <= |queue| && Increasing(queue)
    ensures SnapshotOk(queue[..n], queue)
  {
    assert Survives(queue[..n], queue, 0);
  }

  lemma SnapshotUnderPush(prefix: seq<Queued>, queue: seq<Queued>, x: Queued)
    requires SnapshotOk(prefix, queue) && AllBelow(prefix, x.id)
    ensures SnapshotOk(prefix, queue + [x])
  {
    var k: nat :| Survives(prefix, queue, k);
    assert Survives(prefix, queue + [x], k);
  }

  lemma SnapshotUnderDrain(prefix: seq<Queued>, queue: seq<Queued>, n: nat)
    requires SnapshotOk(prefix, queue) && Increasing(queue) && n <= |queue|
    ensures SnapshotOk(prefix, queue[n..])
  {
    var k: nat :| Survives(prefix, queue, k);
    if k + n < |prefix| {
      assert prefix[k + n..] == prefix[k..][n..];
      assert Survives(prefix, queue[n..], k + n);
    } else {
      if k < |prefix| {
        assert queue[|prefix| - 1 - k] == prefix[k..][|prefix| - 1 - k] == prefix[|prefix| - 1];
      }
      assert Survives(prefix, queue[n..], |prefix|);
    }
  }

  // ---------------------------------------------------------------------------------------------
  // The queue object
  // ---------------------------------------------------------------------------------------------

  const QUEUE_LOCK_SPINS: nat := 64

  datatype TryLock = Acquired | Poisoned | WouldBlock

  /** What the spin loop ends with: the first answer that is not contention, if it comes in time. */
  function Spin(lock: nat -> TryLock, i: nat): TryLock
    requires i <= QUEUE_LOCK_SPINS
    decreases QUEUE_LOCK_SPINS - i
  {
    if i == QUEUE_LOCK_SPINS || !lock(i).WouldBlock? then (if i == QUEUE_LOCK_SPINS then WouldBlock else lock(i))
    else Spin(lock, i + 1)
  }

  /** The lock is won at try `i`, after contention only. */
  predicate WonAt(lock: nat -> TryLock, i: nat) {
    lock(i).Acquired? && forall j: nat :: j < i ==> lock(j).WouldBlock?
  }

  /** The loop ends with the lock exactly when one of its 64 tries wins it. */
  lemma {:induction false} SpinWins(lock: nat -> TryLock, i: nat)
    requires i <= 64 && forall j: nat :: j < i ==> lock(j).WouldBlock?
    ensures Spin(lock, i) == Acquired <==> exists k: nat :: i <= k < 64 && WonAt(lock, k)
    decreases 64 - i
  {
    if i < 64 {
      if lock(i).WouldBlock? {
        SpinWins(lock, i + 1);
      } else if lock(i).Acquired? {
        assert WonAt(lock, i);
      }
    }
  }

  class EventQueue {
    const capacity: nat
    var events: seq<Queued>
    var depth: int // the ASYNC_QUEUE_DEPTH gauge

    ghost predicate Valid()
      reads this
    {
      |events| <= capacity && Increasing(events) && depth == |events|
    }

    constructor (capacity: nat)
      ensures Valid() && this.capacity == capacity && events == []
    {
      this.capacity := capacity;
      events := [];
      depth := 0;
    }

    /** `try_push`: accepted exactly when the mutex is won within the spin budget and there is room. */
    method TryPush(id: nat, event: PendingEvent, lock: nat -> TryLock) returns (accepted: Option<nat>)
      requires Valid() && AllBelow(events, id)
      modifies this
      ensures Valid()
      ensures accepted.Some? <==> (exists k: nat :: 0 <= k < 64 && WonAt(lock, k)) && |old(events)| < capacity
      ensures accepted.Some? ==> events == old(events) + [Queued(id, event)] && accepted.value == |events|
      ensures accepted.None? ==> events == old(events)
    {
      SpinWins(lock, 0);
      var i := 0;
      while i < QUEUE_LOCK_SPINS
        invariant 0 <= i <= QUEUE_LOCK_SPINS
        invariant Spin(lock, 0) == Spin(lock, i)
        invariant events == old(events) && depth == old(depth)
      {
        match lock(i) {
          case Acquired =>
            if |events| >= capacity {
              return None;
            }
            events := events + [Queued(id, event)];
            depth := depth + 1;
            return Some(|events|);
          case Poisoned =>
            return None;
          case WouldBlock =>
        }
        i := i + 1;
      }
      return None;
    }

    /** `drain`: remove and return at most `limit` events from the front. */
    method Drain(limit: nat) returns (drained: seq<PendingEvent>)
      requires Valid()
      modifies this
      ensures Valid()
      ensures var n := Min(|old(events)|, limit);
              drained == Payload(old(events)[..n]) && events == old(events)[n..]
    {
      var n := Min(|events|, limit);
      drained := Payload(events[..n]);
      events := events[n..];
      depth := depth - n;
    }

    /** `drain_before`: remove exactly the events that were accepted before `id`. */
    method DrainBefore(id: nat) returns (drained: seq<PendingEvent>)
      requires Valid()
      modifies this
      ensures Valid()
      ensures var n := Earlier(old(events), id);
              drained == Payload(old(events)[..n]) && events == old(events)[n..]
      ensures forall i :: 0 <= i < |events| ==> events[i].id >= id
    {
      var n := 0;
      while n < |events| && events[n].id < id
        invariant 0 <= n <= |events| && AllBelow(events[..n], id)
      {
        n := n + 1;
      }
      EarlierUnique(events, id, n);
      drained := Payload(events[..n]);
      events := events[n..];
      depth := depth - n;
    }

    /** `prepare_envelopes`: encode the current prefix, leaving it in the queue. */
    method PrepareEnvelopes(limit: nat) returns (snapshot: Option<Snapshot>)
      requires Valid()
      ensures var n := Min(|events|, limit);
              snapshot == if n == 0 then None else Some(SnapshotOf(events[..n]))
    {
      var count := Min(|events|, limit);
      if count == 0 {
        return None;
      }
      var firstId := events[0].id;
      var lastId := events[count - 1].id;
      ghost var prefix := events[..count];
      assert prefix[0] == events[0] && prefix[|prefix| - 1] == events[count - 1];
      var selected := Payload(events[..count]);
      var groups := GroupRuns(selected);
      snapshot := Some(Snapshot(firstId, lastId, count, selected, groups));
    }

    /** The grouping loops of `prepare_envelopes`. */
    static method GroupRuns(selected: seq<PendingEvent>) returns (groups: seq<PreparedGroup>)
      ensures groups == Prepared(Groups(selected))
    {
      groups := [];
      var start := 0;
      assert selected[0..] == selected;
      while start < |selected|
        invariant 0 <= start <= |selected|
        invariant groups + Prepared(Groups(selected[start..])) == Prepared(Groups(selected))
        decreases |selected| - start
      {
        var end := RunEnd(selected, start);
        PreparedStep(selected, start, end, groups);
        var group := EncodeGroup(selected[start..end]);
        groups := groups + [group];
        start := end;
      }
      assert groups + [] == groups;
    }

    static method EncodeGroup(run: seq<PendingEvent>) returns (group: PreparedGroup)
      ensures group == PrepareGroup(run)
    {
      var fields := EncodeBatchFields(run);
      group := PreparedGroup(|run|, fields);
    }

    static method RunEnd(selected: seq<PendingEvent>, start: nat) returns (end: nat)
      requires start < |selected|
      ensures start < end <= |selected|
      ensures end - start == RunLength(selected[start..], 1)
    {
      end := start + 1;
      ghost var rest := selected[start..];
      while end < |selected| && Compatible(selected[start], selected[end])
        invariant start < end <= |selected|
        invariant forall i :: 0 <= i < end - start ==> Compatible(rest[0], rest[i])
        invariant RunLength(rest, 1) == RunLength(rest, end - start)
      {
        assert rest[end - start] == selected[end];
        end := end + 1;
      }
      if end < |selected| {
        assert rest[end - start] == selected[end];
      }
    }

    /** The worker's walk over the prepared groups: cutting the snapshot by their lengths finds the groups again. */
    static method SliceGroups(events: seq<PendingEvent>, groups: seq<PreparedGroup>, ghost gs: seq<seq<PendingEvent>>)
      returns (slices: seq<seq<PendingEvent>>)
      requires Flatten(gs) == events && Sized(groups, gs)
      ensures slices == gs
    {
      slices := [];
      var start, i := 0, 0;
      assert events[0..] == events && gs[0..] == gs;
      while i < |groups|
        invariant 0 <= start <= |events| && 0 <= i <= |groups|
        invariant Flatten(gs[i..]) == events[start..]
        invariant slices == gs[..i]
      {
        SliceStep(events, gs, i, start);
        var end := start + groups[i].len;
        slices := slices + [events[start..end]];
        start := end;
        i := i + 1;
      }
    }

    /**
     `drain_snapshot`: drop the snapshot's prefix if its first and last ids are still in place. For a snapshot taken
     from `prefix` that may have gone stale since, that is exactly while the whole prefix is still at the front.
     */
    method DrainSnapshot(s: Snapshot, ghost prefix: seq<Queued>) returns (drained: bool)
      requires Valid()
      modifies this
      ensures Valid()
      ensures drained <==> InPlace(old(events), s.firstId, s.lastId, s.count)
      ensures events == if drained then old(events)[s.count..] else old(events)
      ensures Describes(s, prefix) && SnapshotOk(prefix, old(events)) ==>
                (drained <==> prefix <= old(events)) && old(events) == (if drained then prefix else []) + events
    {
      var last := if s.count == 0 then 0 else s.count - 1;
      drained := |events| > 0 && events[0].id == s.firstId && last < |events| && events[last].id == s.lastId;
      if Describes(s, prefix) && SnapshotOk(prefix, events) {
        MatchIsExact(prefix, events);
      }
      if drained {
        events := events[s.count..];
        depth := depth - s.count;
      }
    }
  }
}
