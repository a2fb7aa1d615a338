/**
 Gap markers (src/markers.rs, src/config.rs, src/capture.rs, src/lib.rs): how load, unload, toggles,
 flushes and swaps reach the control stream, and where they land relative to the captured events.
 */
module Markers {
  import opened Text

  datatype Action = Loaded | Enabled | Disabled | Unloading | Flushed(db: int) | Swapped | Checkpoint

  /**
   A post-notification job: the drained markers of one callback, or one captured event behind the worker's backlog at
   the time, which the fallback drains first and nobody else can take before it runs.
   */
  datatype Job = MarkerJob(actions: seq<Action>) | EventJob(event: nat, ahead: seq<nat>)

  /** A write attempt, on the control stream or on an event stream. */
  datatype Item = Mark(action: Action) | Data(event: nat)

  datatype State = State(
    loaded: bool, enabled: bool, lastEnabled: bool,
    pending: seq<Action>, dirty: bool, jobs: seq<Job>, backlog: seq<nat>, out: seq<Item>,
    refused: nat)

  function Marks(actions: seq<Action>): (items: seq<Item>)
    ensures |items| == |actions|
  {
    seq(|actions|, i requires 0 <= i < |actions| => Mark(actions[i]))
  }

  function Datas(events: seq<nat>): (items: seq<Item>)
    ensures |items| == |events|
  {
    seq(|events|, i requires 0 <= i < |events| => Data(events[i]))
  }

  function Items(job: Job): seq<Item> {
    match job
    case MarkerJob(actions) => Marks(actions)
    case EventJob(event, ahead) => Datas(ahead + [event])
  }

  function Queued(jobs: seq<Job>): seq<Item> {
    if jobs == [] then [] else Items(jobs[0]) + Queued(jobs[1..])
  }

  // ---------------------------------------------------------------------------------------------
  // What each entry point does
  // ---------------------------------------------------------------------------------------------

  function Record(s: State, action: Action): State {
    s.(pending := s.pending + [action], dirty := true)
  }

  /** `drain_pending_markers`; `capturing` is the MASTER-and-not-LOADING gate. */
  function Drain(s: State, capturing: bool, registered: bool): State {
    if !capturing then s
    else if s.pending == [] then s.(dirty := false)
    else if registered then s.(pending := [], dirty := false, jobs := s.jobs + [MarkerJob(s.pending)])
    else s.(pending := [], dirty := false, refused := s.refused + |s.pending|)
  }

  function Flush(s: State, capturing: bool, registered: bool): State {
    if s.dirty then Drain(s, capturing, registered) else s
  }

  /** Where a captured event goes: a job, the worker's backlog, or nowhere when registration fails. */
  datatype Route = Job | Backlog | Lost

  /** `on_keyspace_event`; `selected` stands for the prefix guard, the filters and the name check. */
  function Notify(s: State, capturing: bool, selected: bool, event: nat, registered: bool, route: Route): State {
    var d := Flush(s, capturing, registered);
    if !d.enabled || !capturing || !selected then d
    else
      match route
      case Job => d.(jobs := d.jobs + [EventJob(event, d.backlog)], backlog := [])
      case Backlog => d.(backlog := d.backlog + [event])
      case Lost => d
  }

  function RunJob(s: State): State
    requires s.jobs != []
  {
    s.(jobs := s.jobs[1..], out := s.out + Items(s.jobs[0]))
  }

  function WorkerWrites(s: State): State
    requires s.backlog != []
  {
    s.(backlog := s.backlog[1..], out := s.out + [Data(s.backlog[0])])
  }

  /** `enabled_changed` after the flag was stored. */
  function SetEnabled(s: State, now: bool): State {
    var t := s.(enabled := now, lastEnabled := now);
    if s.lastEnabled == now then t else Record(t, if now then Enabled else Disabled)
  }

  function FlushStarted(s: State, capturing: bool, db: int): State {
    if capturing then Record(s, Flushed(db)) else s
  }

  function SwapDb(s: State, capturing: bool, first: int, second: int): State {
    if (first != 0 && second != 0) || !capturing then s else Record(s, Swapped)
  }

  function Tick(s: State, capturing: bool): State {
    if !capturing then s
    else s.(pending := [], dirty := false, out := s.out + Marks(s.pending + [Checkpoint]))
  }

  /** The markers a fresh load leaves pending; anything recorded while the configuration loaded is superseded. */
  function LoadMarkers(enabled: bool): seq<Action> {
    if enabled then [Loaded] else [Loaded, Disabled]
  }

  function Load(s: State, enabled: bool): State {
    s.(loaded := true, enabled := enabled, lastEnabled := enabled, pending := LoadMarkers(enabled), dirty := true)
  }

  function Deinit(s: State, capturing: bool): State {
    if !capturing then s.(loaded := false)
    else s.(loaded := false, pending := [], dirty := false, out := s.out + Marks(s.pending + [Unloading]))
  }

  // ---------------------------------------------------------------------------------------------
  // The line of items: written, queued, pending
  // ---------------------------------------------------------------------------------------------

  /** Everything written or on its way, in the order it will be written. */
  function Committed(s: State): seq<Item> {
    s.out + Queued(s.jobs)
  }

  /** Everything recorded and neither dropped nor superseded: written, on its way, or still pending. */
  function Line(s: State): seq<Item> {
    Committed(s) + Marks(s.pending)
  }

  /** The dirty flag tells the callback when there is something to drain. */
  predicate Tidy(s: State) {
    s.dirty <==> s.pending != []
  }

  lemma {:induction false} QueuedJoin(a: seq<Job>, b: seq<Job>)
    ensures Queued(a + b) == Queued(a) + Queued(b)
  {
    if a == [] {
      assert a + b == b;
    } else {
      assert (a + b)[1..] == a[1..] + b;
      QueuedJoin(a[1..], b);
    }
  }

  lemma QueuedOne(jobs: seq<Job>, job: Job)
    ensures Queued(jobs + [job]) == Queued(jobs) + Items(job)
  {
    QueuedJoin(jobs, [job]);
    assert [job][1..] == [];
  }

  lemma RecordLine(s: State, action: Action)
    ensures Line(Record(s, action)) == Line(s) + [Mark(action)] && Committed(Record(s, action)) == Committed(s)
  {
    assert Marks(s.pending + [action]) == Marks(s.pending) + [Mark(action)];
  }

  lemma MarksEnd(actions: seq<Action>, action: Action)
    ensures Marks(actions + [action]) == Marks(actions) + [Mark(action)]
  {
  }

  lemma RunJobLine(s: State)
    requires s.jobs != []
    ensures Committed(RunJob(s)) == Committed(s)
  {
    Assoc(s.out, Items(s.jobs[0]), Queued(s.jobs[1..]));
  }

  lemma NoMarks()
    ensures Marks([]) == []
  {
  }

  /** A registered drain moves the pending markers behind what is committed; a refused one drops them. */
  lemma DrainLine(s: State, capturing: bool, registered: bool)
    ensures var d := Drain(s, capturing, registered);
            && Committed(d) == (if capturing && registered then Line(s) else Committed(s))
            && Line(d) == (if capturing && !registered then Committed(s) else Line(s))
            && (capturing ==> d.pending == [])
  {
    QueuedOne(s.jobs, MarkerJob(s.pending));
    NoMarks();
    Assoc(s.out, Queued(s.jobs), Marks(s.pending));
  }

  lemma Assoc(a: seq<Item>, b: seq<Item>, c: seq<Item>)
    ensures a + b + c == a + (b + c) && a <= a + b + c && a + [] == a
  {
  }

  lemma CaptureLine(s: State, event: nat)
    ensures Committed(s.(jobs := s.jobs + [EventJob(event, s.backlog)], backlog := []))
         == Committed(s) + Datas(s.backlog + [event])
  {
    QueuedOne(s.jobs, EventJob(event, s.backlog));
    Assoc(s.out, Queued(s.jobs), Datas(s.backlog + [event]));
  }

  /** What a callback commits as a job, if its event gets that far: the backlog, then the event. */
  function Captured(s: State, capturing: bool, selected: bool, event: nat, route: Route): seq<Item> {
    if s.enabled && capturing && selected && route.Job? then Datas(s.backlog + [event]) else []
  }

  /** A callback commits first the pending markers, if it may, and then its event. */
  lemma NotifyLine(s: State, capturing: bool, selected: bool, event: nat, registered: bool, route: Route)
    requires Tidy(s)
    ensures var after, data := Notify(s, capturing, selected, event, registered, route),
                               Captured(s, capturing, selected, event, route);
            && Tidy(after) && (capturing ==> after.pending == [])
            && Committed(after) == (if capturing && registered then Line(s) else Committed(s)) + data
            && (!capturing ==> Line(after) == Line(s))
  {
    NoMarks();
    Assoc(s.out, Queued(s.jobs), Marks(s.pending));
    DrainLine(s, capturing, registered);
    CaptureLine(Flush(s, capturing, registered), event);
    Assoc(Line(s), [], []);
    Assoc(Committed(s), [], []);
  }

  // ---------------------------------------------------------------------------------------------
  // The module's state as it is updated
  // ---------------------------------------------------------------------------------------------

  class Lifecycle {
    var loaded: bool
    var enabled: bool
    var lastEnabled: bool
    var pending: seq<Action>
    var dirty: bool
    var jobs: seq<Job>
    var backlog: seq<nat>
    var out: seq<Item>
    var refused: nat

    function Now(): State
      reads this
    {
      State(loaded, enabled, lastEnabled, pending, dirty, jobs, backlog, out, refused)
    }

    /** `record_pending_marker`: the marker joins the end of the line; nothing is committed yet. */
    method RecordPending(action: Action)
      modifies this
      ensures Now() == Record(old(Now()), action) && Tidy(Now())
      ensures Line(Now()) == Line(old(Now())) + [Mark(action)] && Committed(Now()) == Committed(old(Now()))
    {
      RecordLine(Now(), action);
      pending := pending + [action];
      dirty := true;
    }

    /** `enabled_changed`: the line gains the marker of the change, exactly when there is one. */
    method EnabledChanged(now: bool)
      modifies this
      ensures Now() == SetEnabled(old(Now()), now) && (Tidy(old(Now())) ==> Tidy(Now()))
      ensures Committed(Now()) == Committed(old(Now()))
      ensures Line(Now())
           == Line(old(Now())) + if old(lastEnabled) == now then [] else [Mark(if now then Enabled else Disabled)]
    {
      Assoc(Line(Now()), [], []);
      enabled := now;
      var before := lastEnabled;
      lastEnabled := now;
      if before != now {
        RecordPending(if now then Enabled else Disabled);
      }
    }

    /**
     `drain_pending_markers`: nothing off the capturing master; otherwise nothing stays pending, and the markers are
     committed behind everything already on its way, or dropped and counted.
     */
    method DrainPending(capturing: bool, registered: bool)
      modifies this
      ensures Now() == Drain(old(Now()), capturing, registered)
      ensures !capturing ==> Now() == old(Now())
      ensures capturing ==> pending == [] && Tidy(Now())
      ensures capturing ==> Committed(Now()) == if registered then Line(old(Now())) else Committed(old(Now()))
      ensures refused == old(refused) + if capturing && !registered then |old(pending)| else 0
    {
      DrainLine(Now(), capturing, registered);
      if !capturing {
        return;
      }
      var drained := pending;
      pending := [];
      dirty := false;
      if drained == [] {
        return;
      }
      if registered {
        jobs := jobs + [MarkerJob(drained)];
      } else {
        refused := refused + 1;
        if |drained| > 1 {
          refused := refused + (|drained| - 1);
        }
      }
    }

    /**
     `on_keyspace_event`: whatever the gates decide, the pending markers go first, and the event follows them only
     when capture is on, the node captures, and the event is selected.
     */
    method OnKeyspaceEvent(capturing: bool, selected: bool, event: nat, registered: bool, route: Route)
      requires Tidy(Now())
      modifies this
      ensures Now() == Notify(old(Now()), capturing, selected, event, registered, route) && Tidy(Now())
      ensures Committed(Now()) == (if capturing && registered then Line(old(Now())) else Committed(old(Now())))
                                  + Captured(old(Now()), capturing, selected, event, route)
      ensures !capturing ==> Line(Now()) == Line(old(Now()))
      ensures backlog == if !(old(enabled) && capturing && selected) || route.Lost? then old(backlog)
                         else if route.Job? then [] else old(backlog) + [event]
    {
      NotifyLine(Now(), capturing, selected, event, registered, route);
      if dirty {
        DrainPending(capturing, registered);
      }
      if !enabled {
        return;
      }
      if !capturing || !selected {
        return;
      }
      match route {
        case Job => jobs, backlog := jobs + [EventJob(event, backlog)], [];
        case Backlog => backlog := backlog + [event];
        case Lost =>
      }
    }

    /** The write loop shared by the marker job, the checkpoint and the unload. */
    method WriteMarkers(actions: seq<Action>)
      modifies this`out
      ensures out == old(out) + Marks(actions)
    {
      var i := 0;
      while i < |actions|
        invariant 0 <= i <= |actions|
        invariant out == old(out) + Marks(actions)[..i]
      {
        out := out + [Mark(actions[i])];
        i := i + 1;
      }
      assert Marks(actions)[..i] == Marks(actions);
    }

    /** The job loops: every item of the job is attempted, in order, and nothing else moves. */
    method RunNextJob()
      requires jobs != []
      modifies this
      ensures Now() == RunJob(old(Now())) && Committed(Now()) == Committed(old(Now()))
    {
      RunJobLine(Now());
      var job := jobs[0];
      jobs := jobs[1..];
      match job {
        case MarkerJob(actions) => WriteMarkers(actions);
        case EventJob(event, ahead) => WriteEvents(ahead + [event]);
      }
    }

    method WriteEvents(events: seq<nat>)
      modifies this`out
      ensures out == old(out) + Datas(events)
    {
      var i := 0;
      while i < |events|
        invariant 0 <= i <= |events|
        invariant out == old(out) + Datas(events)[..i]
      {
        out := out + [Data(events[i])];
        i := i + 1;
      }
      assert Datas(events)[..i] == Datas(events);
    }

    /** `checkpoint_tick`: pending markers first, then the checkpoint. */
    method CheckpointTick(capturing: bool)
      modifies this
      ensures Now() == Tick(old(Now()), capturing)
      ensures jobs == [] && capturing ==> out == Line(old(Now())) + [Mark(Checkpoint)] && pending == []
    {
      if !capturing {
        return;
      }
      MarksEnd(pending, Checkpoint);
      var drained := pending;
      pending := [];
      dirty := false;
      WriteMarkers(drained);
      out := out + [Mark(Checkpoint)];
    }

    /** `on_flush_started`, the marker half: only the capturing master records one. */
    method OnFlushStarted(capturing: bool, db: int)
      modifies this
      ensures Now() == FlushStarted(old(Now()), capturing, db) && Committed(Now()) == Committed(old(Now()))
      ensures Line(Now()) == Line(old(Now())) + if capturing then [Mark(Flushed(db))] else []
    {
      Assoc(Line(Now()), [], []);
      if capturing {
        RecordPending(Flushed(db));
      }
    }

    /** `on_swapdb`, the marker half: only the capturing master, and only for database 0. */
    method OnSwapDb(capturing: bool, first: int, second: int)
      modifies this
      ensures Now() == SwapDb(old(Now()), capturing, first, second) && Committed(Now()) == Committed(old(Now()))
      ensures Line(Now())
           == Line(old(Now())) + if capturing && (first == 0 || second == 0) then [Mark(Swapped)] else []
    {
      Assoc(Line(Now()), [], []);
      if first != 0 && second != 0 {
        return;
      }
      if !capturing {
        return;
      }
      RecordPending(Swapped);
    }

    method OnLoad(enabledArg: bool)
      modifies this
      ensures Now() == Load(old(Now()), enabledArg)
      ensures loaded && enabled == enabledArg && pending == [Loaded] + (if enabledArg then [] else [Disabled])
      ensures Committed(Now()) == Committed(old(Now())) && Tidy(Now())
    {
      lastEnabled := enabled;
      EnabledChanged(enabledArg);
      pending := [];
      pending := pending + [Loaded];
      if !enabled {
        pending := pending + [Disabled];
      }
      dirty := true;
      loaded := true;
    }

    /** `deinit`: pending markers first, then `unloading`. */
    method OnUnload(capturing: bool)
      modifies this
      ensures Now() == Deinit(old(Now()), capturing)
      ensures jobs == [] && capturing ==> out == Line(old(Now())) + [Mark(Unloading)] && pending == []
    {
      MarksEnd(pending, Unloading);
      if capturing {
        var drained := pending;
        pending := [];
        dirty := false;
        WriteMarkers(drained);
        out := out + [Mark(Unloading)];
      }
      loaded := false;
    }
  }

  // ---------------------------------------------------------------------------------------------
  // Runs
  // ---------------------------------------------------------------------------------------------

  datatype Step =
    | DoLoad(enabledArg: bool)
    | DoSet(now: bool)
    | DoNotify(capturing: bool, selected: bool, event: nat, registered: bool, route: Route)
    | DoRunJob
    | DoWorker
    | DoFlush(capturing: bool, db: int)
    | DoSwap(capturing: bool, first: int, second: int)
    | DoTick(capturing: bool)
    | DoUnload(capturing: bool)

  const INIT: State := State(false, true, true, [], false, [], [], [], 0)

  /** Callbacks need a loaded module; every job has run before a cron tick, a load, an unload or the worker's turn. */
  predicate CanStep(s: State, step: Step) {
    match step
    case DoLoad(_) => !s.loaded && s.jobs == [] && s.backlog == []
    case DoRunJob => s.jobs != []
    case DoWorker => s.loaded && s.jobs == [] && s.backlog != []
    case DoTick(_) => s.loaded && s.jobs == []
    case DoUnload(_) => s.loaded && s.jobs == [] && s.backlog == []
    case _ => s.loaded
  }

  function Apply(s: State, step: Step): State
    requires CanStep(s, step)
  {
    match step
    case DoLoad(enabledArg) => Load(s, enabledArg)
    case DoSet(now) => SetEnabled(s, now)
    case DoNotify(capturing, selected, event, registered, route) =>
      Notify(s, capturing, selected, event, registered, route)
    case DoRunJob => RunJob(s)
    case DoWorker => WorkerWrites(s)
    case DoFlush(capturing, db) => FlushStarted(s, capturing, db)
    case DoSwap(capturing, first, second) => SwapDb(s, capturing, first, second)
    case DoTick(capturing) => Tick(s, capturing)
    case DoUnload(capturing) => Deinit(s, capturing)
  }

  /** What happened, in the order it happened: recordings and captures, not writes. */
  function Happens(s: State, step: Step): seq<Item> {
    match step
    case DoLoad(enabledArg) => Marks(LoadMarkers(enabledArg))
    case DoSet(now) => if s.lastEnabled == now then [] else [Mark(if now then Enabled else Disabled)]
    case DoNotify(capturing, selected, event, _, route) => Captured(s, capturing, selected, event, route)
    case DoFlush(capturing, db) => if capturing then [Mark(Flushed(db))] else []
    case DoSwap(capturing, first, second) =>
      if (first != 0 && second != 0) || !capturing then [] else [Mark(Swapped)]
    case DoTick(capturing) => if capturing then [Mark(Checkpoint)] else []
    case DoUnload(capturing) => if capturing then [Mark(Unloading)] else []
    case _ => []
  }

  // ---------------------------------------------------------------------------------------------
  // What is stored
  // ---------------------------------------------------------------------------------------------

  /** Whether the server accepts the n-th write attempt; a refused one leaves nothing behind. */
  type Answers = nat -> bool

  /** Those of `items` that are stored when they are attempted from the `base`-th attempt on. */
  function StoredFrom(items: seq<Item>, base: nat, lands: Answers): seq<Item> {
    if |items| == 0 then []
    else
      var n := |items| - 1;
      StoredFrom(items[..n], base, lands) + if lands(base + n) then [items[n]] else []
  }

  /** The log a reader finds. */
  function Stored(attempts: seq<Item>, lands: Answers): seq<Item> {
    StoredFrom(attempts, 0, lands)
  }

  /** The markers of a batch that are stored. */
  function Stays(actions: seq<Action>, base: nat, lands: Answers): seq<Action> {
    if |actions| == 0 then []
    else
      var n := |actions| - 1;
      Stays(actions[..n], base, lands) + if lands(base + n) then [actions[n]] else []
  }

  lemma {:induction false} StoredJoin(l: seq<Item>, m: seq<Item>, base: nat, lands: Answers)
    ensures StoredFrom(l + m, base, lands) == StoredFrom(l, base, lands) + StoredFrom(m, base + |l|, lands)
    decreases |m|
  {
    if |m| == 0 {
      assert l + m == l;
    } else {
      var n := |m| - 1;
      StoredJoin(l, m[..n], base, lands);
      assert (l + m)[..|l| + n] == l + m[..n];
    }
  }

  lemma StoredTail(l: seq<Item>, m: seq<Item>, lands: Answers)
    ensures Stored(l + m, lands) == Stored(l, lands) + StoredFrom(m, |l|, lands)
  {
    StoredJoin(l, m, 0, lands);
  }

  lemma {:induction false} StoredMarks(actions: seq<Action>, base: nat, lands: Answers)
    ensures StoredFrom(Marks(actions), base, lands) == Marks(Stays(actions, base, lands))
    decreases |actions|
  {
    if |actions| > 0 {
      var n := |actions| - 1;
      StoredMarks(actions[..n], base, lands);
      assert Marks(actions)[..n] == Marks(actions[..n]);
      MarksEnd(Stays(actions[..n], base, lands), actions[n]);
      Assoc(Marks(Stays(actions[..n], base, lands)), [], []);
    }
  }

  predicate AllData(items: seq<Item>) {
    forall i :: 0 <= i < |items| ==> items[i].Data?
  }

  lemma {:induction false} StoredDatas(items: seq<Item>, base: nat, lands: Answers)
    requires AllData(items)
    ensures AllData(StoredFrom(items, base, lands))
    ensures |items| > 0 && lands(base + |items| - 1) ==> StoredFrom(items, base, lands) != []
    decreases |items|
  {
    if |items| > 0 {
      var n := |items| - 1;
      var shorter := StoredFrom(items[..n], base, lands);
      StoredDatas(items[..n], base, lands);
      assert AllData(shorter) && AllData(shorter + [items[n]]);
      Assoc(shorter, [], []);
    }
  }

  // ---------------------------------------------------------------------------------------------
  // Gaps
  // ---------------------------------------------------------------------------------------------

  /** What a marker says about capture. */
  function Toggle(action: Action): Option<bool> {
    match action
    case Loaded => Some(true)
    case Enabled => Some(true)
    case Disabled => Some(false)
    case Unloading => Some(false)
    case _ => None
  }

  /** Whether a reader of `l` believes capture is on. */
  predicate IsOpen(l: seq<Item>) {
    if |l| == 0 then false
    else
      var last := l[|l| - 1];
      if last.Mark? && Toggle(last.action).Some? then Toggle(last.action).value else IsOpen(l[..|l| - 1])
  }

  /** No captured event inside an announced gap. */
  predicate GapFree(l: seq<Item>) {
    forall i :: 0 <= i < |l| && l[i].Data? ==> IsOpen(l[..i])
  }

  lemma OpenGrows(l: seq<Item>, x: Item)
    ensures IsOpen(l + [x]) <==> (if x.Mark? && Toggle(x.action).Some? then Toggle(x.action).value else IsOpen(l))
  {
    assert (l + [x])[..|l|] == l;
  }

  lemma GapFreeGrows(l: seq<Item>, x: Item)
    ensures GapFree(l + [x]) <==> GapFree(l) && (x.Data? ==> IsOpen(l))
  {
    forall i | 0 <= i <= |l|
      ensures (l + [x])[..i] == l[..i]
    {
    }
    assert l[..|l|] == l;
    assert GapFree(l + [x]) ==> forall i :: 0 <= i < |l| && l[i].Data? ==> IsOpen((l + [x])[..i]);
    assert (l + [x])[|l|] == x;
  }

  function LastToggle(actions: seq<Action>): Option<bool> {
    if |actions| == 0 then None
    else
      var last := Toggle(actions[|actions| - 1]);
      if last.Some? then last else LastToggle(actions[..|actions| - 1])
  }

  function FirstToggle(actions: seq<Action>): Option<bool> {
    if |actions| == 0 then None
    else
      var first := FirstToggle(actions[..|actions| - 1]);
      if first.Some? then first else Toggle(actions[|actions| - 1])
  }

  function After(open: bool, actions: seq<Action>): bool {
    if LastToggle(actions).Some? then LastToggle(actions).value else open
  }

  /** Capture was on before the pending markers: the first pending toggle turned it off, or none is and it is on. */
  predicate OpenBehind(pending: seq<Action>, enabled: bool) {
    if FirstToggle(pending).Some? then !FirstToggle(pending).value else enabled
  }

  lemma {:induction false} MarksOpen(l: seq<Item>, actions: seq<Action>)
    ensures IsOpen(l + Marks(actions)) <==> After(IsOpen(l), actions)
    ensures GapFree(l + Marks(actions)) <==> GapFree(l)
    decreases |actions|
  {
    if |actions| == 0 {
      assert l + Marks(actions) == l;
    } else {
      var n := |actions| - 1;
      var shorter := l + Marks(actions[..n]);
      MarksOpen(l, actions[..n]);
      assert l + Marks(actions) == shorter + [Mark(actions[n])];
      OpenGrows(shorter, Mark(actions[n]));
      GapFreeGrows(shorter, Mark(actions[n]));
    }
  }

  lemma {:induction false} DatasOpen(l: seq<Item>, m: seq<Item>)
    requires AllData(m)
    ensures IsOpen(l + m) <==> IsOpen(l)
    ensures GapFree(l + m) <==> GapFree(l) && (m == [] || IsOpen(l))
    decreases |m|
  {
    if |m| == 0 {
      assert l + m == l;
    } else {
      var n := |m| - 1;
      DatasOpen(l, m[..n]);
      assert l + m == l + m[..n] + [m[n]];
      OpenGrows(l + m[..n], m[n]);
      GapFreeGrows(l + m[..n], m[n]);
    }
  }

  // ---------------------------------------------------------------------------------------------
  // What a reader has been told, tracked from toggles and refusals alone
  // ---------------------------------------------------------------------------------------------

  /**
   A run so far. The timeline starts over at a load; the history never loses anything. `told` is the last toggle that
   was stored. `misled` says that the last batch with a toggle left the reader with the wrong answer. `lostOpening` and
   `lostClosing` say that some marker of that kind was lost, with its job or at its write. `strays` counts the events
   stored while the reader believed capture off.
   */
  datatype Trace = Trace(
    state: State, timeline: seq<Item>, history: seq<Item>,
    told: bool, misled: bool, lostOpening: bool, lostClosing: bool, strays: nat)

  /** The batch a step attempts or gives up, if it reaches the pending markers at all. */
  function Batch(s: State, step: Step): Option<seq<Action>> {
    match step
    case DoNotify(capturing, _, _, _, _) => if s.dirty && capturing then Some(s.pending) else None
    case DoTick(capturing) => if capturing then Some(s.pending + [Checkpoint]) else None
    case DoUnload(capturing) => if capturing then Some(s.pending + [Unloading]) else None
    case _ => None
  }

  /** The step's batch is given up with its job. */
  predicate Dropped(step: Step) {
    step.DoNotify? && !step.registered
  }

  /** The part of the batch that is stored. */
  function Gets(s: State, step: Step, batch: seq<Action>, lands: Answers): seq<Action> {
    if Dropped(step) then [] else Stays(batch, |Committed(s)|, lands)
  }

  /** The batch loses a toggle of the given kind. */
  predicate Loses(s: State, step: Step, batch: seq<Action>, lands: Answers, open: bool) {
    exists i :: 0 <= i < |batch| && Toggle(batch[i]) == Some(open) && (Dropped(step) || !lands(|Committed(s)| + i))
  }

  function ToldAfter(t: Trace, step: Step, lands: Answers): bool {
    var batch := Batch(t.state, step);
    if batch.None? then t.told else After(t.told, Gets(t.state, step, batch.value, lands))
  }

  function MisledAfter(t: Trace, step: Step, lands: Answers): bool {
    var batch := Batch(t.state, step);
    if step.DoLoad? || step.DoUnload? then false
    else if batch.None? || LastToggle(batch.value).None? then t.misled
    else ToldAfter(t, step, lands) != t.state.enabled
  }

  predicate LostAfter(t: Trace, step: Step, lands: Answers, open: bool) {
    || (if open then t.lostOpening else t.lostClosing)
    || (Batch(t.state, step).Some? && Loses(t.state, step, Batch(t.state, step).value, lands, open))
  }

  /** Where a callback's events start in the order of attempts. */
  function EventBase(s: State, step: Step): nat {
    |Committed(s)| + if Batch(s, step).Some? && !Dropped(step) then |Batch(s, step).value| else 0
  }

  /** The events a step commits into a gap: all of a callback's while misled, the worker's while the log is closed. */
  function Strays(t: Trace, step: Step, lands: Answers): nat {
    match step
    case DoNotify(capturing, selected, event, _, route) =>
      if MisledAfter(t, step, lands) then
        |StoredFrom(Captured(t.state, capturing, selected, event, route), EventBase(t.state, step), lands)|
      else 0
    case DoWorker =>
      if lands(|t.state.out|) && (OpenBehind(t.state.pending, t.state.enabled) == t.misled) then 1 else 0
    case _ => 0
  }

  function Advance(t: Trace, step: Step, lands: Answers): Trace
    requires CanStep(t.state, step)
  {
    var h := Happens(t.state, step);
    Trace(Apply(t.state, step), (if step.DoLoad? then t.state.out else t.timeline) + h, t.history + h,
          ToldAfter(t, step, lands), MisledAfter(t, step, lands),
          LostAfter(t, step, lands, true), LostAfter(t, step, lands, false),
          t.strays + Strays(t, step, lands))
  }

  function Start(): Trace {
    Trace(INIT, [], [], false, false, false, false, 0)
  }

  function Run(steps: seq<Step>, lands: Answers): Option<Trace> {
    if |steps| == 0 then Some(Start())
    else
      var before := Run(steps[..|steps| - 1], lands);
      var step := steps[|steps| - 1];
      if before.Some? && CanStep(before.value.state, step) then Some(Advance(before.value, step, lands)) else None
  }

  /** The synchronous write mode never uses the worker's backlog. */
  predicate Synchronous(steps: seq<Step>) {
    forall i :: 0 <= i < |steps| && steps[i].DoNotify? ==> !steps[i].route.Backlog?
  }

  // ---------------------------------------------------------------------------------------------
  // The invariant of every run
  // ---------------------------------------------------------------------------------------------

  /** What the reader has been told is what the stored log says, and the strays are exactly its gap violations. */
  predicate Tracked(t: Trace, lands: Answers) {
    var l := Stored(Committed(t.state), lands);
    (IsOpen(l) <==> t.told) && (GapFree(l) <==> t.strays == 0)
  }

  /** The pending toggles lead from what was the case at the last batch to what is, and losses alone mislead. */
  predicate Coherent(t: Trace) {
    var s := t.state;
    && Tidy(s) && s.lastEnabled == s.enabled
    && (s.loaded && LastToggle(s.pending).Some? ==> LastToggle(s.pending).value == s.enabled)
    && (s.loaded && Loaded !in s.pending ==> (t.told <==> OpenBehind(s.pending, s.enabled) != t.misled))
    && (t.misled ==> if t.told then t.lostClosing else t.lostOpening)
    && (s.backlog != [] ==> s.loaded && Loaded !in s.pending)
  }

  lemma TogglesGrow(actions: seq<Action>, action: Action)
    ensures LastToggle(actions + [action]) == if Toggle(action).Some? then Toggle(action) else LastToggle(actions)
    ensures FirstToggle(actions + [action])
         == if FirstToggle(actions).Some? then FirstToggle(actions) else Toggle(action)
  {
    assert (actions + [action])[..|actions|] == actions;
  }

  /** There is a first toggle exactly when there is a last one, and `loaded` is one. */
  lemma {:induction false} TogglesAgree(actions: seq<Action>)
    ensures FirstToggle(actions).Some? <==> LastToggle(actions).Some?
    ensures Loaded in actions ==> LastToggle(actions).Some?
    decreases |actions|
  {
    if |actions| > 0 {
      TogglesAgree(actions[..|actions| - 1]);
    }
  }

  /** A batch stores no toggle it does not have, and stores its last one unless it is lost. */
  lemma {:induction false} StaysToggle(actions: seq<Action>, base: nat, lands: Answers)
    ensures LastToggle(actions).None? ==> LastToggle(Stays(actions, base, lands)).None?
    ensures LastToggle(actions).Some? && LastToggle(Stays(actions, base, lands)) != LastToggle(actions) ==>
              exists i :: 0 <= i < |actions| && Toggle(actions[i]) == LastToggle(actions) && !lands(base + i)
    decreases |actions|
  {
    if |actions| > 0 {
      var n := |actions| - 1;
      var shorter := Stays(actions[..n], base, lands);
      StaysToggle(actions[..n], base, lands);
      TogglesGrow(shorter, actions[n]);
      Same(shorter);
      if Toggle(actions[n]).Some? && !lands(base + n) {
        assert Toggle(actions[n]) == LastToggle(actions);
      } else if Toggle(actions[n]).None? && LastToggle(actions).Some? && LastToggle(shorter) != LastToggle(actions) {
        var i :| 0 <= i < n && Toggle(actions[..n][i]) == LastToggle(actions[..n]) && !lands(base + i);
        assert actions[i] == actions[..n][i];
      }
    }
  }

  lemma Same(actions: seq<Action>)
    ensures actions + [] == actions
  {
  }

  /** After a batch: without a toggle nothing changes; with one, a wrong answer means that toggle was lost. */
  lemma BatchTells(t: Trace, step: Step, lands: Answers)
    requires Batch(t.state, step).Some?
    ensures var batch := Batch(t.state, step).value;
            && (LastToggle(batch).None? ==> ToldAfter(t, step, lands) == t.told)
            && (LastToggle(batch).Some? && ToldAfter(t, step, lands) != LastToggle(batch).value ==>
                  LostAfter(t, step, lands, LastToggle(batch).value))
  {
    var batch := Batch(t.state, step).value;
    StaysToggle(batch, |Committed(t.state)|, lands);
    if Dropped(step) && LastToggle(batch).Some? {
      HasLast(batch);
    }
  }

  lemma {:induction false} HasLast(actions: seq<Action>)
    requires LastToggle(actions).Some?
    ensures exists i :: 0 <= i < |actions| && Toggle(actions[i]) == LastToggle(actions)
    decreases |actions|
  {
    var n := |actions| - 1;
    if Toggle(actions[n]).None? {
      HasLast(actions[..n]);
      var i :| 0 <= i < n && Toggle(actions[..n][i]) == LastToggle(actions[..n]);
      assert actions[i] == actions[..n][i];
    }
  }

  lemma CoherentSet(t: Trace, now: bool, lands: Answers)
    requires Coherent(t) && CanStep(t.state, DoSet(now))
    ensures Coherent(Advance(t, DoSet(now), lands))
  {
    TogglesGrow(t.state.pending, if now then Enabled else Disabled);
    TogglesAgree(t.state.pending);
  }

  lemma CoherentRecord(t: Trace, action: Action, t': Trace)
    requires Coherent(t) && Toggle(action).None? && t'.state == Record(t.state, action)
    requires t'.told == t.told && t'.misled == t.misled
    requires t'.lostOpening == t.lostOpening && t'.lostClosing == t.lostClosing
    ensures Coherent(t')
  {
    TogglesGrow(t.state.pending, action);
  }

  lemma CoherentNotify(t: Trace, step: Step, lands: Answers)
    requires Coherent(t) && step.DoNotify? && CanStep(t.state, step)
    ensures Coherent(Advance(t, step, lands))
    ensures step.capturing ==> (ToldAfter(t, step, lands) <==> t.state.enabled != MisledAfter(t, step, lands))
  {
    TogglesAgree(t.state.pending);
    if Batch(t.state, step).Some? {
      BatchTells(t, step, lands);
    }
  }

  lemma CoherentTick(t: Trace, capturing: bool, lands: Answers)
    requires Coherent(t) && CanStep(t.state, DoTick(capturing))
    ensures Coherent(Advance(t, DoTick(capturing), lands))
  {
    TogglesAgree(t.state.pending);
    TogglesGrow(t.state.pending, Checkpoint);
    if capturing {
      BatchTells(t, DoTick(capturing), lands);
    }
  }

  lemma CoherentLoad(t: Trace, enabledArg: bool, lands: Answers)
    requires Coherent(t) && CanStep(t.state, DoLoad(enabledArg))
    ensures Coherent(Advance(t, DoLoad(enabledArg), lands))
  {
    var one: seq<Action> := [Loaded];
    TogglesGrow([], Loaded);
    TogglesGrow(one, Disabled);
    assert [] + [Loaded] == one && one + [Disabled] == [Loaded, Disabled];
    assert one[0] == Loaded && [Loaded, Disabled][0] == Loaded;
  }

  /** A step that neither records, toggles nor reaches the pending markers. */
  lemma CoherentQuiet(t: Trace, t': Trace)
    requires Coherent(t) && t'.told == t.told && t'.misled == t.misled
    requires t'.lostOpening == t.lostOpening && t'.lostClosing == t.lostClosing
    requires t'.state == t.state.(jobs := t'.state.jobs, backlog := t'.state.backlog, out := t'.state.out)
    requires t'.state.backlog != [] ==> t.state.backlog != []
    ensures Coherent(t')
  {
  }

  lemma CoherentUnload(t: Trace, capturing: bool, lands: Answers)
    requires Coherent(t) && CanStep(t.state, DoUnload(capturing))
    ensures Coherent(Advance(t, DoUnload(capturing), lands))
  {
  }

  lemma CoherentStep(t: Trace, step: Step, lands: Answers)
    requires Coherent(t) && CanStep(t.state, step)
    ensures Coherent(Advance(t, step, lands))
  {
    match step {
      case DoLoad(enabledArg) => CoherentLoad(t, enabledArg, lands);
      case DoSet(now) => CoherentSet(t, now, lands);
      case DoNotify(_, _, _, _, _) => CoherentNotify(t, step, lands);
      case DoFlush(capturing, db) => CoherentMarked(t, step, Flushed(db), lands);
      case DoSwap(capturing, first, second) => CoherentMarked(t, step, Swapped, lands);
      case DoTick(capturing) => CoherentTick(t, capturing, lands);
      case DoUnload(capturing) => CoherentUnload(t, capturing, lands);
      case DoRunJob => CoherentQuiet(t, Advance(t, step, lands));
      case DoWorker => CoherentQuiet(t, Advance(t, step, lands));
    }
  }

  lemma CoherentMarked(t: Trace, step: Step, action: Action, lands: Answers)
    requires Coherent(t) && (step.DoFlush? || step.DoSwap?) && CanStep(t.state, step)
    requires action == if step.DoFlush? then Flushed(step.db) else Swapped
    ensures Coherent(Advance(t, step, lands))
  {
    var t' := Advance(t, step, lands);
    if t'.state == t.state {
      CoherentQuiet(t, t');
    } else {
      CoherentRecord(t, action, t');
    }
  }

  /** Appending a batch to the attempts appends its stored part to the log. */
  lemma StoredBatch(l: seq<Item>, actions: seq<Action>, lands: Answers)
    ensures Stored(l + Marks(actions), lands) == Stored(l, lands) + Marks(Stays(actions, |l|, lands))
    ensures var after := Stored(l + Marks(actions), lands);
            && (IsOpen(after) <==> After(IsOpen(Stored(l, lands)), Stays(actions, |l|, lands)))
            && (GapFree(after) <==> GapFree(Stored(l, lands)))
  {
    StoredTail(l, Marks(actions), lands);
    StoredMarks(actions, |l|, lands);
    MarksOpen(Stored(l, lands), Stays(actions, |l|, lands));
  }

  lemma StoredEvents(l: seq<Item>, data: seq<Item>, lands: Answers)
    requires AllData(data)
    ensures var before, after := Stored(l, lands), Stored(l + data, lands);
            && (IsOpen(after) <==> IsOpen(before))
            && (GapFree(after) <==> GapFree(before) && (StoredFrom(data, |l|, lands) == [] || IsOpen(before)))
  {
    var before, more := Stored(l, lands), StoredFrom(data, |l|, lands);
    StoredTail(l, data, lands);
    StoredDatas(data, |l|, lands);
    DatasOpen(before, more);
  }

  /** What a callback's drain leaves: where its events start, and what the reader then believes. */
  lemma DrainTells(t: Trace, step: Step, lands: Answers)
    requires Tracked(t, lands) && Tidy(t.state) && step.DoNotify?
    ensures var base := if step.capturing && step.registered then Line(t.state) else Committed(t.state);
            && |base| == EventBase(t.state, step)
            && (IsOpen(Stored(base, lands)) <==> ToldAfter(t, step, lands))
            && (GapFree(Stored(base, lands)) <==> t.strays == 0)
  {
    StoredBatch(Committed(t.state), t.state.pending, lands);
    NoMarks();
    Assoc(Committed(t.state), [], []);
  }

  lemma TrackedNotify(t: Trace, step: Step, lands: Answers)
    requires Tracked(t, lands) && Coherent(t) && step.DoNotify? && CanStep(t.state, step)
    ensures Tracked(Advance(t, step, lands), lands)
  {
    var s := t.state;
    var data := Captured(s, step.capturing, step.selected, step.event, step.route);
    var base := if step.capturing && step.registered then Line(s) else Committed(s);
    NotifyLine(s, step.capturing, step.selected, step.event, step.registered, step.route);
    CoherentNotify(t, step, lands);
    DrainTells(t, step, lands);
    StoredEvents(base, data, lands);
    assert data == [] ==> StoredFrom(data, |base|, lands) == [];
  }

  lemma TrackedDirect(t: Trace, step: Step, lands: Answers)
    requires Tracked(t, lands) && (step.DoTick? || step.DoUnload?) && CanStep(t.state, step)
    ensures Tracked(Advance(t, step, lands), lands)
  {
    var s, after := t.state, Apply(t.state, step);
    var batch := Batch(s, step);
    DirectLog(s);
    DirectLog(after);
    if batch.Some? {
      StoredBatch(s.out, batch.value, lands);
    }
  }

  lemma DirectLog(s: State)
    requires s.jobs == []
    ensures Committed(s) == s.out
  {
  }

  lemma TrackedWorker(t: Trace, lands: Answers)
    requires Tracked(t, lands) && Coherent(t) && CanStep(t.state, DoWorker)
    ensures Tracked(Advance(t, DoWorker, lands), lands)
  {
    var s := t.state;
    var data := [Data(s.backlog[0])];
    assert Committed(s) == s.out && Committed(WorkerWrites(s)) == s.out + data;
    StoredEvents(s.out, data, lands);
    assert data[..0] == [];
  }

  lemma TrackedStep(t: Trace, step: Step, lands: Answers)
    requires Tracked(t, lands) && Coherent(t) && CanStep(t.state, step)
    ensures Tracked(Advance(t, step, lands), lands)
  {
    match step {
      case DoNotify(_, _, _, _, _) => TrackedNotify(t, step, lands);
      case DoRunJob => RunJobLine(t.state);
      case DoWorker => TrackedWorker(t, lands);
      case DoTick(_) => TrackedDirect(t, step, lands);
      case DoUnload(_) => TrackedDirect(t, step, lands);
      case _ =>
    }
  }

  lemma {:induction false} Invariant(steps: seq<Step>, lands: Answers)
    requires Run(steps, lands).Some?
    ensures Tracked(Run(steps, lands).value, lands) && Coherent(Run(steps, lands).value)
    decreases |steps|
  {
    if |steps| > 0 {
      var before, step := steps[..|steps| - 1], steps[|steps| - 1];
      Invariant(before, lands);
      CoherentStep(Run(before, lands).value, step, lands);
      TrackedStep(Run(before, lands).value, step, lands);
    }
  }

  // ---------------------------------------------------------------------------------------------
  // Main results on gaps
  // ---------------------------------------------------------------------------------------------

  /**
   Every run, in either mode, with any refused jobs and any refused writes: the log as it will be stored holds no event
   inside an announced gap exactly when no event strayed; once the registered jobs have run, that is the stored log.
   */
  lemma GapsExactly(steps: seq<Step>, lands: Answers)
    requires Run(steps, lands).Some?
    ensures var t := Run(steps, lands).value;
            && (GapFree(Stored(Committed(t.state), lands)) <==> t.strays == 0)
            && (t.state.jobs == [] ==> (GapFree(Stored(t.state.out, lands)) <==> t.strays == 0))
  {
    Invariant(steps, lands);
    var s := Run(steps, lands).value.state;
    Assoc(s.out, [], []);
  }

  /** The callback commits its event as a job, and the write of it will be accepted. */
  predicate StoresEvent(s: State, step: Step, lands: Answers) {
    && step.DoNotify? && step.capturing && step.selected && step.route.Job? && s.enabled
    && lands(EventBase(s, step) + |s.backlog|)
  }

  lemma StraysExactly(t: Trace, step: Step, lands: Answers)
    requires StoresEvent(t.state, step, lands)
    ensures Strays(t, step, lands) > 0 <==> MisledAfter(t, step, lands)
  {
    StoredDatas(Datas(t.state.backlog + [step.event]), EventBase(t.state, step), lands);
  }

  /**
   After any losses: the event a callback commits, if it is stored, stays out of a gap exactly when the last batch with
   a toggle, this callback's included, did not leave the reader misled.
   */
  lemma RefusalExactly(steps: seq<Step>, step: Step, lands: Answers)
    requires Run(steps, lands).Some? && CanStep(Run(steps, lands).value.state, step)
    requires StoresEvent(Run(steps, lands).value.state, step, lands)
    ensures var t := Run(steps, lands).value;
            var kept := GapFree(Stored(Committed(Apply(t.state, step)), lands));
            kept <==> GapFree(Stored(Committed(t.state), lands)) && !MisledAfter(t, step, lands)
  {
    var t := Run(steps, lands).value;
    Invariant(steps, lands);
    StraysExactly(t, step, lands);
    StepTracked(t, step, lands);
  }

  lemma StepTracked(t: Trace, step: Step, lands: Answers)
    requires Tracked(t, lands) && Coherent(t) && CanStep(t.state, step)
    ensures GapFree(Stored(Committed(Apply(t.state, step)), lands)) <==> t.strays + Strays(t, step, lands) == 0
    ensures GapFree(Stored(Committed(t.state), lands)) <==> t.strays == 0
  {
    TrackedStep(t, step, lands);
  }

  /**
   The worker, in every run: the stored log is open exactly when capture was on behind the pending toggles and the
   reader is not misled, or the reverse of both; and a stored write keeps the log clean exactly then.
   */
  lemma BacklogExactly(steps: seq<Step>, lands: Answers)
    requires Run(steps, lands).Some? && CanStep(Run(steps, lands).value.state, DoWorker)
    ensures var t := Run(steps, lands).value;
            var open := OpenBehind(t.state.pending, t.state.enabled) != t.misled;
            && (IsOpen(Stored(t.state.out, lands)) <==> open)
            && var kept := GapFree(Stored(WorkerWrites(t.state).out, lands));
               kept <==> GapFree(Stored(t.state.out, lands)) && (lands(|t.state.out|) ==> open)
  {
    Invariant(steps, lands);
    WorkerKept(Run(steps, lands).value, lands);
  }

  lemma WorkerKept(t: Trace, lands: Answers)
    requires Tracked(t, lands) && Coherent(t) && CanStep(t.state, DoWorker)
    ensures IsOpen(Stored(t.state.out, lands)) <==> t.told
    ensures var kept := GapFree(Stored(WorkerWrites(t.state).out, lands));
            kept <==> GapFree(Stored(t.state.out, lands)) && (lands(|t.state.out|) ==> t.told)
  {
    var s := t.state;
    var data := [Data(s.backlog[0])];
    assert Committed(s) == s.out;
    StoredEvents(s.out, data, lands);
    assert data[..0] == [];
  }

  lemma NoStrayStep(t: Trace, step: Step, lands: Answers)
    requires CanStep(t.state, step) && t.state.backlog == [] && (step.DoNotify? ==> !step.route.Backlog?)
    requires Coherent(t) && !LostAfter(t, step, lands, true)
    ensures Strays(t, step, lands) == 0 && Apply(t.state, step).backlog == []
  {
    if step.DoNotify? {
      CoherentNotify(t, step, lands);
    }
  }

  lemma {:induction false} NothingStrays(steps: seq<Step>, lands: Answers)
    requires Run(steps, lands).Some? && Synchronous(steps) && !Run(steps, lands).value.lostOpening
    ensures Run(steps, lands).value.strays == 0 && Run(steps, lands).value.state.backlog == []
    decreases |steps|
  {
    if |steps| > 0 {
      var before, step := steps[..|steps| - 1], steps[|steps| - 1];
      NothingStrays(before, lands);
      Invariant(before, lands);
      NoStrayStep(Run(before, lands).value, step, lands);
    }
  }

  /** In synchronous runs whose opening markers were all stored, no stored event lies inside an announced gap. */
  lemma NoEventInsideGap(steps: seq<Step>, lands: Answers)
    requires Run(steps, lands).Some? && Synchronous(steps) && !Run(steps, lands).value.lostOpening
    ensures GapFree(Stored(Run(steps, lands).value.state.out, lands))
  {
    NothingStrays(steps, lands);
    Invariant(steps, lands);
    var s := Run(steps, lands).value.state;
    StoredPrefix(s.out, Queued(s.jobs), lands);
  }

  lemma StoredPrefix(l: seq<Item>, m: seq<Item>, lands: Answers)
    requires GapFree(Stored(l + m, lands))
    ensures GapFree(Stored(l, lands))
  {
    StoredTail(l, m, lands);
    GapFreePrefix(Stored(l, lands), StoredFrom(m, |l|, lands));
  }

  lemma GapFreePrefix(l: seq<Item>, m: seq<Item>)
    requires GapFree(l + m)
    ensures GapFree(l)
  {
    forall i | 0 <= i < |l| && l[i].Data?
      ensures IsOpen(l[..i])
    {
      assert (l + m)[i] == l[i] && (l + m)[..i] == l[..i];
    }
  }

  /**
   An event the module skips because capture is off is skipped inside an announced gap exactly when the last batch with
   a toggle did not leave the reader misled; and it does so whenever no closing marker was lost.
   */
  lemma SkipsAreAnnounced(steps: seq<Step>, step: Step, lands: Answers)
    requires Run(steps, lands).Some? && step.DoNotify? && step.capturing
    requires Run(steps, lands).value.state.loaded && !Run(steps, lands).value.state.enabled
    ensures var t := Run(steps, lands).value;
            var announced := !IsOpen(Stored(Committed(Apply(t.state, step)), lands));
            && Apply(t.state, step).pending == []
            && (announced <==> !MisledAfter(t, step, lands))
            && (!LostAfter(t, step, lands, false) ==> announced)
  {
    Invariant(steps, lands);
    var t := Run(steps, lands).value;
    CoherentNotify(t, step, lands);
    TrackedNotify(t, step, lands);
  }

  // ---------------------------------------------------------------------------------------------
  // Order
  // ---------------------------------------------------------------------------------------------

  /** `a` sits inside `b` at increasing positions. */
  predicate Embeds(a: seq<Item>, b: seq<Item>, at: seq<nat>) {
    && |at| == |a|
    && (forall i :: 0 <= i < |a| ==> at[i] < |b| && b[at[i]] == a[i])
    && (forall i, j :: 0 <= i < j < |a| ==> at[i] < at[j])
  }

  ghost predicate Subsequence(a: seq<Item>, b: seq<Item>) {
    exists at :: Embeds(a, b, at)
  }

  lemma SubsequencePrefix(a: seq<Item>, tail: seq<Item>, b: seq<Item>)
    requires Subsequence(a + tail, b)
    ensures Subsequence(a, b)
  {
    var at: seq<nat> :| Embeds(a + tail, b, at);
    assert forall i :: 0 <= i < |a| ==> (a + tail)[i] == a[i];
    assert Embeds(a, b, at[..|a|]);
  }

  lemma SubsequenceGrows(a: seq<Item>, b: seq<Item>, x: Item)
    requires Subsequence(a, b)
    ensures Subsequence(a, b + [x]) && Subsequence(a + [x], b + [x])
  {
    var at: seq<nat> :| Embeds(a, b, at);
    assert Embeds(a, b + [x], at);
    assert Embeds(a + [x], b + [x], at + [|b|]);
  }

  lemma {:induction false} SubsequenceJoin(a: seq<Item>, b: seq<Item>, tail: seq<Item>)
    requires Subsequence(a, b)
    ensures Subsequence(a + tail, b + tail)
    decreases |tail|
  {
    if |tail| == 0 {
      assert a + tail == a && b + tail == b;
    } else {
      var n := |tail| - 1;
      SubsequenceJoin(a, b, tail[..n]);
      SubsequenceGrows(a + tail[..n], b + tail[..n], tail[n]);
      assert a + tail == (a + tail[..n]) + [tail[n]] && b + tail == (b + tail[..n]) + [tail[n]];
    }
  }

  /** The markers of a log, with or without its events. */
  function View(l: seq<Item>, data: bool): seq<Item> {
    if |l| == 0 then []
    else
      var x := l[|l| - 1];
      View(l[..|l| - 1], data) + if x.Mark? || data then [x] else []
  }

  lemma {:induction false} ViewJoin(a: seq<Item>, b: seq<Item>, data: bool)
    ensures View(a + b, data) == View(a, data) + View(b, data)
    decreases |b|
  {
    if |b| == 0 {
      assert a + b == a;
    } else {
      var n := |b| - 1;
      assert (a + b)[..|a| + n] == a + b[..n];
      ViewJoin(a, b[..n], data);
    }
  }

  lemma {:induction false} ViewAll(l: seq<Item>)
    ensures View(l, true) == l
    decreases |l|
  {
    if |l| > 0 {
      ViewAll(l[..|l| - 1]);
      assert l == l[..|l| - 1] + [l[|l| - 1]];
    }
  }

  lemma ViewOfData(event: nat)
    ensures View([Data(event)], false) == []
  {
    assert [Data(event)][..0] == [];
  }

  /** How a step changes the line: it keeps it or drops a tail of it, and appends what happens. */
  lemma LineStep(s: State, step: Step) returns (kept: seq<Item>, dropped: seq<Item>)
    requires Tidy(s) && CanStep(s, step) && !step.DoWorker?
    ensures Line(s) == kept + dropped && Line(Apply(s, step)) == kept + Happens(s, step)
    ensures dropped != [] ==> step.DoLoad? || Apply(s, step).refused > s.refused
    ensures step.DoLoad? ==> kept == Committed(s)
  {
    var l, s' := Line(s), Apply(s, step);
    kept, dropped := l, [];
    Assoc(l, [], []);
    NoMarks();
    Assoc(s.out, Queued(s.jobs), Marks(s.pending));
    match step {
      case DoLoad(enabledArg) => kept, dropped := Committed(s), Marks(s.pending);
      case DoSet(now) => RecordLine(s.(enabled := now, lastEnabled := now), if now then Enabled else Disabled);
      case DoNotify(capturing, selected, event, registered, route) =>
        kept, dropped := NotifyKeeps(s, step);
      case DoRunJob => RunJobLine(s);
      case DoFlush(capturing, db) => RecordLine(s, Flushed(db));
      case DoSwap(capturing, first, second) => RecordLine(s, Swapped);
      case DoTick(capturing) => DirectLine(s, Checkpoint);
      case DoUnload(capturing) => DirectLine(s, Unloading);
      case DoWorker =>
    }
  }

  lemma NotifyKeeps(s: State, step: Step) returns (kept: seq<Item>, dropped: seq<Item>)
    requires Tidy(s) && step.DoNotify? && CanStep(s, step)
    ensures Line(s) == kept + dropped && Line(Apply(s, step)) == kept + Happens(s, step)
    ensures dropped != [] ==> Apply(s, step).refused > s.refused
  {
    NotifyLine(s, step.capturing, step.selected, step.event, step.registered, step.route);
    NoMarks();
    var after := Apply(s, step);
    Assoc(Line(s), [], []);
    Assoc(Committed(after), [], []);
    if step.capturing && !step.registered {
      kept, dropped := Committed(s), Marks(s.pending);
    } else {
      kept, dropped := Line(s), [];
    }
  }

  lemma DirectLine(s: State, action: Action)
    requires s.jobs == []
    ensures Line(s.(pending := [], dirty := false, out := s.out + Marks(s.pending) + [Mark(action)]))
         == Line(s) + [Mark(action)]
  {
    NoMarks();
  }

  lemma OrderStep(t: Trace, step: Step, data: bool)
    requires Tidy(t.state) && CanStep(t.state, step) && (data ==> !step.DoWorker?)
    requires Subsequence(View(Line(t.state), data), View(t.history, data))
    ensures Subsequence(View(Line(Apply(t.state, step)), data), View(t.history + Happens(t.state, step), data))
  {
    var s, h := t.state, Happens(t.state, step);
    ViewJoin(t.history, h, data);
    if step.DoWorker? {
      WorkerView(s);
      Assoc(View(t.history, data), [], []);
    } else {
      var kept, dropped := LineStep(s, step);
      ViewJoin(kept, dropped, data);
      ViewJoin(kept, h, data);
      SubsequencePrefix(View(kept, data), View(dropped, data), View(t.history, data));
      SubsequenceJoin(View(kept, data), View(t.history, data), View(h, data));
    }
  }

  /** A worker write moves no marker. */
  lemma WorkerView(s: State)
    requires CanStep(s, DoWorker)
    ensures View(Line(WorkerWrites(s)), false) == View(Line(s), false)
  {
    var data := [Data(s.backlog[0])];
    assert Line(s) == s.out + Marks(s.pending) && Line(WorkerWrites(s)) == s.out + data + Marks(s.pending);
    ViewJoin(s.out, Marks(s.pending), false);
    ViewJoin(s.out + data, Marks(s.pending), false);
    ViewJoin(s.out, data, false);
    ViewOfData(s.backlog[0]);
    Assoc(View(s.out, false), [], []);
  }

  lemma {:induction false} NoWorker(steps: seq<Step>, lands: Answers)
    requires Run(steps, lands).Some? && Synchronous(steps)
    ensures Run(steps, lands).value.state.backlog == []
    decreases |steps|
  {
    if |steps| > 0 {
      NoWorker(steps[..|steps| - 1], lands);
    }
  }

  /**
   Markers are attempted at most once and in the order they were recorded, in every run: refused jobs, reloads and
   both write modes included. In the synchronous mode so are events and markers together.
   */
  lemma {:induction false} RecordingOrder(steps: seq<Step>, data: bool, lands: Answers)
    requires Run(steps, lands).Some? && (data ==> Synchronous(steps))
    ensures var t := Run(steps, lands).value; Subsequence(View(Line(t.state), data), View(t.history, data))
    decreases |steps|
  {
    if |steps| == 0 {
      assert Line(INIT) == [];
      assert Embeds([], [], []);
    } else {
      var before, step := steps[..|steps| - 1], steps[|steps| - 1];
      RecordingOrder(before, data, lands);
      Invariant(before, lands);
      if data {
        NoWorker(before, lands);
      }
      OrderStep(Run(before, lands).value, step, data);
    }
  }

  /** In the synchronous mode the whole line is a subsequence of what happened, refusals and reloads included. */
  lemma WrittenInOrder(steps: seq<Step>, lands: Answers)
    requires Run(steps, lands).Some? && Synchronous(steps)
    ensures var t := Run(steps, lands).value;
            Subsequence(t.state.out + Queued(t.state.jobs) + Marks(t.state.pending), t.history)
  {
    RecordingOrder(steps, true, lands);
    ViewAll(Line(Run(steps, lands).value.state));
    ViewAll(Run(steps, lands).value.history);
  }

  lemma RefusedGrows(s: State, step: Step)
    requires CanStep(s, step)
    ensures s.refused <= Apply(s, step).refused
  {
  }

  lemma {:induction false} LineIsTimeline(steps: seq<Step>, lands: Answers)
    requires Run(steps, lands).Some? && Synchronous(steps) && Run(steps, lands).value.state.refused == 0
    ensures Line(Run(steps, lands).value.state) == Run(steps, lands).value.timeline
    decreases |steps|
  {
    if |steps| > 0 {
      var before, step := Run(steps[..|steps| - 1], lands).value, steps[|steps| - 1];
      RefusedGrows(before.state, step);
      LineIsTimeline(steps[..|steps| - 1], lands);
      Invariant(steps[..|steps| - 1], lands);
      NoWorker(steps[..|steps| - 1], lands);
      TimelineStep(before, step);
    }
  }

  lemma TimelineStep(t: Trace, step: Step)
    requires Tidy(t.state) && CanStep(t.state, step) && !step.DoWorker? && Line(t.state) == t.timeline
    requires Apply(t.state, step).refused == 0
    ensures Line(Apply(t.state, step)) == (if step.DoLoad? then t.state.out else t.timeline) + Happens(t.state, step)
  {
    var kept, dropped := LineStep(t.state, step);
    Assoc(kept, [], []);
    Assoc(t.state.out, [], []);
  }

  /** With no refusals nothing is missing either: written, on its way and pending are the whole timeline. */
  lemma WrittenAsItHappened(steps: seq<Step>, lands: Answers)
    requires Run(steps, lands).Some? && Synchronous(steps) && Run(steps, lands).value.state.refused == 0
    ensures var t := Run(steps, lands).value;
            && t.state.out + Queued(t.state.jobs) + Marks(t.state.pending) == t.timeline
            && t.state.out <= t.timeline
  {
    LineIsTimeline(steps, lands);
    var s := Run(steps, lands).value.state;
    Assoc(s.out, Queued(s.jobs), Marks(s.pending));
  }

  // ---------------------------------------------------------------------------------------------
  // Every accepted event, once and in order
  // ---------------------------------------------------------------------------------------------

  function DataOf(items: seq<Item>): seq<nat> {
    if |items| == 0 then []
    else
      var last := items[|items| - 1];
      DataOf(items[..|items| - 1]) + if last.Data? then [last.event] else []
  }

  lemma {:induction false} DataJoin(a: seq<Item>, b: seq<Item>)
    ensures DataOf(a + b) == DataOf(a) + DataOf(b)
    decreases |b|
  {
    if |b| == 0 {
      assert a + b == a;
    } else {
      var n := |b| - 1;
      DataJoin(a, b[..n]);
      assert (a + b)[..|a| + n] == a + b[..n];
      Chains(DataOf(a), DataOf(b[..n]), if b[n].Data? then [b[n].event] else []);
    }
  }

  lemma Chains(a: seq<nat>, b: seq<nat>, c: seq<nat>)
    ensures a + b + c == a + (b + c) && a + [] == a
  {
  }

  lemma {:induction false} MarksHoldNoData(actions: seq<Action>)
    ensures DataOf(Marks(actions)) == []
    decreases |actions|
  {
    if |actions| > 0 {
      var n := |actions| - 1;
      MarksHoldNoData(actions[..n]);
      assert Marks(actions)[..n] == Marks(actions[..n]);
    }
  }

  lemma {:induction false} DatasHold(events: seq<nat>)
    ensures DataOf(Datas(events)) == events
    decreases |events|
  {
    if |events| > 0 {
      var n := |events| - 1;
      DatasHold(events[..n]);
      assert Datas(events)[..n] == Datas(events[..n]);
      assert events == events[..n] + [events[n]];
    }
  }

  /** The event a callback accepts: capture on, on the capturing node, selected, and not lost for want of a job. */
  function Accepts(s: State, step: Step): seq<nat> {
    if step.DoNotify? && s.enabled && step.capturing && step.selected && !step.route.Lost? then [step.event] else []
  }

  function AcceptedIn(steps: seq<Step>, lands: Answers): seq<nat>
    requires Run(steps, lands).Some?
  {
    if |steps| == 0 then []
    else
      var before := steps[..|steps| - 1];
      AcceptedIn(before, lands) + Accepts(Run(before, lands).value.state, steps[|steps| - 1])
  }

  /** Written, on its way, or waiting for the worker. */
  function EventLine(s: State): seq<nat> {
    DataOf(Committed(s)) + s.backlog
  }

  lemma NotifyCommits(s: State, step: Step)
    requires step.DoNotify? && CanStep(s, step) && Tidy(s)
    ensures DataOf(Committed(Apply(s, step)))
         == DataOf(Committed(s)) + DataOf(Captured(s, step.capturing, step.selected, step.event, step.route))
  {
    var data := Captured(s, step.capturing, step.selected, step.event, step.route);
    NotifyLine(s, step.capturing, step.selected, step.event, step.registered, step.route);
    DataJoin(Committed(s), Marks(s.pending));
    MarksHoldNoData(s.pending);
    Chains(DataOf(Committed(s)), [], []);
    DataJoin(Line(s), data);
    DataJoin(Committed(s), data);
  }

  lemma NotifyBacklog(s: State, step: Step)
    requires step.DoNotify? && CanStep(s, step)
    ensures Apply(s, step).backlog == if Accepts(s, step) == [] then s.backlog
                                      else if step.route.Job? then [] else s.backlog + [step.event]
  {
  }

  lemma EventLineNotify(s: State, step: Step)
    requires step.DoNotify? && CanStep(s, step) && Tidy(s)
    ensures EventLine(Apply(s, step)) == EventLine(s) + Accepts(s, step)
  {
    NotifyCommits(s, step);
    NotifyBacklog(s, step);
    var l, after := DataOf(Committed(s)), DataOf(Committed(Apply(s, step)));
    Chains(l, s.backlog, [step.event]);
    Chains(l, s.backlog, []);
    if Accepts(s, step) != [] && step.route.Job? {
      DatasHold(s.backlog + [step.event]);
      Chains(after, [], []);
    } else {
      Chains(l, [], []);
    }
  }

  lemma EventLineWrites(s: State, actions: seq<Action>)
    ensures DataOf(s.out + Marks(actions)) == DataOf(s.out)
  {
    DataJoin(s.out, Marks(actions));
    MarksHoldNoData(actions);
    Chains(DataOf(s.out), [], []);
  }

  lemma EventLineWorker(s: State)
    requires s.jobs == [] && s.backlog != []
    ensures EventLine(WorkerWrites(s)) == EventLine(s)
  {
    Assoc(s.out, [], []);
    DataJoin(s.out, [Data(s.backlog[0])]);
    DatasHold([s.backlog[0]]);
    assert Datas([s.backlog[0]]) == [Data(s.backlog[0])] && s.backlog == [s.backlog[0]] + s.backlog[1..];
    Chains(DataOf(s.out), [s.backlog[0]], s.backlog[1..]);
    Assoc(s.out + [Data(s.backlog[0])], [], []);
  }

  lemma EventLineStep(s: State, step: Step)
    requires CanStep(s, step) && Tidy(s)
    ensures EventLine(Apply(s, step)) == EventLine(s) + Accepts(s, step)
  {
    Chains(EventLine(s), [], []);
    match step {
      case DoNotify(_, _, _, _, _) => EventLineNotify(s, step);
      case DoRunJob => RunJobLine(s);
      case DoWorker => EventLineWorker(s);
      case DoTick(_) => EventLineWrites(s, s.pending + [Checkpoint]);
      case DoUnload(_) => EventLineWrites(s, s.pending + [Unloading]);
      case DoSet(_) =>
      case DoFlush(_, _) =>
      case DoSwap(_, _, _) =>
      case DoLoad(_) =>
    }
    Assoc(s.out, [], []);
    Assoc(Apply(s, step).out, [], []);
  }

  /** Every run, in either mode: the events attempted, queued and waiting are the accepted ones, each once, in order. */
  lemma {:induction false} EventsInOrder(steps: seq<Step>, lands: Answers)
    requires Run(steps, lands).Some?
    ensures EventLine(Run(steps, lands).value.state) == AcceptedIn(steps, lands)
    ensures DataOf(Run(steps, lands).value.state.out) <= AcceptedIn(steps, lands)
  {
    if |steps| > 0 {
      var before, step := steps[..|steps| - 1], steps[|steps| - 1];
      EventsInOrder(before, lands);
      Invariant(before, lands);
      EventLineStep(Run(before, lands).value.state, step);
    }
    var s := Run(steps, lands).value.state;
    DataJoin(s.out, Queued(s.jobs));
    Chains(DataOf(s.out), DataOf(Queued(s.jobs)), s.backlog);
  }

  // ---------------------------------------------------------------------------------------------
  // Runs that stray
  // ---------------------------------------------------------------------------------------------

  lemma RunExtends(steps: seq<Step>, t: Trace, step: Step, lands: Answers)
    requires Run(steps, lands) == Some(t) && CanStep(t.state, step)
    ensures Run(steps + [step], lands) == Some(Advance(t, step, lands))
  {
    assert (steps + [step])[..|steps|] == steps;
  }

  /** Running the registered jobs changes what is attempted already, and nothing else. */
  lemma {:induction false} RunAll(steps: seq<Step>, t: Trace, lands: Answers) returns (steps': seq<Step>, t': Trace)
    requires Run(steps, lands) == Some(t)
    ensures Run(steps', lands) == Some(t') && t'.state.jobs == [] && (Synchronous(steps) ==> Synchronous(steps'))
    ensures t' == t.(state := t.state.(jobs := [], out := Committed(t.state)))
    decreases |t.state.jobs|
  {
    if t.state.jobs == [] {
      steps', t' := steps, t;
      DirectLog(t.state);
    } else {
      RunExtends(steps, t, DoRunJob, lands);
      RunJobLine(t.state);
      JobQuiet(t, lands);
      steps', t' := RunAll(steps + [DoRunJob], Advance(t, DoRunJob, lands), lands);
    }
  }

  lemma JobQuiet(t: Trace, lands: Answers)
    requires t.state.jobs != []
    ensures Advance(t, DoRunJob, lands) == t.(state := RunJob(t.state))
  {
    Assoc(t.timeline, [], []);
    Assoc(t.history, [], []);
  }

  lemma {:induction false} StaysAll(actions: seq<Action>, base: nat, lands: Answers)
    requires forall n: nat :: base <= n < base + |actions| ==> lands(n)
    ensures Stays(actions, base, lands) == actions
    decreases |actions|
  {
    if |actions| > 0 {
      StaysAll(actions[..|actions| - 1], base, lands);
      assert actions == actions[..|actions| - 1] + [actions[|actions| - 1]];
    }
  }

  /** Loaded disabled, and announced by the first callback. */
  lemma LoadedDisabled(skipped: Step, lands: Answers) returns (t: Trace)
    requires skipped == DoNotify(true, true, 0, true, Job) && lands(0) && lands(1)
    ensures Run([DoLoad(false)] + [skipped], lands) == Some(t)
    ensures t.state == State(true, false, false, [], false, [MarkerJob([Loaded, Disabled])], [], [], 0)
    ensures !t.told && !t.misled && t.strays == 0
  {
    RunExtends([], Start(), DoLoad(false), lands);
    var t1 := Advance(Start(), DoLoad(false), lands);
    assert [] + [DoLoad(false)] == [DoLoad(false)];
    RunExtends([DoLoad(false)], t1, skipped, lands);
    t := Advance(t1, skipped, lands);
    assert |Committed(t1.state)| == 0;
    StaysAll([Loaded, Disabled], 0, lands);
    TogglesGrow([Loaded], Disabled);
    assert [Loaded] + [Disabled] == [Loaded, Disabled];
  }

  /** Then enabled. */
  lemma Reenabled(lands: Answers) returns (steps: seq<Step>, t: Trace)
    requires lands(0) && lands(1)
    ensures Run(steps, lands) == Some(t) && Synchronous(steps) && !t.told && t.strays == 0 && |Committed(t.state)| == 2
    ensures t.state.loaded && t.state.enabled && t.state.dirty && t.state.pending == [Enabled]
    ensures t.state.backlog == [] && t.state.refused == 0
  {
    var skipped := DoNotify(true, true, 0, true, Job);
    var disabled := LoadedDisabled(skipped, lands);
    steps := [DoLoad(false)] + [skipped];
    RunExtends(steps, disabled, DoSet(true), lands);
    steps, t := steps + [DoSet(true)], Advance(disabled, DoSet(true), lands);
    assert t.state.pending == [Enabled];
    QueuedOne([], MarkerJob([Loaded, Disabled]));
    assert [] + [MarkerJob([Loaded, Disabled])] == t.state.jobs;
  }

  /** And the opening lost with its job, or at its write. */
  lemma LostOpening(registered: bool, selected: bool, lands: Answers) returns (steps: seq<Step>, t: Trace)
    requires lands(0) && lands(1) && (registered ==> !lands(2) && lands(3)) && (!registered ==> lands(2))
    ensures Run(steps, lands) == Some(t) && Synchronous(steps) && t.misled
    ensures t.state.loaded && t.state.enabled && !t.state.dirty && t.state.backlog == []
    ensures t.state.refused == (if registered then 0 else 1) && t.strays == if selected then 1 else 0
  {
    var early, enabled := Reenabled(lands);
    steps, t := LostAt(early, enabled, DoNotify(true, selected, 1, registered, Job), 2, lands);
  }

  lemma LostAt(early: seq<Step>, enabled: Trace, losing: Step, n: nat, lands: Answers)
    returns (steps: seq<Step>, t: Trace)
    requires Run(early, lands) == Some(enabled) && Synchronous(early) && !enabled.told && enabled.strays == 0
    requires enabled.state.loaded && enabled.state.enabled && enabled.state.dirty && enabled.state.backlog == []
    requires enabled.state.pending == [Enabled] && enabled.state.refused == 0 && |Committed(enabled.state)| == n
    requires losing.DoNotify? && losing.capturing && losing.route.Job?
    requires if losing.registered then !lands(n) && lands(n + 1) else lands(n)
    ensures Run(steps, lands) == Some(t) && Synchronous(steps) && t.misled
    ensures t.state.loaded && t.state.enabled && !t.state.dirty && t.state.backlog == []
    ensures t.state.refused == (if losing.registered then 0 else 1) && t.strays == if losing.selected then 1 else 0
  {
    RunExtends(early, enabled, losing, lands);
    LosesEnabled(enabled, losing, n, lands);
    steps, t := early + [losing], Advance(enabled, losing, lands);
  }

  lemma StaysOne(actions: seq<Action>, base: nat, lands: Answers)
    requires |actions| == 1
    ensures Stays(actions, base, lands) == if lands(base) then actions else []
  {
    assert Stays(actions[..0], base, lands) == [] && actions == [actions[0]];
  }

  lemma StoredOne(items: seq<Item>, base: nat, lands: Answers)
    requires |items| == 1
    ensures StoredFrom(items, base, lands) == if lands(base) then items else []
  {
    assert StoredFrom(items[..0], base, lands) == [] && items == [items[0]];
  }

  /** A lost `enabled` behind `n` attempts, and what becomes of the callback's own event. */
  lemma LosesEnabled(t: Trace, step: Step, n: nat, lands: Answers)
    requires t.state.pending == [Enabled] && t.state.dirty && t.state.enabled && t.state.backlog == [] && !t.told
    requires step.DoNotify? && step.capturing && step.route.Job? && |Committed(t.state)| == n
    requires if step.registered then !lands(n) && lands(n + 1) else lands(n)
    ensures MisledAfter(t, step, lands) && Strays(t, step, lands) == if step.selected then 1 else 0
  {
    StaysOne(t.state.pending, n, lands);
    var data := Captured(t.state, true, step.selected, step.event, Job);
    if step.selected {
      StoredOne(data, EventBase(t.state, step), lands);
    }
  }

  ghost predicate AllLand(lands: Answers) {
    forall n: nat :: lands(n)
  }

  /**
   Refused marker jobs do put events inside a gap, at once or later: the marker job of the callback that captures an
   event is refused, or that of an earlier callback whose own event was not selected.
   */
  lemma RefusedMarkerJob(selected: bool, lands: Answers) returns (steps: seq<Step>, t: Trace)
    requires AllLand(lands)
    ensures Run(steps, lands) == Some(t) && Synchronous(steps) && t.state.refused == 1 && t.state.jobs == []
    ensures GapFree(Stored(t.state.out, lands)) <==> !selected
    ensures t.state.loaded && !t.state.dirty
    ensures !GapFree(Stored(Committed(Apply(t.state, DoNotify(true, true, 2, true, Job))), lands))
  {
    steps, t := LostOpening(false, selected, lands);
    steps, t := RunAll(steps, t, lands);
    GapsExactly(steps, lands);
    DirectLog(t.state);
    RefusalExactly(steps, DoNotify(true, true, 2, true, Job), lands);
  }

  /** A refused marker write does the same with every job registered: the reader sees `disabled`, then the event. */
  lemma RefusedMarkerWrite(lands: Answers) returns (steps: seq<Step>, t: Trace)
    requires lands(0) && lands(1) && !lands(2) && lands(3)
    ensures Run(steps, lands) == Some(t) && Synchronous(steps) && t.state.refused == 0 && t.state.jobs == []
    ensures !GapFree(Stored(t.state.out, lands))
  {
    steps, t := LostOpening(true, true, lands);
    steps, t := RunAll(steps, t, lands);
    GapsExactly(steps, lands);
  }

  /** In the worker modes: an event is accepted, capture is disabled, and the next callback announces it. */
  lemma MarkerOvertakesBacklog(lands: Answers) returns (steps: seq<Step>, t: Trace)
    requires AllLand(lands)
    ensures Run(steps, lands) == Some(t) && CanStep(t.state, DoWorker) && t.state.refused == 0
    ensures !IsOpen(Stored(t.state.out, lands)) && !GapFree(Stored(WorkerWrites(t.state).out, lands))
  {
    var early, accepted := AcceptedEvent(DoNotify(true, true, 0, true, Backlog), lands);
    var told := DoNotify(true, true, 1, true, Backlog);
    var disabled := Announced(early, accepted, told, lands);
    RunExtends(early + [DoSet(false)] + [told], disabled, DoRunJob, lands);
    steps, t := early + [DoSet(false)] + [told] + [DoRunJob], Advance(disabled, DoRunJob, lands);
    BacklogExactly(steps, lands);
  }

  lemma Announced(early: seq<Step>, accepted: Trace, told: Step, lands: Answers) returns (t: Trace)
    requires AllLand(lands) && Run(early, lands) == Some(accepted) && told == DoNotify(true, true, 1, true, Backlog)
    requires accepted.state == State(true, true, true, [], false, [], [0], [Mark(Loaded)], 0)
    ensures Run(early + [DoSet(false)] + [told], lands) == Some(t) && !t.misled
    ensures t.state == State(true, false, false, [], false, [MarkerJob([Disabled])], [0], [Mark(Loaded)], 0)
  {
    RunExtends(early, accepted, DoSet(false), lands);
    var off := Advance(accepted, DoSet(false), lands);
    assert off.state.pending == [Disabled];
    RunExtends(early + [DoSet(false)], off, told, lands);
    t := Advance(off, told, lands);
    AllStored(off, told, lands);
  }

  lemma AllStored(t: Trace, step: Step, lands: Answers)
    requires AllLand(lands) && t.state.pending == [Disabled] && t.state.dirty && !t.state.enabled
    requires step.DoNotify? && step.capturing && step.registered
    ensures !MisledAfter(t, step, lands)
  {
    var batch := t.state.pending;
    StaysAll(batch, |Committed(t.state)|, lands);
    assert batch[..0] == [] && LastToggle(batch) == Some(false);
  }

  lemma AcceptedEvent(taken: Step, lands: Answers) returns (steps: seq<Step>, t: Trace)
    requires AllLand(lands) && taken == DoNotify(true, true, 0, true, Backlog)
    ensures Run(steps, lands) == Some(t)
    ensures t.state == State(true, true, true, [], false, [], [0], [Mark(Loaded)], 0)
  {
    RunExtends([], Start(), DoLoad(true), lands);
    var t1 := Advance(Start(), DoLoad(true), lands);
    RunExtends([] + [DoLoad(true)], t1, taken, lands);
    var t2 := Advance(t1, taken, lands);
    assert t2.state.jobs == [MarkerJob([Loaded])];
    RunExtends([] + [DoLoad(true)] + [taken], t2, DoRunJob, lands);
    steps, t := [] + [DoLoad(true)] + [taken] + [DoRunJob], Advance(t2, DoRunJob, lands);
    assert Marks([Loaded]) == [Mark(Loaded)];
  }
}
