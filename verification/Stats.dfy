/** Per-stream records and their rate-limited failure log (src/stats.rs). */
module Stats {
  import opened Text

  const LOG_WINDOW_SECS: nat := 60

  datatype StreamStats = StreamStats(
    forwarded: nat, dropped: nat, counted: bool, registered: bool, registryFailed: bool, groupCreated: bool,
    failingDrops: nat, lastWarned: nat, suppressed: nat)

  const FRESH := StreamStats(0, 0, false, false, false, false, 0, 0, 0)

  function SaturatingSub(a: nat, b: nat): nat {
    if a >= b then a - b else 0
  }

  /** `record_failure`: the new record, and the suppressed count to report when this failure may log. */
  function RecordFailure(st: StreamStats, now: nat): (r: (StreamStats, Option<nat>))
    ensures r.0.counted == st.counted && r.0.registered == st.registered && r.0.registryFailed == st.registryFailed
    ensures r.0.forwarded == st.forwarded && r.0.groupCreated == st.groupCreated
  {
    var failed := st.(dropped := st.dropped + 1, failingDrops := st.failingDrops + 1);
    if st.lastWarned == 0 || SaturatingSub(now, st.lastWarned) >= LOG_WINDOW_SECS then
      (failed.(lastWarned := now, suppressed := 0), Some(st.suppressed))
    else
      (failed.(suppressed := st.suppressed + 1), None)
  }

  /** `record_success`: the new record, and the streak to report when the stream was failing. */
  function RecordSuccess(st: StreamStats): (r: (StreamStats, Option<nat>))
    ensures r.0.counted == st.counted && r.0.registered == st.registered && r.0.registryFailed == st.registryFailed
    ensures r.0.forwarded == st.forwarded && r.0.dropped == st.dropped && r.0.groupCreated == st.groupCreated
  {
    if st.failingDrops == 0 then (st, None)
    else (st.(failingDrops := 0, lastWarned := 0, suppressed := 0), Some(st.failingDrops))
  }

  // ---------------------------------------------------------------------------------------------
  // What an operator sees over a whole history of writes to one stream
  // ---------------------------------------------------------------------------------------------

  /** One write to the stream: refused at clock value `now`, or accepted. */
  datatype Op = Refused(now: nat) | Accepted

  /** The record, and what the log shows of the current failing streak. */
  datatype Log = Log(st: StreamStats, warned: seq<nat>, reported: nat, recovered: Option<nat>)

  function Observe(ops: seq<Op>): Log
    decreases |ops|
  {
    if ops == [] then Log(FRESH, [], 0, None)
    else
      var log := Observe(ops[..|ops| - 1]);
      match ops[|ops| - 1]
      case Refused(now) =>
        var (st, suppressed) := RecordFailure(log.st, now);
        if suppressed.Some? then Log(st, log.warned + [now], log.reported + suppressed.value, None)
        else Log(st, log.warned, log.reported, None)
      case Accepted =>
        var (st, streak) := RecordSuccess(log.st);
        Log(st, [], 0, streak)
  }

  /** How many refusals follow the last accepted write. */
  function Streak(ops: seq<Op>): nat
    decreases |ops|
  {
    if ops == [] || ops[|ops| - 1].Accepted? then 0 else 1 + Streak(ops[..|ops| - 1])
  }

  function Refusals(ops: seq<Op>): nat
    decreases |ops|
  {
    if ops == [] then 0 else Refusals(ops[..|ops| - 1]) + if ops[|ops| - 1].Refused? then 1 else 0
  }

  /** Consecutive warnings are a window apart, unless the earlier one was stamped zero. */
  predicate SpacedBut0(warned: seq<nat>) {
    forall i :: 0 <= i < |warned| - 1 ==> warned[i] == 0 || warned[i + 1] >= warned[i] + LOG_WINDOW_SECS
  }

  /**
   Every refusal of the streak is accounted for: it logged a warning, was reported as suppressed by a
   later one, or is still waiting to be. Warnings keep their distance even when the clock steps back.
   */
  lemma {:induction false} StreakAccounted(ops: seq<Op>)
    ensures var log := Observe(ops);
            && log.st.failingDrops == Streak(ops)
            && log.st.dropped == Refusals(ops)
            && |log.warned| + log.reported + log.st.suppressed == Streak(ops)
            && (log.warned == [] <==> Streak(ops) == 0)
            && log.st.lastWarned == (if log.warned == [] then 0 else log.warned[|log.warned| - 1])
            && SpacedBut0(log.warned)
    decreases |ops|
  {
    if ops != [] {
      StreakAccounted(ops[..|ops| - 1]);
      var log := Observe(ops[..|ops| - 1]);
      if ops[|ops| - 1].Refused? {
        var now := ops[|ops| - 1].now;
        if log.warned != [] && RecordFailure(log.st, now).1.Some? {
          assert log.warned[|log.warned| - 1] == 0 || now >= log.warned[|log.warned| - 1] + LOG_WINDOW_SECS;
        }
      }
    }
  }

  /** A refusal warns exactly when it starts a streak, follows a warning stamped zero, or comes sixty seconds later. */
  lemma WarnsExactly(ops: seq<Op>, now: nat)
    ensures var w := Observe(ops).warned;
            var last := if w == [] then 0 else w[|w| - 1];
            Observe(ops + [Refused(now)]).warned
              == if w == [] || last == 0 || now >= last + 60 then w + [now] else w
  {
    StreakAccounted(ops);
    assert (ops + [Refused(now)])[..|ops|] == ops;
  }

  /** Any two warnings are at least a window apart. */
  predicate Spaced(warned: seq<nat>) {
    forall i, j :: 0 <= i < j < |warned| ==> warned[j] >= warned[i] + LOG_WINDOW_SECS
  }

  lemma {:induction false} StreakFits(ops: seq<Op>)
    ensures Streak(ops) <= |ops| && forall i :: |ops| - Streak(ops) <= i < |ops| ==> ops[i].Refused?
    decreases |ops|
  {
    if ops != [] {
      StreakFits(ops[..|ops| - 1]);
    }
  }

  /** The clock at the `k`-th refusal of the current streak. */
  function ClockAt(ops: seq<Op>, k: nat): nat
    requires k < Streak(ops)
  {
    StreakFits(ops);
    ops[|ops| - Streak(ops) + k].now
  }

  /** A streak's first refusal always warns, and so does its second when the first was stamped zero. */
  lemma {:induction false} FirstWarnings(ops: seq<Op>)
    requires Streak(ops) > 0
    ensures var w := Observe(ops).warned;
            && w != [] && w[0] == ClockAt(ops, 0)
            && (w[0] == 0 && Streak(ops) > 1 ==> |w| > 1 && w[1] == ClockAt(ops, 1))
    decreases |ops|
  {
    var before := ops[..|ops| - 1];
    StreakAccounted(before);
    StreakFits(before);
    if Streak(ops) > 1 {
      FirstWarnings(before);
      assert ClockAt(before, 0) == ClockAt(ops, 0);
      if Streak(ops) > 2 {
        assert ClockAt(before, 1) == ClockAt(ops, 1);
      } else {
        StreakAccounted(before);
        assert |Observe(before).warned| == 1;
      }
    }
  }

  /** Once a stamp is positive, every later warning keeps its distance. */
  lemma {:induction false} SpacedFrom(warned: seq<nat>, i: nat, j: nat)
    requires SpacedBut0(warned) && i < j < |warned| && warned[i] > 0
    ensures warned[j] >= warned[i] + LOG_WINDOW_SECS
    decreases j
  {
    if i + 1 < j {
      SpacedFrom(warned, i, j - 1);
    }
    assert warned[j - 1 + 1] >= warned[j - 1] + LOG_WINDOW_SECS;
  }

  /**
   For every history of writes: the warnings of the current streak are all at least sixty seconds apart exactly
   when there are fewer than two refusals, or the first was past the epoch, or the second came sixty seconds in.
   */
  lemma WarningsSpaced(ops: seq<Op>)
    ensures Spaced(Observe(ops).warned)
       <==> Streak(ops) < 2 || ClockAt(ops, 0) > 0 || ClockAt(ops, 1) >= LOG_WINDOW_SECS
  {
    StreakAccounted(ops);
    var w := Observe(ops).warned;
    if Streak(ops) >= 2 {
      FirstWarnings(ops);
      if w[0] > 0 || w[1] >= LOG_WINDOW_SECS {
        forall i, j | 0 <= i < j < |w|
          ensures w[j] >= w[i] + LOG_WINDOW_SECS
        {
          LaterStamp(w, i, j);
        }
      }
    }
  }

  lemma LaterStamp(w: seq<nat>, i: nat, j: nat)
    requires SpacedBut0(w) && i < j < |w| && (w[0] > 0 || w[1] >= LOG_WINDOW_SECS)
    ensures w[j] >= w[i] + LOG_WINDOW_SECS
  {
    var first := if w[0] > 0 then 0 else 1;
    if first < i {
      SpacedFrom(w, first, i);
    }
    if first < j {
      SpacedFrom(w, first, j);
    }
    if first <= i {
      SpacedFrom(w, i, j);
    }
  }

  /** The stamp doubles as "never warned": a clock reading of zero lets the next refusal log at once. */
  lemma ZeroClockDefeatsWindow()
    ensures Observe([Refused(0), Refused(0)]).warned == [0, 0]
  {
    var ops := [Refused(0), Refused(0)];
    assert ops[..1] == [Refused(0)] && ops[..1][..0] == [];
    assert Observe(ops[..1]).warned == [] + [0];
  }

  /** An accepted write after a streak reports the whole streak, and the next refusal logs at once. */
  lemma RecoveryReportsStreak(ops: seq<Op>, now: nat)
    ensures Observe(ops + [Accepted]).recovered == if Streak(ops) == 0 then None else Some(Streak(ops))
    ensures Observe(ops + [Accepted] + [Refused(now)]).warned == [now]
  {
    StreakAccounted(ops);
    var up := ops + [Accepted];
    assert up[..|up| - 1] == ops;
    StreakAccounted(up);
    var down := up + [Refused(now)];
    assert down[..|down| - 1] == up;
  }
}
