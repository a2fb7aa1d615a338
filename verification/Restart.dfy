/** Restart assessment over parsed control entries (crates/eventstream-client/src/lib.rs). */
module Restart {
  import opened Text

  /** The fields of a gap marker the assessment reads. */
  datatype GapMarker = GapMarker(stream: string, id: string, action: string, generation: Option<string>)

  datatype BoundaryKind = Graceful | Uncertain

  datatype Boundary = Boundary(stream: string, id: string, previous: string, generation: string, kind: BoundaryKind)

  /** The generation a stream is in, and whether it has closed. */
  datatype Current = Current(generation: string, closed: bool)

  datatype Assessment = Assessment(state: map<string, Current>, out: seq<Boundary>)

  /** One turn of the source's loop. */
  function Step(a: Assessment, m: GapMarker): Assessment {
    if m.generation.None? then a
    else
      var g := m.generation.value;
      var known := m.stream in a.state;
      var changed := known && a.state[m.stream].generation != g;
      var out :=
        if changed && m.action == "loaded" then
          a.out + [Boundary(m.stream, m.id, a.state[m.stream].generation, g,
                            if a.state[m.stream].closed then Graceful else Uncertain)]
        else a.out;
      var current := if known && !changed then a.state[m.stream] else Current(g, false);
      var closing := if m.action == "unloading" then current.(closed := true) else current;
      Assessment(a.state[m.stream := closing], out)
  }

  function Fold(markers: seq<GapMarker>): Assessment
    decreases |markers|
  {
    if markers == [] then Assessment(map[], []) else Step(Fold(markers[..|markers| - 1]), markers[|markers| - 1])
  }

  function Assess(markers: seq<GapMarker>): seq<Boundary> {
    Fold(markers).out
  }

  /** `assess_restart_boundaries`: the loop with its mutable per-stream map. */
  method AssessRestartBoundaries(markers: seq<GapMarker>) returns (out: seq<Boundary>)
    ensures out == Assess(markers)
  {
    var state: map<string, Current> := map[];
    out := [];
    var i := 0;
    while i < |markers|
      invariant 0 <= i <= |markers|
      invariant Fold(markers[..i]) == Assessment(state, out)
    {
      var m := markers[i];
      assert markers[..i + 1][..i] == markers[..i];
      i := i + 1;
      if m.generation.None? {
        continue;
      }
      var g := m.generation.value;
      if m.stream !in state {
        state := state[m.stream := Current(g, false)];
      } else if state[m.stream].generation != g {
        if m.action == "loaded" {
          out := out + [Boundary(m.stream, m.id, state[m.stream].generation, g,
                                 if state[m.stream].closed then Graceful else Uncertain)];
        }
        state := state[m.stream := Current(g, false)];
      }
      if m.action == "unloading" {
        if m.stream in state && state[m.stream].generation == g {
          state := state[m.stream := state[m.stream].(closed := true)];
        }
      }
    }
    assert markers[..i] == markers;
  }

  // ---------------------------------------------------------------------------------------------
  // Streams are independent
  // ---------------------------------------------------------------------------------------------

  function OfStream(markers: seq<GapMarker>, stream: string): seq<GapMarker>
    decreases |markers|
  {
    if markers == [] then []
    else
      var m := markers[|markers| - 1];
      var rest := OfStream(markers[..|markers| - 1], stream);
      if m.stream == stream then rest + [m] else rest
  }

  function BoundariesOf(out: seq<Boundary>, stream: string): seq<Boundary>
    decreases |out|
  {
    if out == [] then []
    else
      var b := out[|out| - 1];
      var rest := BoundariesOf(out[..|out| - 1], stream);
      if b.stream == stream then rest + [b] else rest
  }

  lemma BoundariesPush(out: seq<Boundary>, b: Boundary, stream: string)
    ensures BoundariesOf(out + [b], stream) == BoundariesOf(out, stream) + if b.stream == stream then [b] else []
  {
    assert (out + [b])[..|out|] == out;
  }

  lemma FoldPush(markers: seq<GapMarker>, m: GapMarker)
    ensures Fold(markers + [m]) == Step(Fold(markers), m)
  {
    assert (markers + [m])[..|markers|] == markers;
  }

  /** `one` is what `all` knows about a single stream. */
  predicate Agree(all: Assessment, one: Assessment, stream: string) {
    && BoundariesOf(all.out, stream) == one.out
    && (stream in all.state <==> stream in one.state)
    && (stream in all.state ==> all.state[stream] == one.state[stream])
  }

  lemma StepAgrees(all: Assessment, one: Assessment, m: GapMarker, stream: string)
    requires Agree(all, one, stream)
    ensures Agree(Step(all, m), if m.stream == stream then Step(one, m) else one, stream)
  {
    if |Step(all, m).out| > |all.out| {
      BoundariesPush(all.out, Step(all, m).out[|all.out|], stream);
    }
  }

  /** Filtering the verdicts by stream is assessing that stream's markers alone. */
  lemma {:induction false} StreamsIndependent(markers: seq<GapMarker>, stream: string)
    ensures BoundariesOf(Assess(markers), stream) == Assess(OfStream(markers, stream))
    ensures Agree(Fold(markers), Fold(OfStream(markers, stream)), stream)
    decreases |markers|
  {
    if markers != [] {
      var before, m := markers[..|markers| - 1], markers[|markers| - 1];
      StreamsIndependent(before, stream);
      StepAgrees(Fold(before), Fold(OfStream(before, stream)), m, stream);
      FoldPush(OfStream(before, stream), m);
    }
  }

  // ---------------------------------------------------------------------------------------------
  // One stream: which markers are boundaries, for any log at all
  // ---------------------------------------------------------------------------------------------

  /** A log of one stream in which every marker carries a generation. */
  predicate Single(markers: seq<GapMarker>, stream: string) {
    forall i :: 0 <= i < |markers| ==> markers[i].stream == stream && markers[i].generation.Some?
  }

  /** Where the run of markers with the generation of marker `i` begins. */
  function RunStart(markers: seq<GapMarker>, i: nat): (k: nat)
    requires i < |markers|
    ensures k <= i
  {
    if i > 0 && markers[i - 1].generation == markers[i].generation then RunStart(markers, i - 1) else i
  }

  /** The run that ends at marker `i` holds an `unloading`. */
  ghost predicate Closed(markers: seq<GapMarker>, i: nat)
    requires i < |markers|
  {
    exists j :: RunStart(markers, i) <= j <= i && markers[j].action == "unloading"
  }

  /** Marker `i` opens a new generation with a `loaded`. */
  predicate IsBoundary(markers: seq<GapMarker>, i: nat)
    requires i < |markers|
  {
    i > 0 && markers[i].generation != markers[i - 1].generation && markers[i].action == "loaded"
  }

  ghost function BoundaryAt(markers: seq<GapMarker>, i: nat): Boundary
    requires i < |markers| && IsBoundary(markers, i)
    requires markers[i].generation.Some? && markers[i - 1].generation.Some?
  {
    Boundary(markers[i].stream, markers[i].id, markers[i - 1].generation.value, markers[i].generation.value,
             if Closed(markers, i - 1) then Graceful else Uncertain)
  }

  /** The boundaries of the first `n` markers, read off the log directly. */
  ghost function Boundaries(markers: seq<GapMarker>, stream: string, n: nat): seq<Boundary>
    requires n <= |markers| && Single(markers, stream)
  {
    if n == 0 then []
    else Boundaries(markers, stream, n - 1) + if IsBoundary(markers, n - 1) then [BoundaryAt(markers, n - 1)] else []
  }

  lemma ClosedExtends(markers: seq<GapMarker>, i: nat)
    requires 0 < i < |markers|
    ensures markers[i].generation == markers[i - 1].generation ==>
              (Closed(markers, i) <==> Closed(markers, i - 1) || markers[i].action == "unloading")
    ensures markers[i].generation != markers[i - 1].generation ==>
              (Closed(markers, i) <==> markers[i].action == "unloading")
  {
    if markers[i].generation == markers[i - 1].generation {
      assert RunStart(markers, i) == RunStart(markers, i - 1);
      assert Closed(markers, i - 1) ==> Closed(markers, i);
    }
  }

  /**
   For every log of a stream, well formed or not: a boundary at each `loaded` that changes generation
   and nowhere else, graceful exactly when the generation it ends wrote `unloading`.
   */
  lemma {:induction false} AssessExactly(markers: seq<GapMarker>, stream: string, n: nat)
    requires n <= |markers| && Single(markers, stream)
    ensures Fold(markers[..n]).out == Boundaries(markers, stream, n)
    ensures n == 0 ==> Fold(markers[..n]).state == map[]
    ensures n > 0 ==>
              Fold(markers[..n]).state
                == map[stream := Current(markers[n - 1].generation.value, Closed(markers, n - 1))]
  {
    if n > 0 {
      AssessExactly(markers, stream, n - 1);
      assert markers[..n][..n - 1] == markers[..n - 1];
      if n > 1 {
        ClosedExtends(markers, n - 1);
      }
    }
  }

  /** Markers without a generation never matter. */
  function WithGeneration(markers: seq<GapMarker>): seq<GapMarker>
    decreases |markers|
  {
    if markers == [] then []
    else
      var m := markers[|markers| - 1];
      WithGeneration(markers[..|markers| - 1]) + if m.generation.Some? then [m] else []
  }

  lemma {:induction false} LegacyMarkersIgnored(markers: seq<GapMarker>)
    ensures Fold(markers) == Fold(WithGeneration(markers))
    decreases |markers|
  {
    if markers != [] {
      var m := markers[|markers| - 1];
      LegacyMarkersIgnored(markers[..|markers| - 1]);
      if m.generation.Some? {
        FoldPush(WithGeneration(markers[..|markers| - 1]), m);
      } else {
        assert WithGeneration(markers) == WithGeneration(markers[..|markers| - 1]);
      }
    }
  }

  lemma {:induction false} FilteredIsSingle(markers: seq<GapMarker>, stream: string)
    ensures forall i :: 0 <= i < |OfStream(markers, stream)| ==> OfStream(markers, stream)[i].stream == stream
    decreases |markers|
  {
    if markers != [] {
      FilteredIsSingle(markers[..|markers| - 1], stream);
    }
  }

  lemma {:induction false} WithGenerationKeeps(markers: seq<GapMarker>, stream: string)
    requires forall i :: 0 <= i < |markers| ==> markers[i].stream == stream
    ensures Single(WithGeneration(markers), stream)
    decreases |markers|
  {
    if markers != [] {
      WithGenerationKeeps(markers[..|markers| - 1], stream);
    }
  }

  /** The verdicts on one stream, read directly off that stream's own generation-bearing markers. */
  lemma VerdictsOfStream(markers: seq<GapMarker>, stream: string)
    ensures var log := WithGeneration(OfStream(markers, stream));
            && Single(log, stream)
            && BoundariesOf(Assess(markers), stream) == Boundaries(log, stream, |log|)
  {
    var mine := OfStream(markers, stream);
    var log := WithGeneration(mine);
    FilteredIsSingle(markers, stream);
    WithGenerationKeeps(mine, stream);
    StreamsIndependent(markers, stream);
    LegacyMarkersIgnored(mine);
    AssessExactly(log, stream, |log|);
    assert log[..|log|] == log;
  }

  // ---------------------------------------------------------------------------------------------
  // Well-formed logs: one boundary per restart
  // ---------------------------------------------------------------------------------------------

  /** Every change of generation is a `loaded`, and nothing of a generation follows its `unloading`. */
  predicate WellFormed(markers: seq<GapMarker>) {
    && (forall i :: 0 < i < |markers| ==>
          (markers[i].generation != markers[i - 1].generation ==> markers[i].action == "loaded"))
    && (forall i :: 0 < i < |markers| && markers[i - 1].action == "unloading" ==>
          markers[i].generation != markers[i - 1].generation)
  }

  /** How many times the generation changes. */
  function Restarts(markers: seq<GapMarker>, n: nat): nat
    requires n <= |markers|
  {
    if n <= 1 then 0
    else Restarts(markers, n - 1) + if markers[n - 1].generation != markers[n - 2].generation then 1 else 0
  }

  lemma {:induction false} ClosedIsLast(markers: seq<GapMarker>, i: nat)
    requires WellFormed(markers) && i < |markers|
    ensures Closed(markers, i) <==> markers[i].action == "unloading"
  {
    if i > 0 {
      ClosedIsLast(markers, i - 1);
      ClosedExtends(markers, i);
    }
  }

  /** On a well-formed log each restart yields exactly one boundary, graceful iff the last marker before it closed. */
  lemma {:induction false} OneBoundaryPerRestart(markers: seq<GapMarker>, stream: string, n: nat)
    requires n <= |markers| && Single(markers, stream) && WellFormed(markers)
    ensures |Boundaries(markers, stream, n)| == Restarts(markers, n)
    ensures n > 1 && markers[n - 1].generation != markers[n - 2].generation ==>
              var b := Boundaries(markers, stream, n);
              b == Boundaries(markers, stream, n - 1)
                   + [Boundary(stream, markers[n - 1].id, markers[n - 2].generation.value,
                               markers[n - 1].generation.value,
                               if markers[n - 2].action == "unloading" then Graceful else Uncertain)]
  {
    if n > 0 {
      OneBoundaryPerRestart(markers, stream, n - 1);
      if n > 1 {
        ClosedIsLast(markers, n - 2);
      }
    }
  }
}
