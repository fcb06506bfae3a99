// The pause bits, the generation counter and the shutdown flag that gate every
// new-order write: first as a sequential object, then at the grain of its
// atomic operations, where a reader's three loads interleave with a writer.
module ExecutionState {
  import opened Orders

  datatype Exec = Exec(pauses: set<PauseReason>, generation: nat, shutdown: bool) {

    predicate Permits(tag: nat) {
      !shutdown && pauses == {} && tag == generation
    }

    function SetPause(reason: PauseReason): Exec {
      if reason in pauses then this else Exec(pauses + {reason}, generation + 1, shutdown)
    }

    function ClearPause(reason: PauseReason): Exec {
      this.(pauses := pauses - {reason})
    }

    function Stop(): Exec {
      Exec(pauses, generation + 1, true)
    }
  }

  /** The shared object. The bitfield is kept as the set of reasons whose bit is one. */
  class ExecutionState {
    var pauseReasons: set<PauseReason>
    var generation: nat
    var shutdown: bool

    constructor ()
      ensures Model() == Exec({}, 0, false)
    {
      pauseReasons, generation, shutdown := {}, 0, false;
    }

    function Model(): Exec
      reads this
    {
      Exec(pauseReasons, generation, shutdown)
    }

    method Permits(tag: nat) returns (ok: bool)
      ensures ok == Model().Permits(tag)
      ensures ok <==> !shutdown && pauseReasons == {} && generation == tag
    {
      ok := !shutdown;
      ok := ok && pauseReasons == {};
      ok := ok && tag == generation;
    }

    method SetPauseReason(reason: PauseReason)
      modifies this
      ensures Model() == old(Model()).SetPause(reason)
      ensures pauseReasons == old(pauseReasons) + {reason} && shutdown == old(shutdown)
      ensures generation == old(generation) + (if reason in old(pauseReasons) then 0 else 1)
    {
      var before := pauseReasons;
      pauseReasons := before + {reason};
      if reason !in before {
        generation := generation + 1;
      } else {
        assert before + {reason} == before;
      }
    }

    method ClearPauseReason(reason: PauseReason)
      modifies this
      ensures Model() == old(Model()).ClearPause(reason)
      ensures pauseReasons == old(pauseReasons) - {reason} && shutdown == old(shutdown)
      ensures generation == old(generation)
    {
      pauseReasons := pauseReasons - {reason};
    }

    method Shutdown()
      modifies this
      ensures Model() == old(Model()).Stop()
      ensures shutdown && pauseReasons == old(pauseReasons) && generation == old(generation) + 1
    {
      shutdown := true;
      generation := generation + 1;
    }
  }

  // ------------------------------------------------------------------------
  // Atomic operations. The event loop is the only writer. Newly setting a bit
  // (or the shutdown flag) and bumping the generation are two separate steps.
  // ------------------------------------------------------------------------

  datatype Cell = Cell(exec: Exec, bumpDue: bool)

  datatype WriterStep =
    FetchOr(reason: PauseReason) | FetchAdd | FetchAnd(reason: PauseReason) | StoreShutdown | NoWrite

  ghost predicate WriterTakes(c: Cell, step: WriterStep, d: Cell) {
    match step
    case FetchOr(r) =>
      && !c.bumpDue
      && d == Cell(c.exec.(pauses := c.exec.pauses + {r}), r !in c.exec.pauses)
    case FetchAdd =>
      && c.bumpDue
      && d == Cell(c.exec.(generation := c.exec.generation + 1), false)
    case FetchAnd(r) =>
      && !c.bumpDue
      && d == Cell(c.exec.ClearPause(r), false)
    case StoreShutdown =>
      && !c.bumpDue
      && d == Cell(c.exec.(shutdown := true), true)
    case NoWrite => d == c
  }

  ghost predicate WriterRun(cells: seq<Cell>, steps: seq<WriterStep>) {
    && |cells| == |steps| + 1
    && forall n :: 0 <= n < |steps| ==> WriterTakes(cells[n], steps[n], cells[n + 1])
  }

  /** One evaluation of `permits(tag)` whose three loads happen at i <= j <= k. */
  ghost predicate Evaluates(cells: seq<Cell>, tag: nat, i: nat, j: nat, k: nat)
    requires i <= j <= k < |cells|
  {
    && !cells[i].exec.shutdown
    && cells[j].exec.pauses == {}
    && cells[k].exec.generation == tag
  }

  lemma {:induction false} GenerationNeverFalls(cells: seq<Cell>, steps: seq<WriterStep>, m: nat, n: nat)
    requires WriterRun(cells, steps) && m <= n < |cells|
    ensures cells[m].exec.generation <= cells[n].exec.generation
    decreases n - m
  {
    if m < n {
      GenerationNeverFalls(cells, steps, m, n - 1);
      assert WriterTakes(cells[n - 1], steps[n - 1], cells[n]);
    }
  }

  /** After a bit is newly set the old generation survives only while that bit
      is still up, because the writer must bump before it can clear anything. */
  lemma {:induction false} PausedUntilBumped(cells: seq<Cell>, steps: seq<WriterStep>, n: nat, reason: PauseReason,
                                             m: nat)
    requires WriterRun(cells, steps) && n < |steps|
    requires steps[n] == FetchOr(reason) && reason !in cells[n].exec.pauses
    requires n + 1 <= m < |cells|
    ensures cells[m].exec.generation > cells[n].exec.generation || (cells[m].bumpDue && reason in cells[m].exec.pauses)
    decreases m
  {
    assert WriterTakes(cells[n], steps[n], cells[n + 1]);
    if m > n + 1 {
      PausedUntilBumped(cells, steps, n, reason, m - 1);
      assert WriterTakes(cells[m - 1], steps[m - 1], cells[m]);
      GenerationNeverFalls(cells, steps, n, m - 1);
    }
  }

  /** Stale generations stay dead: no evaluation that starts after a bit was
      newly set can succeed for a tag issued before, however the later bump,
      clears and re-sets interleave with its three loads. */
  lemma {:induction false} StaleTagStaysDead(
    cells: seq<Cell>, steps: seq<WriterStep>, n: nat, reason: PauseReason, tag: nat, i: nat, j: nat, k: nat)
    requires WriterRun(cells, steps) && n < |steps|
    requires steps[n] == FetchOr(reason) && reason !in cells[n].exec.pauses
    requires tag <= cells[n].exec.generation
    requires n + 1 <= i <= j <= k < |cells|
    ensures !Evaluates(cells, tag, i, j, k)
  {
    PausedUntilBumped(cells, steps, n, reason, j);
    GenerationNeverFalls(cells, steps, j, k);
  }

  /** Shutdown has the same effect without any bit: its flag is never lowered. */
  lemma {:induction false} ShutdownIsForever(cells: seq<Cell>, steps: seq<WriterStep>, n: nat, tag: nat, i: nat, j: nat,
                                             k: nat)
    requires WriterRun(cells, steps) && n <= i <= j <= k < |cells|
    requires cells[n].exec.shutdown
    ensures !Evaluates(cells, tag, i, j, k)
    decreases i
  {
    if n < i {
      assert WriterTakes(cells[i - 1], steps[i - 1], cells[i]);
      if Evaluates(cells, tag, i, j, k) {
        ShutdownIsForever(cells, steps, n, tag, i - 1, j, k);
      }
    }
  }

  lemma {:induction false} PausedWhileGenerationHolds(cells: seq<Cell>, steps: seq<WriterStep>, t: nat, m: nat)
    requires WriterRun(cells, steps) && t <= m < |cells|
    requires cells[t].exec.pauses == {} && !cells[t].bumpDue
    ensures cells[m].exec.generation > cells[t].exec.generation || cells[m].exec.pauses == {} || cells[m].bumpDue
    decreases m
  {
    if t < m {
      PausedWhileGenerationHolds(cells, steps, t, m - 1);
      GenerationNeverFalls(cells, steps, t, m - 1);
      assert WriterTakes(cells[m - 1], steps[m - 1], cells[m]);
    }
  }

  lemma {:induction false} BumpPrecedesClear(cells: seq<Cell>, steps: seq<WriterStep>, i: nat, j: nat)
    requires WriterRun(cells, steps) && i <= j < |cells|
    requires cells[i].bumpDue && cells[i].exec.pauses != {}
    ensures cells[j].exec.generation > cells[i].exec.generation || (cells[j].bumpDue && cells[j].exec.pauses != {})
    decreases j
  {
    if i < j {
      BumpPrecedesClear(cells, steps, i, j - 1);
      GenerationNeverFalls(cells, steps, i, j - 1);
      assert WriterTakes(cells[j - 1], steps[j - 1], cells[j]);
    }
  }

  /** An evaluation that succeeds for a tag taken while trading was permitted
      takes effect at its first load: all three conditions hold there at once.
      This is what lets the protocol treat `permits` as one atomic check. */
  lemma {:induction false} PermitsIsAtomic(cells: seq<Cell>, steps: seq<WriterStep>, t: nat, i: nat, j: nat, k: nat)
    requires WriterRun(cells, steps) && t <= i <= j <= k < |cells|
    requires cells[t].exec.pauses == {} && !cells[t].bumpDue
    requires Evaluates(cells, cells[t].exec.generation, i, j, k)
    ensures cells[i].exec.Permits(cells[t].exec.generation)
  {
    GenerationNeverFalls(cells, steps, t, i);
    GenerationNeverFalls(cells, steps, i, j);
    GenerationNeverFalls(cells, steps, j, k);
    PausedWhileGenerationHolds(cells, steps, t, i);
    if cells[i].exec.pauses != {} {
      BumpPrecedesClear(cells, steps, i, j);
    }
  }
}
