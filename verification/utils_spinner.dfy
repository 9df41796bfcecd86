/** The multi-stage progress indicator of src/utils/spinner.rs. The line a
    method would print is returned instead: the stage it names, if the
    position is still inside the list. Terminal escapes and colours are
    not modelled. */
module Spinner {
  import opened Wrappers

  class StageProgress {
    var stages: seq<string>
    var current: nat

    /** `StageProgress::new`: positioned on the first stage. */
    constructor(stages: seq<string>)
      ensures this.stages == stages && current == 0
    {
      this.stages := stages;
      current := 0;
    }

    /** The stage at the current position, when there is one; this is the
        stage every method prints about. */
    function Shown(): (s: Option<string>)
      reads this
      ensures s.Some? <==> current < |stages|
      ensures s.Some? ==> s.value == stages[current]
    {
      if current < |stages| then Some(stages[current]) else None
    }

    /** `start`: announces the current stage and moves nowhere. */
    method Start() returns (shown: Option<string>)
      ensures shown.Some? <==> current < |stages|
      ensures shown.Some? ==> shown.value == stages[current]
    {
      shown := Shown();
    }

    /** `complete`: reports the current stage done and moves past it, even
        when the position is already past the end. */
    method Complete() returns (shown: Option<string>)
      modifies this
      ensures current == old(current) + 1 && stages == old(stages)
      ensures shown == old(Shown())
    {
      shown := Shown();
      current := current + 1;
    }

    /** `fail`: reports the current stage failed with `error`; the
        position stays. */
    method Fail(error: string) returns (shown: Option<(string, string)>)
      ensures shown.Some? <==> current < |stages|
      ensures shown.Some? ==> shown.value == (stages[current], error)
    {
      shown := if current < |stages| then Some((stages[current], error)) else None;
    }

    /** `skip`: reports the current stage skipped and moves past it. */
    method Skip() returns (shown: Option<string>)
      modifies this
      ensures current == old(current) + 1 && stages == old(stages)
      ensures shown == old(Shown())
    {
      shown := Shown();
      current := current + 1;
    }

    /** `is_complete`: the position has reached the end of the list. */
    function IsComplete(): (done: bool)
      reads this
      ensures done <==> Shown().None?
    {
      current >= |stages|
    }
  }

  /** A fresh progress over `stages` completed `k` times is complete
      exactly when `k` reaches the number of stages, and every completion
      before that reported the next stage in order. */
  method CompleteTimes(stages: seq<string>, k: nat) returns (done: bool, reported: seq<string>)
    ensures done <==> k >= |stages|
    ensures reported == if k <= |stages| then stages[..k] else stages
  {
    var progress := new StageProgress(stages);
    reported := [];
    var i := 0;
    while i < k
      invariant 0 <= i <= k
      invariant progress.stages == stages && progress.current == i
      invariant reported == if i <= |stages| then stages[..i] else stages
    {
      var shown := progress.Complete();
      if shown.Some? {
        assert stages[..i + 1] == stages[..i] + [stages[i]];
        reported := reported + [shown.value];
      }
      i := i + 1;
    }
    done := progress.IsComplete();
  }
}
