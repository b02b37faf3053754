/** The early-stopping monitor of the training loop: it keeps the best
    validation loss seen, counts calls without improvement, raises a stop flag
    once patience runs out, and writes a checkpoint on every improvement. */
module EarlyStop {

  /** A validation loss as the monitor stores it: `float("inf")` before the
      first improvement, a finite number afterwards. */
  datatype Loss = Finite(value: real) | Infinity

  /** `a <= b` between stored losses, with +inf above every finite loss. */
  predicate AtMost(a: Loss, b: Loss) {
    b.Infinity? || (a.Finite? && a.value <= b.value)
  }

  /** `val_loss < best_loss - min_delta`; against +inf every finite loss
      improves. */
  predicate Improves(valLoss: real, best: Loss, minDelta: real) {
    best.Infinity? || valLoss < best.value - minDelta
  }

  /** The three fields the monitor updates. */
  datatype Tracker = Tracker(bestLoss: Loss, counter: nat, earlyStop: bool)

  /** The fields right after construction. */
  const INITIAL := Tracker(Infinity, 0, false)

  /** One call: an improvement records the loss and resets the counter; any
      other call bumps the counter and raises the flag once it reaches the
      patience. The flag is never lowered. */
  function Step(t: Tracker, valLoss: real, patience: int, minDelta: real): (t': Tracker) {
    if Improves(valLoss, t.bestLoss, minDelta) then Tracker(Finite(valLoss), 0, t.earlyStop)
    else Tracker(t.bestLoss, t.counter + 1, t.earlyStop || t.counter + 1 >= patience)
  }

  /** The fields after the given sequence of calls. */
  function Run(losses: seq<real>, patience: int, minDelta: real): (t: Tracker) {
    if |losses| == 0 then INITIAL
    else Step(Run(losses[..|losses| - 1], patience, minDelta), losses[|losses| - 1], patience, minDelta)
  }

  /** Call `i` of the sequence was an improvement. */
  predicate Improved(losses: seq<real>, i: int, patience: int, minDelta: real)
    requires 0 <= i < |losses|
  {
    Improves(losses[i], Run(losses[..i], patience, minDelta).bestLoss, minDelta)
  }

  /** The indices of the improving calls, in call order: the calls that
      write a checkpoint. */
  function ImprovingCalls(losses: seq<real>, patience: int, minDelta: real): seq<nat> {
    if |losses| == 0 then []
    else
      var n := |losses|;
      ImprovingCalls(losses[..n - 1], patience, minDelta)
        + (if Improved(losses, n - 1, patience, minDelta) then [n - 1] else [])
  }

  // ---------------------------------------------------------------------------
  // Prefix helpers
  // ---------------------------------------------------------------------------

  lemma {:induction false} RunPrefix(losses: seq<real>, i: int, patience: int, minDelta: real)
    requires 0 <= i < |losses|
    ensures Run(losses[..i + 1], patience, minDelta) ==
      Step(Run(losses[..i], patience, minDelta), losses[i], patience, minDelta)
  {
    assert losses[..i + 1][..i] == losses[..i];
  }

  lemma {:induction false} ImprovedPrefix(losses: seq<real>, m: int, i: int, patience: int, minDelta: real)
    requires 0 <= i < m <= |losses|
    ensures Improved(losses[..m], i, patience, minDelta) == Improved(losses, i, patience, minDelta)
  {
    assert losses[..m][..i] == losses[..i];
  }

  // ---------------------------------------------------------------------------
  // Properties of a run
  // ---------------------------------------------------------------------------

  /** The first call always improves, since the best loss starts at +inf. */
  lemma {:induction false} FirstCallImproves(losses: seq<real>, patience: int, minDelta: real)
    requires |losses| > 0
    ensures Improved(losses, 0, patience, minDelta)
    ensures Run(losses[..1], patience, minDelta) == Tracker(Finite(losses[0]), 0, false)
  {
    assert losses[..0] == [];
    RunPrefix(losses, 0, patience, minDelta);
  }

  /** The counter is the number of calls since the last improvement (or
      since construction): the last `counter` calls did not improve, and the
      call just before them did. */
  lemma {:induction false} CounterCountsMisses(losses: seq<real>, patience: int, minDelta: real)
    ensures var n, k := |losses|, Run(losses, patience, minDelta).counter;
      && k <= n
      && (forall i :: n - k <= i < n ==> !Improved(losses, i, patience, minDelta))
      && (k < n ==> Improved(losses, n - k - 1, patience, minDelta))
  {
    if |losses| > 0 {
      var n := |losses|;
      var init := losses[..n - 1];
      CounterCountsMisses(init, patience, minDelta);
      assert losses[..n - 1] == init;
      forall i | 0 <= i < n - 1 ensures Improved(init, i, patience, minDelta) == Improved(losses, i, patience, minDelta) {
        ImprovedPrefix(losses, n - 1, i, patience, minDelta);
      }
    }
  }

  /** The best loss is +inf only before the first call; afterwards it is the
      loss of the last improving call, `counter` calls back. */
  lemma {:induction false} BestIsLastImprovement(losses: seq<real>, patience: int, minDelta: real)
    ensures Run(losses, patience, minDelta).bestLoss.Infinity? <==> |losses| == 0
    ensures |losses| > 0 ==>
      && Run(losses, patience, minDelta).counter < |losses|
      && Run(losses, patience, minDelta).bestLoss == Finite(losses[|losses| - 1 - Run(losses, patience, minDelta).counter])
  {
    if |losses| > 0 {
      var n := |losses|;
      var init := losses[..n - 1];
      BestIsLastImprovement(init, patience, minDelta);
      if |init| > 0 {
        var c := Run(init, patience, minDelta).counter;
        assert init[n - 2 - c] == losses[n - 2 - c];
      }
    }
  }

  lemma StepLowersBest(t: Tracker, valLoss: real, patience: int, minDelta: real)
    requires minDelta >= 0.0
    ensures AtMost(Step(t, valLoss, patience, minDelta).bestLoss, t.bestLoss)
  {
  }

  /** With a non-negative margin the best loss never increases from one
      point of the run to a later one. */
  lemma {:induction false} BestNeverIncreases(losses: seq<real>, i: int, j: int, patience: int, minDelta: real)
    requires minDelta >= 0.0
    requires 0 <= i <= j <= |losses|
    ensures AtMost(Run(losses[..j], patience, minDelta).bestLoss, Run(losses[..i], patience, minDelta).bestLoss)
  {
    if i < j {
      BestNeverIncreases(losses, i, j - 1, patience, minDelta);
      RunPrefix(losses, j - 1, patience, minDelta);
      StepLowersBest(Run(losses[..j - 1], patience, minDelta), losses[j - 1], patience, minDelta);
    }
  }

  /** A negative margin breaks that: a worse loss can still count as an
      improvement and raise the best loss. */
  lemma NegativeMarginRaisesBest()
    ensures Run([1.0, 1.5], 5, -1.0).bestLoss == Finite(1.5)
  {
    assert [1.0, 1.5][..1] == [1.0];
    assert [1.0][..0] == [];
  }

  /** Once raised, the stop flag stays raised, improvements included. */
  lemma {:induction false} EarlyStopSticky(losses: seq<real>, i: int, j: int, patience: int, minDelta: real)
    requires 0 <= i <= j <= |losses|
    requires Run(losses[..i], patience, minDelta).earlyStop
    ensures Run(losses[..j], patience, minDelta).earlyStop
  {
    if i < j {
      EarlyStopSticky(losses, i, j - 1, patience, minDelta);
      RunPrefix(losses, j - 1, patience, minDelta);
    }
  }

  /** Call `i` did not improve and brought the counter to the patience. */
  predicate ExhaustsPatience(losses: seq<real>, i: int, patience: int, minDelta: real)
    requires 0 <= i < |losses|
  {
    !Improved(losses, i, patience, minDelta) && Run(losses[..i + 1], patience, minDelta).counter >= patience
  }

  lemma {:induction false} ExhaustsPatiencePrefix(losses: seq<real>, m: int, i: int, patience: int, minDelta: real)
    requires 0 <= i < m <= |losses|
    ensures ExhaustsPatience(losses[..m], i, patience, minDelta) == ExhaustsPatience(losses, i, patience, minDelta)
  {
    ImprovedPrefix(losses, m, i, patience, minDelta);
    assert losses[..m][..i + 1] == losses[..i + 1];
  }

  /** The stop flag is up exactly when some non-improving call brought the
      counter to the patience. */
  lemma {:induction false} EarlyStopIffPatienceExhausted(losses: seq<real>, patience: int, minDelta: real)
    ensures Run(losses, patience, minDelta).earlyStop <==>
      exists i :: 0 <= i < |losses| && ExhaustsPatience(losses, i, patience, minDelta)
  {
    if |losses| > 0 {
      var n := |losses|;
      var init := losses[..n - 1];
      EarlyStopIffPatienceExhausted(init, patience, minDelta);
      assert losses[..n] == losses;
      assert ExhaustsPatience(losses, n - 1, patience, minDelta) <==>
        !Improves(losses[n - 1], Run(init, patience, minDelta).bestLoss, minDelta)
        && Run(init, patience, minDelta).counter + 1 >= patience;
      forall i | 0 <= i < n - 1
        ensures ExhaustsPatience(init, i, patience, minDelta) == ExhaustsPatience(losses, i, patience, minDelta)
      {
        ExhaustsPatiencePrefix(losses, n - 1, i, patience, minDelta);
      }
    }
  }

  /** Each recorded index is an improving call, and the indices increase. */
  lemma {:induction false} ImprovingCallsAreImprovements(losses: seq<real>, patience: int, minDelta: real)
    ensures forall k :: 0 <= k < |ImprovingCalls(losses, patience, minDelta)| ==>
      && ImprovingCalls(losses, patience, minDelta)[k] < |losses|
      && Improved(losses, ImprovingCalls(losses, patience, minDelta)[k], patience, minDelta)
    ensures forall k, l :: 0 <= k < l < |ImprovingCalls(losses, patience, minDelta)| ==>
      ImprovingCalls(losses, patience, minDelta)[k] < ImprovingCalls(losses, patience, minDelta)[l]
  {
    if |losses| > 0 {
      var n := |losses|;
      var init := losses[..n - 1];
      ImprovingCallsAreImprovements(init, patience, minDelta);
      var ic0 := ImprovingCalls(init, patience, minDelta);
      forall k | 0 <= k < |ic0| ensures ic0[k] < n - 1 && Improved(losses, ic0[k], patience, minDelta) {
        ImprovedPrefix(losses, n - 1, ic0[k], patience, minDelta);
      }
    }
  }

  /** Every improving call is recorded. */
  lemma {:induction false} ImprovingCallsComplete(losses: seq<real>, patience: int, minDelta: real)
    ensures forall i :: 0 <= i < |losses| && Improved(losses, i, patience, minDelta) ==>
      i in ImprovingCalls(losses, patience, minDelta)
  {
    if |losses| > 0 {
      var n := |losses|;
      var init := losses[..n - 1];
      ImprovingCallsComplete(init, patience, minDelta);
      forall i | 0 <= i < n - 1 && Improved(losses, i, patience, minDelta)
        ensures i in ImprovingCalls(init, patience, minDelta)
      {
        ImprovedPrefix(losses, n - 1, i, patience, minDelta);
      }
    }
  }

  /** Some checkpoint was written exactly when there was some call, and the
      best loss is the loss of the last checkpointed call. */
  lemma {:induction false} LastCheckpointHoldsBest(losses: seq<real>, patience: int, minDelta: real)
    ensures |ImprovingCalls(losses, patience, minDelta)| == 0 <==> |losses| == 0
    ensures |ImprovingCalls(losses, patience, minDelta)| > 0 ==>
      var last := ImprovingCalls(losses, patience, minDelta)[|ImprovingCalls(losses, patience, minDelta)| - 1];
      last < |losses| && Run(losses, patience, minDelta).bestLoss == Finite(losses[last])
  {
    if |losses| > 0 {
      var n := |losses|;
      var init := losses[..n - 1];
      LastCheckpointHoldsBest(init, patience, minDelta);
      var ic0 := ImprovingCalls(init, patience, minDelta);
      if |ic0| > 0 {
        assert init[ic0[|ic0| - 1]] == losses[ic0[|ic0| - 1]];
      } else {
        assert init == [];
      }
    }
  }

  /** The calls at the indices `ic` come in increasing order within
      `losses`, and each of their losses is below the previous one by more
      than the margin. */
  predicate DecreasingCheckpoints(losses: seq<real>, ic: seq<nat>, minDelta: real) {
    forall k :: 0 < k < |ic| ==> ic[k - 1] < ic[k] < |losses| && losses[ic[k]] < losses[ic[k - 1]] - minDelta
  }

  lemma DecreasingExtends(init: seq<real>, losses: seq<real>, ic: seq<nat>, minDelta: real)
    requires |init| <= |losses| && init == losses[..|init|]
    requires DecreasingCheckpoints(init, ic, minDelta)
    ensures DecreasingCheckpoints(losses, ic, minDelta)
  {
    forall k | 0 < k < |ic| ensures ic[k - 1] < ic[k] < |losses| && losses[ic[k]] < losses[ic[k - 1]] - minDelta {
      assert losses[ic[k]] == init[ic[k]] && losses[ic[k - 1]] == init[ic[k - 1]];
    }
  }

  lemma DecreasingSnoc(losses: seq<real>, ic: seq<nat>, j: nat, minDelta: real)
    requires DecreasingCheckpoints(losses, ic, minDelta)
    requires j < |losses|
    requires |ic| > 0 ==> ic[|ic| - 1] < j && losses[j] < losses[ic[|ic| - 1]] - minDelta
    ensures DecreasingCheckpoints(losses, ic + [j], minDelta)
  {
    var ic' := ic + [j];
    forall k | 0 < k < |ic'| ensures ic'[k - 1] < ic'[k] < |losses| && losses[ic'[k]] < losses[ic'[k - 1]] - minDelta {
      if k < |ic| {
        assert ic'[k] == ic[k] && ic'[k - 1] == ic[k - 1];
      }
    }
  }

  /** Each checkpointed loss is below the previous one by more than the margin. */
  lemma {:induction false} CheckpointedLossesDecrease(losses: seq<real>, patience: int, minDelta: real)
    ensures DecreasingCheckpoints(losses, ImprovingCalls(losses, patience, minDelta), minDelta)
  {
    if |losses| > 0 {
      var n := |losses|;
      var init := losses[..n - 1];
      CheckpointedLossesDecrease(init, patience, minDelta);
      var ic0 := ImprovingCalls(init, patience, minDelta);
      var ic := ImprovingCalls(losses, patience, minDelta);
      DecreasingExtends(init, losses, ic0, minDelta);
      if Improved(losses, n - 1, patience, minDelta) {
        assert ic == ic0 + [n - 1];
        if |ic0| > 0 {
          LastCheckpointHoldsBest(init, patience, minDelta);
          assert losses[..n - 1] == init;
          assert losses[ic0[|ic0| - 1]] == init[ic0[|ic0| - 1]];
        }
        DecreasingSnoc(losses, ic0, n - 1, minDelta);
      } else {
        assert ic == ic0;
      }
    }
  }

  /** With a non-negative margin, every loss seen is at least the best loss
      minus the margin. */
  lemma {:induction false} BestWithinMarginOfEveryLoss(losses: seq<real>, patience: int, minDelta: real)
    requires minDelta >= 0.0
    requires |losses| > 0
    ensures Run(losses, patience, minDelta).bestLoss.Finite?
    ensures forall i :: 0 <= i < |losses| ==> Run(losses, patience, minDelta).bestLoss.value - minDelta <= losses[i]
  {
    BestIsLastImprovement(losses, patience, minDelta);
    var n := |losses|;
    var init := losses[..n - 1];
    if n > 1 {
      BestWithinMarginOfEveryLoss(init, patience, minDelta);
      StepLowersBest(Run(init, patience, minDelta), losses[n - 1], patience, minDelta);
      forall i | 0 <= i < n - 1 ensures losses[i] == init[i] {
      }
    }
  }

  /** Without a margin the best loss is the minimum of all losses seen. */
  lemma {:induction false} BestIsMinimumWithoutMargin(losses: seq<real>, patience: int)
    requires |losses| > 0
    ensures Run(losses, patience, 0.0).bestLoss.Finite?
    ensures Run(losses, patience, 0.0).bestLoss.value in losses
    ensures forall i :: 0 <= i < |losses| ==> Run(losses, patience, 0.0).bestLoss.value <= losses[i]
  {
    BestIsLastImprovement(losses, patience, 0.0);
    BestWithinMarginOfEveryLoss(losses, patience, 0.0);
  }

  // ---------------------------------------------------------------------------
  // The monitor object
  // ---------------------------------------------------------------------------

  /** One more call: the fields take one `Step`, and one more checkpoint is
      written exactly when that call improves. */
  lemma {:induction false} RunSnoc(losses: seq<real>, v: real, patience: int, minDelta: real)
    ensures Run(losses + [v], patience, minDelta) == Step(Run(losses, patience, minDelta), v, patience, minDelta)
    ensures |ImprovingCalls(losses + [v], patience, minDelta)| ==
      |ImprovingCalls(losses, patience, minDelta)| + (if Improves(v, Run(losses, patience, minDelta).bestLoss, minDelta) then 1 else 0)
  {
    var h := losses + [v];
    assert h[..|h| - 1] == losses;
  }

  /** One `torch.save(ckpt, path)` call. */
  datatype SaveEvent<V> = SaveEvent(path: string, checkpoint: map<string, V>)

  const DEFAULT_PATIENCE: int := 5
  /** `1e-4`. */
  const DEFAULT_MIN_DELTA: real := 0.0001

  /** `EarlyStopping`. `V` stands for whatever the checkpoint dictionary
      holds (the model's state dict and the caller's extra entries). */
  class EarlyStopping<V> {
    const checkpointPath: string
    const patience: int
    const minDelta: real
    const verbose: bool

    var bestLoss: Loss
    var counter: nat
    var earlyStop: bool

    /** The checkpoints written so far, oldest first. */
    var saved: seq<SaveEvent<V>>
    /** The validation losses passed so far, oldest first. */
    ghost var history: seq<real>

    /** The fields are those of a run over the history, and one checkpoint
        was written, to the monitor's path, per improving call. */
    ghost predicate Valid()
      reads this
    {
      && Tracker(bestLoss, counter, earlyStop) == Run(history, patience, minDelta)
      && |saved| == |ImprovingCalls(history, patience, minDelta)|
      && (forall k :: 0 <= k < |saved| ==> saved[k].path == checkpointPath)
    }

    /** `__init__`. */
    constructor (checkpointPath: string, patience: int, minDelta: real, verbose: bool)
      ensures this.checkpointPath == checkpointPath && this.patience == patience
      ensures this.minDelta == minDelta && this.verbose == verbose
      ensures bestLoss == Infinity && counter == 0 && !earlyStop
      ensures saved == [] && history == []
      ensures Valid()
    {
      this.checkpointPath := checkpointPath;
      this.patience := patience;
      this.minDelta := minDelta;
      this.verbose := verbose;
      bestLoss := Infinity;
      counter := 0;
      earlyStop := false;
      saved := [];
      history := [];
    }

    /** `__init__` with the default patience, margin and verbosity. */
    constructor WithDefaults(checkpointPath: string)
      ensures this.checkpointPath == checkpointPath && patience == DEFAULT_PATIENCE
      ensures minDelta == DEFAULT_MIN_DELTA && verbose
      ensures bestLoss == Infinity && counter == 0 && !earlyStop
      ensures saved == [] && history == []
      ensures Valid()
    {
      this.checkpointPath := checkpointPath;
      patience := DEFAULT_PATIENCE;
      minDelta := DEFAULT_MIN_DELTA;
      verbose := true;
      bestLoss := Infinity;
      counter := 0;
      earlyStop := false;
      saved := [];
      history := [];
    }

    /** `__call__`: an improvement records the loss, resets the counter and
        writes `{"model_state": state} | extra`; any other call bumps the
        counter and raises the stop flag once it reaches the patience. */
    method Call(valLoss: real, modelState: V, extra: map<string, V>)
      requires Valid()
      modifies this
      ensures Valid()
      ensures history == old(history) + [valLoss]
      ensures Improves(valLoss, old(bestLoss), minDelta) ==>
        && bestLoss == Finite(valLoss) && counter == 0 && earlyStop == old(earlyStop)
        && saved == old(saved) + [SaveEvent(checkpointPath, map["model_state" := modelState] + extra)]
      ensures !Improves(valLoss, old(bestLoss), minDelta) ==>
        && bestLoss == old(bestLoss) && counter == old(counter) + 1
        && earlyStop == (old(earlyStop) || counter >= patience)
        && saved == old(saved)
      ensures minDelta >= 0.0 ==> AtMost(bestLoss, old(bestLoss))
      ensures old(earlyStop) ==> earlyStop
    {
      RunSnoc(history, valLoss, patience, minDelta);
      if Improves(valLoss, bestLoss, minDelta) {
        bestLoss := Finite(valLoss);
        counter := 0;
        var ckpt := map["model_state" := modelState];
        if |extra| > 0 {
          ckpt := ckpt + extra;
        } else {
          assert extra == map[];
          assert ckpt + extra == ckpt;
        }
        saved := saved + [SaveEvent(checkpointPath, ckpt)];
      } else {
        counter := counter + 1;
        if counter >= patience {
          earlyStop := true;
        }
      }
      history := history + [valLoss];
    }
  }
}
