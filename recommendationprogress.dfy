/**
 * The staged progress indicator shown while recommendations are computed:
 * four stages of three seconds each, a percentage clamped to 100, a
 * "don't close this tab" warning after five seconds, and a ticker that stops
 * once the total duration has elapsed.  Elapsed time is an input in
 * milliseconds.
 */
module RecommendationProgress {

  datatype Stage = Stage(name: string, duration: nat)

  const Stages: seq<Stage> := [
    Stage("Fetching Resume Data", 3000),
    Stage("Extracting Key Points", 3000),
    Stage("Searching Similar Jobs", 3000),
    Stage("Making Final Recommendations", 3000)
  ]

  /** The warning shows once more than this many milliseconds have elapsed. */
  const WarningAfterMs: nat := 5000

  /** `stages.reduce((acc, stage) => acc + stage.duration, 0)`, folding from the left: zero exactly when every stage is instant. */
  function TotalDuration(stages: seq<Stage>): (total: nat)
    ensures total == 0 <==> forall i :: 0 <= i < |stages| ==> stages[i].duration == 0
  {
    if stages == [] then 0 else TotalDuration(stages[..|stages| - 1]) + stages[|stages| - 1].duration
  }

  /** The four stages last twelve seconds in all. */
  lemma TotalIsTwelveSeconds()
    ensures TotalDuration(Stages) == 12000
  {
    assert TotalDuration(Stages[..0]) == 0;
    TotalDurationStep(Stages, 0);
    TotalDurationStep(Stages, 1);
    TotalDurationStep(Stages, 2);
    TotalDurationStep(Stages, 3);
    assert Stages[..4] == Stages;
  }

  /** Appending a stage adds its duration. */
  lemma TotalDurationStep(stages: seq<Stage>, i: nat)
    requires i < |stages|
    ensures TotalDuration(stages[..i + 1]) == TotalDuration(stages[..i]) + stages[i].duration
  {
    assert stages[..i + 1][..i] == stages[..i];
  }

  /** The cumulative durations never decrease along the stages. */
  lemma {:induction false} PrefixDurationMonotone(stages: seq<Stage>, i: nat, j: nat)
    requires i <= j <= |stages|
    ensures TotalDuration(stages[..i]) <= TotalDuration(stages[..j])
    decreases j - i
  {
    if i < j {
      TotalDurationStep(stages, i);
      PrefixDurationMonotone(stages, i + 1, j);
    }
  }

  /**
   * Stage `i` covers the elapsed times from the end of stage `i - 1` up to its
   * own end; only a stage that lasts some time covers anything.
   */
  ghost predicate StageCovers(stages: seq<Stage>, i: nat, elapsed: nat): (covers: bool)
    ensures covers ==> i < |stages| && stages[i].duration > 0
  {
    i < |stages| && (TotalDurationStep(stages, i); TotalDuration(stages[..i]) <= elapsed < TotalDuration(stages[..i + 1]))
  }

  /** At most one stage covers any elapsed time. */
  lemma StageCoverUnique(stages: seq<Stage>, elapsed: nat, i: nat, j: nat)
    requires StageCovers(stages, i, elapsed) && StageCovers(stages, j, elapsed)
    ensures i == j
  {
    if i < j {
      PrefixDurationMonotone(stages, i + 1, j);
    } else if j < i {
      PrefixDurationMonotone(stages, j + 1, i);
    }
  }

  /**
   * The stage loop: accumulate the durations and stop at the first stage whose
   * end lies beyond `elapsed`.  Nothing is found once the whole duration has
   * elapsed.
   */
  method LookupStage(stages: seq<Stage>, elapsed: nat) returns (found: bool, index: nat)
    ensures found <==> elapsed < TotalDuration(stages)
    ensures found ==> StageCovers(stages, index, elapsed)
  {
    var stageElapsed: nat := 0;
    var i: nat := 0;
    while i < |stages|
      invariant i <= |stages|
      invariant stageElapsed == TotalDuration(stages[..i])
      invariant stageElapsed <= elapsed
    {
      TotalDurationStep(stages, i);
      stageElapsed := stageElapsed + stages[i].duration;
      if elapsed < stageElapsed {
        PrefixDurationMonotone(stages, i + 1, |stages|);
        assert stages[..|stages|] == stages;
        return true, i;
      }
      i := i + 1;
    }
    assert stages[..i] == stages;
    return false, 0;
  }

  /** `Math.min((elapsed / totalDuration) * 100, 100)`, in exact arithmetic. */
  function Progress(elapsed: nat): (p: real)
    ensures 0.0 <= p <= 100.0
    ensures p == 100.0 <==> elapsed >= TotalDuration(Stages)
    ensures elapsed < TotalDuration(Stages) ==> p * TotalDuration(Stages) as real == elapsed as real * 100.0
  {
    TotalIsTwelveSeconds();
    var raw := (elapsed as real / TotalDuration(Stages) as real) * 100.0;
    if raw < 100.0 then raw else 100.0
  }

  /** Progress never goes backwards as time passes. */
  lemma ProgressMonotone(e1: nat, e2: nat)
    requires e1 <= e2
    ensures Progress(e1) <= Progress(e2)
  {
    TotalIsTwelveSeconds();
    if e2 < 12000 {
      assert Progress(e1) * 12000.0 == e1 as real * 100.0;
      assert Progress(e2) * 12000.0 == e2 as real * 100.0;
    }
  }

  /** How a stage's dot is drawn relative to the current stage. */
  datatype Indicator = Done | Active | Upcoming

  function StageIndicator(index: nat, current: nat): (d: Indicator)
    ensures d == Done <==> index < current
    ensures d == Active <==> index == current
    ensures d == Upcoming <==> index > current
  {
    if index < current then Done else if index == current then Active else Upcoming
  }

  /** A stage's name is drawn dark exactly when its dot is not upcoming. */
  predicate LabelEmphasised(index: nat, current: nat): (dark: bool)
    ensures dark <==> StageIndicator(index, current) != Upcoming
  {
    index <= current
  }

  /** The progress component's state. */
  class ProgressTracker {
    var currentStage: nat
    var progress: real
    var warningVisible: bool
    /** Whether the interval is still scheduled. */
    var running: bool

    ghost predicate Valid()
      reads this
    {
      currentStage < |Stages| && 0.0 <= progress <= 100.0
    }

    constructor ()
      ensures Valid()
      ensures currentStage == 0 && progress == 0.0 && !warningVisible && running
    {
      currentStage, progress, warningVisible, running := 0, 0.0, false, true;
    }

    /**
     * One interval callback, `elapsed` milliseconds after mounting: set the
     * clamped progress, move to the stage covering `elapsed` (keeping the
     * current one once everything has elapsed), latch the warning after five
     * seconds and stop the interval at the total duration.
     */
    method Tick(elapsed: nat)
      requires Valid() && running
      modifies this
      ensures Valid()
      ensures progress == Progress(elapsed)
      ensures elapsed < TotalDuration(Stages) ==> StageCovers(Stages, currentStage, elapsed)
      ensures elapsed >= TotalDuration(Stages) ==> currentStage == old(currentStage)
      ensures warningVisible == (old(warningVisible) || elapsed > WarningAfterMs)
      ensures running == (elapsed < TotalDuration(Stages))
    {
      progress := Progress(elapsed);
      var found, i := LookupStage(Stages, elapsed);
      if found {
        currentStage := i;
      }
      if elapsed > WarningAfterMs && !warningVisible {
        warningVisible := true;
      }
      if elapsed >= TotalDuration(Stages) {
        running := false;
      }
    }

    /** Unmounting clears the interval. */
    method Unmount()
      modifies this
      ensures !running
      ensures currentStage == old(currentStage) && progress == old(progress) && warningVisible == old(warningVisible)
    {
      running := false;
    }
  }
}
