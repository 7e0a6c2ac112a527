/** The client's wizard store: the current wizard step, the captured image,
    and the state of one analysis run (a flag while it runs, a completion
    flag, a progress percentage, the four progress steps with their statuses,
    and the result). `startAnalysis` is a fixed sequence of updates; each
    segment between two waits is an operation of its own here, so the states
    the page can render while a run is under way are states of the model. */
module AppStore {
  import opened Schema

  // ---------------------------------------------------------------------
  // Progress steps
  // ---------------------------------------------------------------------

  datatype Status = Pending | InProgress | Completed

  /** The four step ids, "detect-face", "analyze-texture",
      "identify-conditions" and "generate-recommendations". */
  datatype StepId = DetectFace | AnalyzeTexture | IdentifyConditions | GenerateRecommendations

  datatype AnalysisStep = AnalysisStep(id: StepId, labelText: string, status: Status)

  const DetectFaceLabel: string := "Detecting facial features"
  const AnalyzeTextureLabel: string := "Analyzing skin texture"
  const IdentifyConditionsLabel: string := "Identifying possible conditions"
  const GenerateRecommendationsLabel: string := "Generating recommendations"

  /** The steps as the store starts: all pending, in run order. */
  function InitialSteps(): seq<AnalysisStep> {
    [AnalysisStep(DetectFace, DetectFaceLabel, Pending),
     AnalysisStep(AnalyzeTexture, AnalyzeTextureLabel, Pending),
     AnalysisStep(IdentifyConditions, IdentifyConditionsLabel, Pending),
     AnalysisStep(GenerateRecommendations, GenerateRecommendationsLabel, Pending)]
  }

  /** Same length, and the same id and label at every position: only
      statuses differ. */
  predicate SameShape(a: seq<AnalysisStep>, b: seq<AnalysisStep>) {
    |a| == |b| && forall i :: 0 <= i < |a| ==> a[i].id == b[i].id && a[i].labelText == b[i].labelText
  }

  function Statuses(steps: seq<AnalysisStep>): seq<Status> {
    seq(|steps|, i requires 0 <= i < |steps| => steps[i].status)
  }

  /** `steps.map(step => ({ ...step, status }))` */
  function WithStatus(steps: seq<AnalysisStep>, status: Status): (r: seq<AnalysisStep>)
    ensures SameShape(r, steps)
    ensures Statuses(r) == seq(|steps|, i => status)
  {
    seq(|steps|, i requires 0 <= i < |steps| => steps[i].(status := status))
  }

  /** The status map of `updateStep(stepId, _)`. */
  function UpdateStatus(step: AnalysisStep, stepId: StepId): AnalysisStep {
    if step.id == stepId then step.(status := InProgress)
    else if step.id == DetectFace || step.id == AnalyzeTexture then step.(status := Completed)
    else step
  }

  /** `updateStep`'s recomputation: `stepId` becomes in progress; the first
      two steps, when they are not `stepId`, become completed; every other
      step keeps its status. */
  function UpdateStatuses(steps: seq<AnalysisStep>, stepId: StepId): (r: seq<AnalysisStep>)
    ensures SameShape(r, steps)
    ensures forall i :: 0 <= i < |r| && steps[i].id == stepId ==> r[i].status == InProgress
    ensures forall i :: 0 <= i < |r| && steps[i].id != stepId && steps[i].id in {DetectFace, AnalyzeTexture} ==>
      r[i].status == Completed
    ensures forall i :: 0 <= i < |r| && steps[i].id != stepId && steps[i].id !in {DetectFace, AnalyzeTexture} ==>
      r[i] == steps[i]
  {
    seq(|steps|, i requires 0 <= i < |steps| => UpdateStatus(steps[i], stepId))
  }

  /** The status map of `completeStep(stepId, _)`. */
  function CompleteStatus(step: AnalysisStep, stepId: StepId): AnalysisStep {
    if step.id == stepId || step.id == DetectFace || step.id == AnalyzeTexture || step.id == IdentifyConditions
    then step.(status := Completed)
    else if step.id == GenerateRecommendations then step.(status := InProgress)
    else step
  }

  /** `completeStep`'s recomputation: `stepId` and the first three steps
      become completed; otherwise the last step becomes in progress. */
  function CompleteStatuses(steps: seq<AnalysisStep>, stepId: StepId): (r: seq<AnalysisStep>)
    ensures SameShape(r, steps)
    ensures forall i :: 0 <= i < |r| && (steps[i].id == stepId || steps[i].id != GenerateRecommendations) ==>
      r[i].status == Completed
    ensures forall i :: 0 <= i < |r| && steps[i].id != stepId && steps[i].id == GenerateRecommendations ==>
      r[i].status == InProgress
  {
    seq(|steps|, i requires 0 <= i < |steps| => CompleteStatus(steps[i], stepId))
  }

  lemma SameShapeTransitive(a: seq<AnalysisStep>, b: seq<AnalysisStep>, c: seq<AnalysisStep>)
    requires SameShape(a, b) && SameShape(b, c)
    ensures SameShape(a, c)
  {
  }

  /** The statuses along one run, from any steps of the store's shape: the
      first `updateStep` already shows "analyze-texture" completed before it
      has started; after the third the run stands at completed, completed,
      in progress, pending, which is what a failed request leaves; then
      `completeStep` moves to the last step, and the final update completes
      all four. */
  lemma RunStatuses(steps: seq<AnalysisStep>)
    requires SameShape(steps, InitialSteps())
    ensures var s0 := WithStatus(steps, Pending);
            var s1 := UpdateStatuses(s0, DetectFace);
            var s2 := UpdateStatuses(s1, AnalyzeTexture);
            var s3 := UpdateStatuses(s2, IdentifyConditions);
            var s4 := CompleteStatuses(s3, IdentifyConditions);
            && Statuses(s0) == [Pending, Pending, Pending, Pending]
            && Statuses(s1) == [InProgress, Completed, Pending, Pending]
            && Statuses(s2) == [Completed, InProgress, Pending, Pending]
            && Statuses(s3) == [Completed, Completed, InProgress, Pending]
            && Statuses(s4) == [Completed, Completed, Completed, InProgress]
            && Statuses(WithStatus(s4, Completed)) == [Completed, Completed, Completed, Completed]
  {
    var ids := [DetectFace, AnalyzeTexture, IdentifyConditions, GenerateRecommendations];
    assert forall i :: 0 <= i < 4 ==> steps[i].id == ids[i];
  }

  // ---------------------------------------------------------------------
  // The store
  // ---------------------------------------------------------------------

  /** What the page can show between two waits of a run: the progress
      percentage and the four statuses. */
  datatype Snapshot = Snapshot(progress: int, statuses: seq<Status>)

  /** The snapshots after `updateStep("detect-face", 20)`,
      `updateStep("analyze-texture", 20)`, `updateStep("identify-conditions", 20)`
      and `completeStep("identify-conditions", 20)`. */
  const AfterDetectFace: Snapshot := Snapshot(20, [InProgress, Completed, Pending, Pending])
  const AfterAnalyzeTexture: Snapshot := Snapshot(40, [Completed, InProgress, Pending, Pending])
  const AfterIdentifyConditions: Snapshot := Snapshot(60, [Completed, Completed, InProgress, Pending])
  const AfterComplete: Snapshot := Snapshot(80, [Completed, Completed, Completed, InProgress])

  /** `!capturedImage` is false only for a non-empty string. */
  predicate HasImage(image: Option<string>) {
    image.Some? && image.value != ""
  }

  /** The outcome of the analysis request: the parsed result, or a failure
      of the request or of reading its body. */
  datatype Response = Responded(result: AnalysisResult) | RequestFailed

  class AppStore {
    var currentStep: int
    var capturedImage: Option<string>
    var isAnalyzing: bool
    var analysisComplete: bool
    var analysisProgress: int
    var analysisSteps: seq<AnalysisStep>
    var analysisResult: Option<AnalysisResult>

    /** The steps always keep their four ids and labels in order, and a
        result is present exactly when the analysis is marked complete. */
    ghost predicate Valid()
      reads this
    {
      SameShape(analysisSteps, InitialSteps()) &&
      (analysisComplete <==> analysisResult.Some?)
    }

    constructor ()
      ensures Valid()
      ensures currentStep == 1 && capturedImage == None
      ensures !isAnalyzing && !analysisComplete && analysisProgress == 0
      ensures analysisSteps == InitialSteps() && analysisResult == None
    {
      currentStep := 1;
      capturedImage := None;
      isAnalyzing := false;
      analysisComplete := false;
      analysisProgress := 0;
      analysisSteps := InitialSteps();
      analysisResult := None;
    }

    /** `setCurrentStep(step)`: any number, as given. */
    method SetCurrentStep(step: int)
      requires Valid()
      modifies this
      ensures Valid()
      ensures currentStep == step
      ensures capturedImage == old(capturedImage) && isAnalyzing == old(isAnalyzing)
      ensures analysisComplete == old(analysisComplete) && analysisProgress == old(analysisProgress)
      ensures analysisSteps == old(analysisSteps) && analysisResult == old(analysisResult)
    {
      currentStep := step;
    }

    /** `nextStep()`: one more, with no upper bound. */
    method NextStep()
      requires Valid()
      modifies this
      ensures Valid()
      ensures currentStep == old(currentStep) + 1
      ensures capturedImage == old(capturedImage) && isAnalyzing == old(isAnalyzing)
      ensures analysisComplete == old(analysisComplete) && analysisProgress == old(analysisProgress)
      ensures analysisSteps == old(analysisSteps) && analysisResult == old(analysisResult)
    {
      currentStep := currentStep + 1;
    }

    /** `prevStep()`: one less, but never below 1. */
    method PrevStep()
      requires Valid()
      modifies this
      ensures Valid()
      ensures currentStep >= 1
      ensures old(currentStep) >= 2 ==> currentStep == old(currentStep) - 1
      ensures old(currentStep) < 2 ==> currentStep == 1
      ensures capturedImage == old(capturedImage) && isAnalyzing == old(isAnalyzing)
      ensures analysisComplete == old(analysisComplete) && analysisProgress == old(analysisProgress)
      ensures analysisSteps == old(analysisSteps) && analysisResult == old(analysisResult)
    {
      currentStep := if currentStep - 1 > 1 then currentStep - 1 else 1;
    }

    /** `setCapturedImage(image)` */
    method SetCapturedImage(image: Option<string>)
      requires Valid()
      modifies this
      ensures Valid()
      ensures capturedImage == image
      ensures currentStep == old(currentStep) && isAnalyzing == old(isAnalyzing)
      ensures analysisComplete == old(analysisComplete) && analysisProgress == old(analysisProgress)
      ensures analysisSteps == old(analysisSteps) && analysisResult == old(analysisResult)
    {
      capturedImage := image;
    }

    /** The first update of `startAnalysis`, once an image is present: the
        run is marked under way and everything it will produce is cleared. */
    method BeginAnalysis()
      requires Valid()
      modifies this
      ensures Valid()
      ensures isAnalyzing && !analysisComplete && analysisProgress == 0 && analysisResult == None
      ensures analysisSteps == WithStatus(old(analysisSteps), Pending)
      ensures currentStep == old(currentStep) && capturedImage == old(capturedImage)
    {
      SameShapeTransitive(WithStatus(analysisSteps, Pending), analysisSteps, InitialSteps());
      isAnalyzing := true;
      analysisComplete := false;
      analysisProgress := 0;
      analysisSteps := WithStatus(analysisSteps, Pending);
      analysisResult := None;
    }

    /** `updateStep(stepId, progressIncrement)` */
    method UpdateStep(stepId: StepId, progressIncrement: int)
      requires Valid()
      modifies this
      ensures Valid()
      ensures analysisProgress == old(analysisProgress) + progressIncrement
      ensures analysisSteps == UpdateStatuses(old(analysisSteps), stepId)
      ensures currentStep == old(currentStep) && capturedImage == old(capturedImage)
      ensures isAnalyzing == old(isAnalyzing) && analysisComplete == old(analysisComplete)
      ensures analysisResult == old(analysisResult)
    {
      SameShapeTransitive(UpdateStatuses(analysisSteps, stepId), analysisSteps, InitialSteps());
      analysisProgress := analysisProgress + progressIncrement;
      analysisSteps := UpdateStatuses(analysisSteps, stepId);
    }

    /** `completeStep(stepId, progressIncrement)` */
    method CompleteStep(stepId: StepId, progressIncrement: int)
      requires Valid()
      modifies this
      ensures Valid()
      ensures analysisProgress == old(analysisProgress) + progressIncrement
      ensures analysisSteps == CompleteStatuses(old(analysisSteps), stepId)
      ensures currentStep == old(currentStep) && capturedImage == old(capturedImage)
      ensures isAnalyzing == old(isAnalyzing) && analysisComplete == old(analysisComplete)
      ensures analysisResult == old(analysisResult)
    {
      SameShapeTransitive(CompleteStatuses(analysisSteps, stepId), analysisSteps, InitialSteps());
      analysisProgress := analysisProgress + progressIncrement;
      analysisSteps := CompleteStatuses(analysisSteps, stepId);
    }

    /** The last update of a successful run. */
    method FinishAnalysis(result: AnalysisResult)
      requires Valid()
      modifies this
      ensures Valid()
      ensures analysisProgress == 100 && analysisComplete && !isAnalyzing
      ensures analysisResult == Some(result)
      ensures analysisSteps == WithStatus(old(analysisSteps), Completed)
      ensures currentStep == old(currentStep) && capturedImage == old(capturedImage)
    {
      SameShapeTransitive(WithStatus(analysisSteps, Completed), analysisSteps, InitialSteps());
      analysisProgress := 100;
      analysisComplete := true;
      isAnalyzing := false;
      analysisResult := Some(result);
      analysisSteps := WithStatus(analysisSteps, Completed);
    }

    /** The update of the error handler: the run stops and the progress
        drops to 0; statuses, completion and result stay as they were. */
    method FailAnalysis()
      requires Valid()
      modifies this
      ensures Valid()
      ensures !isAnalyzing && analysisProgress == 0
      ensures analysisSteps == old(analysisSteps)
      ensures analysisComplete == old(analysisComplete) && analysisResult == old(analysisResult)
      ensures currentStep == old(currentStep) && capturedImage == old(capturedImage)
    {
      isAnalyzing := false;
      analysisProgress := 0;
    }

    /** `startAnalysis()` run to its end with the request's outcome
        `response`: without an image nothing changes; otherwise the steps
        run in order, and the run ends either complete with the result and
        every step completed, or stopped with progress 0, no result, and
        the statuses where the third `updateStep` left them. `trace` holds
        the progress and statuses after each `updateStep` and `completeStep`:
        20, 40, 60 and, on a response, 80. */
    method StartAnalysis(response: Response) returns (ghost trace: seq<Snapshot>)
      requires Valid()
      modifies this
      ensures Valid()
      ensures currentStep == old(currentStep) && capturedImage == old(capturedImage)
      ensures !HasImage(capturedImage) ==>
        isAnalyzing == old(isAnalyzing) && analysisComplete == old(analysisComplete) &&
        analysisProgress == old(analysisProgress) && analysisSteps == old(analysisSteps) &&
        analysisResult == old(analysisResult)
      ensures HasImage(capturedImage) && response.Responded? ==>
        !isAnalyzing && analysisComplete && analysisProgress == 100 &&
        analysisResult == Some(response.result) &&
        Statuses(analysisSteps) == [Completed, Completed, Completed, Completed]
      ensures HasImage(capturedImage) && response.RequestFailed? ==>
        !isAnalyzing && !analysisComplete && analysisProgress == 0 && analysisResult == None &&
        Statuses(analysisSteps) == [Completed, Completed, InProgress, Pending]
    ensures !HasImage(capturedImage) ==> trace == []
    ensures HasImage(capturedImage) && response.Responded? ==>
      trace == [AfterDetectFace, AfterAnalyzeTexture, AfterIdentifyConditions, AfterComplete]
    ensures HasImage(capturedImage) && response.RequestFailed? ==>
      trace == [AfterDetectFace, AfterAnalyzeTexture, AfterIdentifyConditions]
    {
      trace := [];
      if !HasImage(capturedImage) {
        return;
      }
      RunStatuses(analysisSteps);
      BeginAnalysis();
      UpdateStep(DetectFace, 20);
      trace := trace + [Snapshot(analysisProgress, Statuses(analysisSteps))];
      UpdateStep(AnalyzeTexture, 20);
      trace := trace + [Snapshot(analysisProgress, Statuses(analysisSteps))];
      UpdateStep(IdentifyConditions, 20);
      trace := trace + [Snapshot(analysisProgress, Statuses(analysisSteps))];
      match response {
        case Responded(result) =>
          CompleteStep(IdentifyConditions, 20);
          trace := trace + [Snapshot(analysisProgress, Statuses(analysisSteps))];
          FinishAnalysis(result);
        case RequestFailed =>
          FailAnalysis();
      }
    }

    /** `resetAnalysis()`: clears the run's outcome and sets every step
        pending; the wizard step, the image and the running flag stay. */
    method ResetAnalysis()
      requires Valid()
      modifies this
      ensures Valid()
      ensures !analysisComplete && analysisProgress == 0 && analysisResult == None
      ensures analysisSteps == WithStatus(old(analysisSteps), Pending)
      ensures Statuses(analysisSteps) == [Pending, Pending, Pending, Pending]
      ensures currentStep == old(currentStep) && capturedImage == old(capturedImage)
      ensures isAnalyzing == old(isAnalyzing)
    {
      SameShapeTransitive(WithStatus(analysisSteps, Pending), analysisSteps, InitialSteps());
      analysisComplete := false;
      analysisProgress := 0;
      analysisResult := None;
      analysisSteps := WithStatus(analysisSteps, Pending);
    }
  }
}
