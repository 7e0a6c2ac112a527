/** The wizard page: its handlers, which drive the store through capture,
    analysis and results, and the conditions under which it renders each
    panel and button. */
module Home {
  import opened Schema
  import opened AppStore

  // ---------------------------------------------------------------------
  // Render guards
  // ---------------------------------------------------------------------

  /** Step 1, the capture panel. */
  predicate CapturePanelShown(store: AppStore)
    reads store
  {
    store.currentStep == 1
  }

  /** The capture panel's Continue button is disabled while no image is held. */
  predicate ContinueDisabled(store: AppStore)
    reads store
  {
    !HasImage(store.capturedImage)
  }

  /** Step 2, the analysis panel. */
  predicate AnalysisPanelShown(store: AppStore)
    reads store
  {
    store.currentStep == 2
  }

  /** Inside the analysis panel (step 2): the spinner, progress bar and step
      list render while a run is under way. Off that panel nothing of it
      renders, even when `isAnalyzing` is still set. */
  predicate ProgressShown(store: AppStore)
    reads store
  {
    store.isAnalyzing
  }

  /** Inside the analysis panel (step 2): View Results is offered once a run
      has completed and is no longer running. */
  predicate ViewResultsOffered(store: AppStore)
    reads store
  {
    !store.isAnalyzing && store.analysisComplete
  }

  /** Step 3, the results panel, only when there is a result to show. */
  predicate ResultsPanelShown(store: AppStore)
    reads store
  {
    store.currentStep == 3 && store.analysisResult.Some?
  }

  /** One condition card of the results panel. */
  datatype Card = Card(condition: DetectedCondition, isPrimary: bool)

  /** The condition cards, in result order; the first is the primary one. */
  function ConditionCards(conditions: seq<DetectedCondition>): (cards: seq<Card>)
    ensures |cards| == |conditions|
    ensures forall i :: 0 <= i < |cards| ==> cards[i].condition == conditions[i]
    ensures |cards| > 0 ==> cards[0].isPrimary
    ensures forall i :: 0 < i < |cards| ==> !cards[i].isPrimary
  {
    seq(|conditions|, i requires 0 <= i < |conditions| => Card(conditions[i], i == 0))
  }

  datatype Icon = Flask | Book | Drops

  /** The icon of the treatment at `index`: flask, book, drops, flask, ... */
  function TreatmentIcon(index: nat): Icon {
    if index % 3 == 0 then Flask else if index % 3 == 1 then Book else Drops
  }

  /** Icons repeat every three treatments, and neighbours never share one. */
  lemma TreatmentIconCycle(index: nat)
    ensures TreatmentIcon(index + 3) == TreatmentIcon(index)
    ensures TreatmentIcon(index + 1) != TreatmentIcon(index)
    ensures TreatmentIcon(index + 2) != TreatmentIcon(index)
  {
    assert (index + 3) % 3 == index % 3;
  }

  // ---------------------------------------------------------------------
  // Handlers
  // ---------------------------------------------------------------------

  /** A toast notice. */
  datatype Notice = Notice(title: string, description: string, destructive: bool)

  const CapturedNotice: Notice :=
    Notice("Image captured!", "You can now proceed to analysis.", false)
  const NoImageNotice: Notice :=
    Notice("No image captured", "Please capture an image before proceeding.", true)

  /** `handleCapture(imageSrc)`: the image is stored as given. */
  method HandleCapture(store: AppStore, imageSrc: string) returns (notice: Notice)
    requires store.Valid()
    modifies store
    ensures store.Valid()
    ensures store.capturedImage == Some(imageSrc)
    ensures notice == CapturedNotice
    ensures store.currentStep == old(store.currentStep) && store.isAnalyzing == old(store.isAnalyzing)
    ensures store.analysisComplete == old(store.analysisComplete)
    ensures store.analysisProgress == old(store.analysisProgress)
    ensures store.analysisSteps == old(store.analysisSteps) && store.analysisResult == old(store.analysisResult)
  {
    store.SetCapturedImage(Some(imageSrc));
    notice := CapturedNotice;
  }

  /** `handleProceedToAnalysis()`, with the analysis request's outcome
      `response`. Without an image only the warning is shown. With one, the
      wizard moves on a step and the run goes to its end: View Results is
      then offered exactly when the request succeeded, with every step
      completed; a failed request leaves the third step in progress and the
      fourth pending. */
  method HandleProceedToAnalysis(store: AppStore, response: Response) returns (notice: Option<Notice>)
    requires store.Valid()
    modifies store
    ensures store.Valid()
    ensures !HasImage(old(store.capturedImage)) ==>
      && notice == Some(NoImageNotice)
      && store.currentStep == old(store.currentStep) && store.capturedImage == old(store.capturedImage)
      && store.isAnalyzing == old(store.isAnalyzing) && store.analysisComplete == old(store.analysisComplete)
      && store.analysisProgress == old(store.analysisProgress)
      && store.analysisSteps == old(store.analysisSteps) && store.analysisResult == old(store.analysisResult)
    ensures HasImage(old(store.capturedImage)) ==>
      && notice == None
      && store.currentStep == old(store.currentStep) + 1 && store.capturedImage == old(store.capturedImage)
      && !ProgressShown(store)
      && (ViewResultsOffered(store) <==> response.Responded?)
      && (response.Responded? ==> store.analysisResult == Some(response.result) && store.analysisProgress == 100)
      && (response.RequestFailed? ==> store.analysisResult == None && store.analysisProgress == 0)
      && (response.Responded? ==> Statuses(store.analysisSteps) == [Completed, Completed, Completed, Completed])
      && (response.RequestFailed? ==> Statuses(store.analysisSteps) == [Completed, Completed, InProgress, Pending])
  {
    if !HasImage(store.capturedImage) {
      notice := Some(NoImageNotice);
      return;
    }
    store.NextStep();
    ghost var trace := store.StartAnalysis(response);
    notice := None;
  }

  /** `handleViewResults()`: one step on and nothing else; from the analysis
      panel with View Results offered, that is the results panel. */
  method HandleViewResults(store: AppStore)
    requires store.Valid()
    modifies store
    ensures store.Valid()
    ensures store.currentStep == old(store.currentStep) + 1
    ensures store.capturedImage == old(store.capturedImage) && store.isAnalyzing == old(store.isAnalyzing)
    ensures store.analysisComplete == old(store.analysisComplete)
    ensures store.analysisProgress == old(store.analysisProgress)
    ensures store.analysisSteps == old(store.analysisSteps) && store.analysisResult == old(store.analysisResult)
    ensures old(AnalysisPanelShown(store) && ViewResultsOffered(store)) ==> ResultsPanelShown(store)
  {
    store.NextStep();
  }

  /** `handleBackToCapture()`: back to step 1 with the analysis reset; the
      image is kept, so Continue stays enabled if it was. */
  method HandleBackToCapture(store: AppStore)
    requires store.Valid()
    modifies store
    ensures store.Valid()
    ensures CapturePanelShown(store)
    ensures store.capturedImage == old(store.capturedImage)
    ensures ContinueDisabled(store) == old(ContinueDisabled(store))
    ensures !store.analysisComplete && store.analysisProgress == 0 && store.analysisResult == None
    ensures Statuses(store.analysisSteps) == [Pending, Pending, Pending, Pending]
    ensures store.isAnalyzing == old(store.isAnalyzing)
    ensures !ViewResultsOffered(store)
  {
    store.SetCurrentStep(1);
    store.ResetAnalysis();
  }

  /** `handleBackToAnalysis()`: back to step 2 with every piece of analysis
      state untouched, so View Results is offered again if it was. */
  method HandleBackToAnalysis(store: AppStore)
    requires store.Valid()
    modifies store
    ensures store.Valid()
    ensures AnalysisPanelShown(store)
    ensures store.capturedImage == old(store.capturedImage) && store.isAnalyzing == old(store.isAnalyzing)
    ensures store.analysisComplete == old(store.analysisComplete)
    ensures store.analysisProgress == old(store.analysisProgress)
    ensures store.analysisSteps == old(store.analysisSteps) && store.analysisResult == old(store.analysisResult)
    ensures ViewResultsOffered(store) == old(ViewResultsOffered(store))
  {
    store.SetCurrentStep(2);
  }
}
