/** `src/components/UploadContent.tsx`: the two-step upload wizard. Step 1 collects the
    model file, its name and the preprocessor choice; step 2 the dataset and the target
    column. The evaluation request itself is an opaque outcome passed in. */
module Upload {
  import opened Common

  /** A file chosen in one of the upload cards; only its identity matters here. */
  datatype File = File(name: string)

  /** The payload handed to `startEvaluation`. */
  datatype EvaluationRequest = EvaluationRequest(
    modelFile: File,
    datasetFile: File,
    modelName: string,
    targetColumn: string,
    userId: string,
    preprocessorFile: Option<File>,
    splitData: bool)

  /** What `handleUpload`'s `catch` can receive: a thrown string, or an object whose
      `response.data.detail` and `message` may be missing. */
  datatype Caught = StringThrown(s: string) | ObjectThrown(detail: Option<string>, message: Option<string>)

  datatype UploadOutcome = Started(jobId: nat) | Failed(error: Caught)

  const MissingInputs := "Missing required files or user authentication"
  const UnknownUploadError := "An unknown error occurred during evaluation."

  /** The toast shown once the evaluation has been started. */
  const StartedToast := Toast("🚀 Evaluation Started!",
    Some("Your model is being processed. You'll be redirected to the results."), SuccessToast)

  /** The toast shown when the upload fails: its description is the message on the page. */
  function UploadFailedToast(errorMessage: string): (t: Toast)
    ensures t.title == "❌ Upload Failed" && t.status == ErrorToast && t.description == Some(errorMessage)
  {
    Toast("❌ Upload Failed", Some(errorMessage), ErrorToast)
  }

  /** `canProceedToStep2` */
  function CanProceedToStep2(modelFile: Option<File>, modelName: string, hasPreprocessor: Option<bool>,
                             preprocessorFile: Option<File>): (r: bool)
    ensures r <==> modelFile.Some? && !AllSpace(modelName) && hasPreprocessor.Some?
                   && (hasPreprocessor.value ==> preprocessorFile.Some?)
  {
    TrimEmptyIffAllSpace(modelName);
    modelFile.Some? && Trim(modelName) != [] && hasPreprocessor != None
    && (hasPreprocessor != Some(true) || preprocessorFile.Some?)
  }

  /** `canStartEvaluation` */
  function CanStartEvaluation(datasetFile: Option<File>, targetColumn: string): (r: bool)
    ensures r <==> datasetFile.Some? && !AllSpace(targetColumn)
  {
    TrimEmptyIffAllSpace(targetColumn);
    datasetFile.Some? && Trim(targetColumn) != []
  }

  /** The message chosen in `handleUpload`'s `catch`: the server's `detail`, else the
      error's `message`, else the thrown string itself, else a fixed text. A string has
      neither a `response` nor a `message`. */
  function UploadErrorMessage(e: Caught): (m: string)
    ensures e.ObjectThrown? && e.detail.Some? && e.detail.value != "" ==> m == e.detail.value
    ensures e.ObjectThrown? && !(e.detail.Some? && e.detail.value != "") && e.message.Some? && e.message.value != ""
            ==> m == e.message.value
    ensures e.StringThrown? ==> m == e.s
    ensures m == "" <==> e == StringThrown("")
  {
    match e
    case ObjectThrown(detail, message) =>
      if detail.Some? && detail.value != "" then detail.value
      else if message.Some? && message.value != "" then message.value
      else UnknownUploadError
    case StringThrown(s) => s
  }

  /** A `detail` from the server is shown even when the error also has a message. */
  lemma DetailTakesPrecedence(detail: string, message: Option<string>)
    requires detail != ""
    ensures UploadErrorMessage(ObjectThrown(Some(detail), message)) == detail
  {
  }

  /** The wizard's state. `requests` records every evaluation request sent, `toasts` every
      toast shown and `route` the last navigation. */
  class UploadWizard {
    var step: nat
    var modelFile: Option<File>
    var preprocessorFile: Option<File>
    var datasetFile: Option<File>
    var hasPreprocessor: Option<bool>
    var modelName: string
    var targetColumn: string
    var splitData: bool
    var isUploading: bool
    var uploadError: Option<string>
    var requests: seq<EvaluationRequest>
    var route: Option<string>
    var toasts: seq<Toast>

    /** Between handler runs the wizard is on step 1 or 2 and not uploading. */
    ghost predicate Valid()
      reads this
    {
      (step == 1 || step == 2) && !isUploading
    }

    constructor ()
      ensures Valid() && step == 1
      ensures modelFile.None? && preprocessorFile.None? && datasetFile.None? && hasPreprocessor.None?
      ensures modelName == "" && targetColumn == "" && splitData
      ensures uploadError.None? && requests == [] && route.None? && toasts == []
    {
      step := 1;
      modelFile, preprocessorFile, datasetFile, hasPreprocessor := None, None, None, None;
      modelName, targetColumn, splitData := "", "", true;
      isUploading, uploadError, requests, route, toasts := false, None, [], None, [];
    }

    /** `handleStep1Next`: on to step 2 only when step 1 is complete. */
    method HandleStep1Next()
      requires Valid()
      modifies this`step
      ensures Valid()
      ensures CanProceedToStep2(modelFile, modelName, hasPreprocessor, preprocessorFile) ==> step == 2
      ensures !CanProceedToStep2(modelFile, modelName, hasPreprocessor, preprocessorFile) ==> step == old(step)
    {
      if CanProceedToStep2(modelFile, modelName, hasPreprocessor, preprocessorFile) {
        step := 2;
      }
    }

    /** `handleStep2Back` */
    method HandleStep2Back()
      requires Valid()
      modifies this`step
      ensures Valid() && step == 1
    {
      step := 1;
    }

    /** The "No, just the model" button: the choice is recorded and any preprocessor file
        is dropped, which by itself never blocks step 1. */
    method ChooseNoPreprocessor()
      requires Valid()
      modifies this`hasPreprocessor, this`preprocessorFile
      ensures Valid()
      ensures hasPreprocessor == Some(false) && preprocessorFile.None?
      ensures CanProceedToStep2(modelFile, modelName, hasPreprocessor, preprocessorFile)
              <==> modelFile.Some? && !AllSpace(modelName)
    {
      hasPreprocessor := Some(false);
      preprocessorFile := None;
    }

    /** The "Yes, I have a preprocessor" button: the file already chosen, if any, is kept. */
    method ChooseYesPreprocessor()
      requires Valid()
      modifies this`hasPreprocessor
      ensures Valid()
      ensures hasPreprocessor == Some(true)
      ensures CanProceedToStep2(modelFile, modelName, hasPreprocessor, preprocessorFile)
              <==> modelFile.Some? && !AllSpace(modelName) && preprocessorFile.Some?
    {
      hasPreprocessor := Some(true);
    }

    /** `handleUpload`: without a signed-in user, a model file and a dataset file no request
        is made and an error is shown; otherwise exactly one request goes out with the
        trimmed name and column, and either the results page is opened or the error
        message is shown. Uploading is over when the handler returns. */
    method HandleUpload(userId: Option<string>, outcome: UploadOutcome)
      requires Valid()
      modifies this`isUploading, this`uploadError, this`requests, this`route, this`toasts
      ensures Valid()
      ensures !(userId.Some? && userId.value != "") || modelFile.None? || datasetFile.None? ==>
        && uploadError == Some(MissingInputs) && requests == old(requests) && route == old(route)
        && toasts == old(toasts)
      ensures userId.Some? && userId.value != "" && modelFile.Some? && datasetFile.Some? ==>
        && requests == old(requests) + [EvaluationRequest(modelFile.value, datasetFile.value, Trim(modelName),
                                         Trim(targetColumn), userId.value, preprocessorFile, splitData)]
        && (outcome.Started? ==>
              && uploadError.None? && route == Some("/evaluations/" + NatToString(outcome.jobId))
              && toasts == old(toasts) + [StartedToast])
        && (outcome.Failed? ==>
              && uploadError == Some(UploadErrorMessage(outcome.error)) && route == old(route)
              && toasts == old(toasts) + [UploadFailedToast(UploadErrorMessage(outcome.error))])
    {
      if !(userId.Some? && userId.value != "") || modelFile.None? || datasetFile.None? {
        uploadError := Some(MissingInputs);
        return;
      }
      isUploading := true;
      uploadError := None;
      requests := requests + [EvaluationRequest(modelFile.value, datasetFile.value, Trim(modelName),
                                                Trim(targetColumn), userId.value, preprocessorFile, splitData)];
      match outcome {
        case Started(jobId) =>
          toasts := toasts + [StartedToast];
          route := Some("/evaluations/" + NatToString(jobId));
        case Failed(error) =>
          var errorMessage := UnknownUploadError;
          match error {
            case ObjectThrown(detail, message) =>
              if detail.Some? && detail.value != "" {
                errorMessage := detail.value;
              } else if message.Some? && message.value != "" {
                errorMessage := message.value;
              }
            case StringThrown(s) =>
              errorMessage := s;
          }
          uploadError := Some(errorMessage);
          toasts := toasts + [UploadFailedToast(errorMessage)];
      }
      isUploading := false;
    }
  }
}
