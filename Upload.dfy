/**
 * The upload page of app/routes/upload.tsx and its analysis pipeline: upload the document,
 * convert it to an image, upload the image, write a stub record, ask for feedback, write the
 * completed record. Every awaited step is given its outcome; the uuid, the conversion and the
 * parsing of the reply are inputs as well.
 *
 * `AnalyzeEffect` says what one run does to the stores and which steps it reaches;
 * `UploadPage.HandleAnalyze` performs the run against a `Cloud.Storage` and is proved to do
 * exactly that.
 */
module Upload {
  import opened Remote
  import opened Resume
  import opened Cloud
  import opened Uploader

  /** The three text fields of the form. */
  datatype Form = Form(companyName: string, jobTitle: string, jobDescription: string)

  /** The awaited steps of one run, in the order the code issues them. */
  datatype Step = UploadResume | ConvertToImage | UploadImage | WriteStub | Analyze | WriteResult

  const Pipeline := [UploadResume, ConvertToImage, UploadImage, WriteStub, Analyze, WriteResult]

  /**
   * How each step settles. A resolved `None` is a falsy result, which the code turns into its
   * own error. `analyze` resolves to the reply's text; `parse` is the outcome of `JSON.parse` on it.
   */
  datatype Effects = Effects(
    uploadResume: Outcome<Option<string>>,
    convert: Outcome<Option<File>>,
    uploadImage: Outcome<Option<string>>,
    writeStub: Ack,
    analyze: Outcome<Option<string>>,
    parse: Outcome<Feedback>,
    writeResult: Ack)

  const UploadFileFailed := "Failed to upload file"
  const ConvertFailed := "Failed to convert PDF to image"
  const UploadImageFailed := "Failed to upload image"
  const AnalyzeFailed := "Failed to analyze resume"
  const Unexpected := "Unexpected error occurred"
  const MissingFile := "Please upload a resume before continuing."
  const CompleteStatus := "Analysis complete, redirecting..."

  /** The status text shown while a step is in flight; the second write keeps the analysis text. */
  function StatusOf(step: Step): (status: string)
    ensures status != ""
    ensures status == "Analyzing..." <==> step == Analyze || step == WriteResult
  {
    match step
    case UploadResume => "Uploading the file..."
    case ConvertToImage => "Converting to image..."
    case UploadImage => "Uploading the image..."
    case WriteStub => "Preparing data..."
    case Analyze => "Analyzing..."
    case WriteResult => "Analyzing..."
  }

  /** The text `setError` receives in the catch block for a thrown value. */
  function CaughtMessage(reason: Thrown): (msg: string)
    ensures msg != ""
  {
    MessageOrElse(reason, Unexpected)
  }

  /** How an awaited step whose falsy result the code rejects ends: `None` when the run goes on. */
  function FalsyFailure<T>(o: Outcome<Option<T>>, falsy: string): Option<string> {
    match o
    case Rejected(e) => Some(CaughtMessage(e))
    case Resolved(None) => Some(falsy)
    case Resolved(Some(_)) => None
  }

  function AckFailure(a: Ack): Option<string> {
    if a.Rejected? then Some(CaughtMessage(a.reason)) else None
  }

  /**
   * The message the run throws at the step with index `i`, or `None` when that step lets it go on.
   * Step 4 also covers `JSON.parse` of the reply, which runs before the second write.
   */
  function StepFailure(fx: Effects, i: nat): Option<string>
    requires i < |Pipeline|
  {
    if i == 0 then FalsyFailure(fx.uploadResume, UploadFileFailed)
    else if i == 1 then FalsyFailure(fx.convert, ConvertFailed)
    else if i == 2 then FalsyFailure(fx.uploadImage, UploadImageFailed)
    else if i == 3 then AckFailure(fx.writeStub)
    else if i == 4 then
      if FalsyFailure(fx.analyze, AnalyzeFailed).Some? then FalsyFailure(fx.analyze, AnalyzeFailed)
      else if fx.parse.Rejected? then Some(CaughtMessage(fx.parse.reason))
      else None
    else AckFailure(fx.writeResult)
  }

  /** The index of the first step from `i` on that fails, or the number of steps when none does. */
  function FirstFailingFrom(fx: Effects, i: nat): (k: nat)
    requires i <= |Pipeline|
    ensures i <= k <= |Pipeline|
    ensures k < |Pipeline| ==> StepFailure(fx, k).Some?
    ensures forall j :: i <= j < k ==> StepFailure(fx, j).None?
    decreases |Pipeline| - i
  {
    if i == |Pipeline| then i
    else if StepFailure(fx, i).Some? then i
    else FirstFailingFrom(fx, i + 1)
  }

  /** The step a run stops at: the first that throws. */
  function FirstFailingStep(fx: Effects): (k: nat)
    ensures k <= |Pipeline|
  {
    FirstFailingFrom(fx, 0)
  }

  /** When every step before `i` lets the run go on, the first failing step is the first from `i` on. */
  lemma {:induction false} FirstFailingSkips(fx: Effects, i: nat)
    requires i <= |Pipeline|
    requires forall j :: 0 <= j < i ==> StepFailure(fx, j).None?
    ensures FirstFailingStep(fx) == FirstFailingFrom(fx, i)
  {
    if i > 0 {
      FirstFailingSkips(fx, i - 1);
    }
  }

  /** Both uploads and the conversion produced what the code checks for. */
  predicate UploadsSucceed(fx: Effects) {
    && fx.uploadResume.Resolved? && fx.uploadResume.value.Some?
    && fx.convert.Resolved? && fx.convert.value.Some?
    && fx.uploadImage.Resolved? && fx.uploadImage.value.Some?
  }

  /** The record of the first write: everything but the feedback. */
  function StubRecord(uuid: string, form: Form, fx: Effects): Record
    requires UploadsSucceed(fx)
  {
    Record(uuid, fx.uploadResume.value.value, fx.uploadImage.value.value,
           form.companyName, form.jobTitle, form.jobDescription, Pending)
  }

  /** The steps reached by a run that stops at the step with index `i`. */
  function Reached(i: nat): seq<Step>
    requires i < |Pipeline|
  {
    Pipeline[..i + 1]
  }

  /** What steps 4 to 6 do once both uploads have succeeded: the steps reached, the store, the error. */
  datatype Persisted = Persisted(steps: seq<Step>, kv: map<string, Record>, failure: Option<string>)

  function PersistEffect(key: string, stub: Record, fx: Effects, kv: map<string, Record>): (r: Persisted)
    ensures 1 <= |r.steps| <= 3 && r.steps == Pipeline[3..3 + |r.steps|]
    // the writes and the analysis stop at the first of them that throws, with its message
    ensures var k := FirstFailingFrom(fx, 3);
      && (r.failure.None? <==> k == |Pipeline|)
      && (k < |Pipeline| ==> r.steps == Pipeline[3..k + 1] && r.failure == StepFailure(fx, k))
    ensures r.failure.None? ==> |r.steps| == 3
    ensures r.failure.Some? ==> r.failure.value != ""
    // both writes go to the same key; the second one fills in only the feedback
    ensures r.failure.None? ==> fx.parse.Resolved? && r.kv == kv[key := stub.(feedback := Parsed(fx.parse.value))]
    // a failure after the first write leaves the stub; a failed first write leaves the store alone
    ensures r.failure.Some? ==> r.kv == if fx.writeStub.Resolved? then kv[key := stub] else kv
  {
    match fx.writeStub
    case Rejected(e) => Persisted([WriteStub], kv, Some(CaughtMessage(e)))
    case Resolved(_) =>
      var kv1 := kv[key := stub];
      match fx.analyze
      case Rejected(e) => Persisted([WriteStub, Analyze], kv1, Some(CaughtMessage(e)))
      case Resolved(None) => Persisted([WriteStub, Analyze], kv1, Some(AnalyzeFailed))
      case Resolved(Some(_)) =>
        match fx.parse
        case Rejected(e) => Persisted([WriteStub, Analyze], kv1, Some(CaughtMessage(e)))
        case Resolved(feedback) =>
          match fx.writeResult
          case Rejected(e) => Persisted([WriteStub, Analyze, WriteResult], kv1, Some(CaughtMessage(e)))
          case Resolved(_) => Persisted([WriteStub, Analyze, WriteResult], kv[key := stub.(feedback := Parsed(feedback))], None)
  }

  /** Where and why the upload stage stops: the index of the failing step and the error text. */
  datatype Stop = Stop(at: nat, message: string)

  function UploadStop(fx: Effects): (stop: Stop)
    requires !UploadsSucceed(fx)
    ensures stop.at <= 2 && stop.message != ""
    // the stage stops at the first step that throws, with that step's message
    ensures stop.at == FirstFailingStep(fx) && StepFailure(fx, stop.at) == Some(stop.message)
    ensures stop.at == 0 <==> !(fx.uploadResume.Resolved? && fx.uploadResume.value.Some?)
    ensures stop.at == 1 <==>
      fx.uploadResume.Resolved? && fx.uploadResume.value.Some? && !(fx.convert.Resolved? && fx.convert.value.Some?)
    ensures fx.uploadResume == Resolved(None) ==> stop.message == UploadFileFailed
  {
    match fx.uploadResume
    case Rejected(e) => Stop(0, CaughtMessage(e))
    case Resolved(None) => Stop(0, UploadFileFailed)
    case Resolved(Some(_)) =>
      match fx.convert
      case Rejected(e) => FirstFailingSkips(fx, 1); Stop(1, CaughtMessage(e))
      case Resolved(None) => FirstFailingSkips(fx, 1); Stop(1, ConvertFailed)
      case Resolved(Some(_)) =>
        FirstFailingSkips(fx, 2);
        match fx.uploadImage
        case Rejected(e) => Stop(2, CaughtMessage(e))
        case Resolved(_) => Stop(2, UploadImageFailed)
  }

  /** What one run does. */
  datatype Run = Run(steps: seq<Step>, kv: map<string, Record>, blobs: set<string>, failure: Option<string>)

  function AnalyzeEffect(form: Form, uuid: string, fx: Effects, kv: map<string, Record>, blobs: set<string>): (r: Run)
    // the steps are a non-empty prefix of the fixed order, so none is skipped, reordered or repeated
    ensures 1 <= |r.steps| <= |Pipeline| && r.steps == Pipeline[..|r.steps|]
    ensures r.failure.None? ==> r.steps == Pipeline
    ensures r.failure.Some? ==> r.failure.value != ""
    // the run stops at its first step that throws, and shows that step's message
    ensures var k := FirstFailingStep(fx);
      && (r.failure.None? <==> k == |Pipeline|)
      && (k < |Pipeline| ==> r.steps == Pipeline[..k + 1] && r.failure == StepFailure(fx, k))
    // no record is written unless both uploads and the conversion succeeded
    ensures !UploadsSucceed(fx) ==> |r.steps| <= 3 && r.kv == kv && r.failure.Some?
    // a failure after the first write leaves the stub in place
    ensures UploadsSucceed(fx) && fx.writeStub.Resolved? && r.failure.Some? ==>
      r.kv == kv[RecordKey(uuid) := StubRecord(uuid, form, fx)]
    // a complete run stores the stub with only its feedback filled in
    ensures r.failure.None? ==>
      && UploadsSucceed(fx) && fx.parse.Resolved?
      && r.kv == kv[RecordKey(uuid) := StubRecord(uuid, form, fx).(feedback := Parsed(fx.parse.value))]
    // the file store gains exactly the paths the uploads reported
    ensures r.blobs == blobs + Uploaded(fx.uploadResume) +
      (if UploadsSucceed(fx) then Uploaded(fx.uploadImage) else {})
  {
    if !UploadsSucceed(fx) then
      var stop := UploadStop(fx);
      Run(Reached(stop.at), kv, blobs + Uploaded(fx.uploadResume), Some(stop.message))
    else
      var key := RecordKey(uuid);
      var p := PersistEffect(key, StubRecord(uuid, form, fx), fx, kv);
      FirstFailingSkips(fx, 3);
      assert Pipeline[..3] + Pipeline[3..3 + |p.steps|] == Pipeline[..3 + |p.steps|];
      Run(Pipeline[..3] + p.steps, p.kv, blobs + Uploaded(fx.uploadResume) + Uploaded(fx.uploadImage), p.failure)
  }

  /** One run writes only under its own key: every other record is left as it was. */
  lemma RunTouchesOnlyItsKey(form: Form, uuid: string, fx: Effects, kv: map<string, Record>, blobs: set<string>)
    ensures var r := AnalyzeEffect(form, uuid, fx, kv, blobs);
      r.kv - {RecordKey(uuid)} == kv - {RecordKey(uuid)}
  {
  }

  /** An upload that resolves to nothing ends the run at once with its own message. */
  lemma FalsyUploadStopsRun(form: Form, uuid: string, fx: Effects, kv: map<string, Record>, blobs: set<string>)
    requires fx.uploadResume == Resolved(None)
    ensures var r := AnalyzeEffect(form, uuid, fx, kv, blobs);
      r.steps == [UploadResume] && r.failure == Some(UploadFileFailed) && r.kv == kv && r.blobs == blobs
  {
  }

  /** After a complete run the results page finds the completed record under the id it is sent to. */
  lemma CompletedRunIsReadBack(form: Form, uuid: string, fx: Effects, kv: map<string, Record>, blobs: set<string>)
    requires AnalyzeEffect(form, uuid, fx, kv, blobs).failure.None?
    ensures var r := AnalyzeEffect(form, uuid, fx, kv, blobs);
      && LoadRecord(r.kv, uuid).Some?
      && LoadRecord(r.kv, uuid).value.feedback.Parsed?
      && LoadRecord(r.kv, uuid).value.(feedback := Pending) == StubRecord(uuid, form, fx)
  {
  }

  class UploadPage {
    var isProcessing: bool
    var statusText: string
    var error: Option<string>
    var file: Option<File>
    /** Where the router was sent, if anywhere. */
    var navigatedTo: Option<string>

    constructor ()
      ensures !isProcessing && statusText == "" && error.None? && file.None? && navigatedTo.None?
    {
      isProcessing, statusText, error, file, navigatedTo := false, "", None, None, None;
    }

    /** `handleFileSelect`, the callback given to the file picker. */
    method HandleFileSelect(selected: Option<File>)
      modifies this
      ensures file == selected && error.None?
      ensures isProcessing == old(isProcessing) && statusText == old(statusText) && navigatedTo == old(navigatedTo)
    {
      file := selected;
      error := None;
    }

    /** The catch block of `handleAnalyze`. */
    method Abort(msg: string)
      modifies this
      ensures error == Some(msg) && !isProcessing
      ensures statusText == old(statusText) && file == old(file) && navigatedTo == old(navigatedTo)
    {
      error := Some(msg);
      isProcessing := false;
    }

    /**
     * `handleAnalyze` for the chosen file. The file's bytes are not modelled: the outcome of
     * the first upload stands for them.
     */
    method HandleAnalyze(form: Form, chosen: File, uuid: string, fx: Effects, cloud: Storage) returns (steps: seq<Step>)
      modifies this, cloud
      ensures var r := AnalyzeEffect(form, uuid, fx, old(cloud.kv), old(cloud.blobs));
        && steps == r.steps && cloud.kv == r.kv && cloud.blobs == r.blobs
        && (r.failure.Some? ==>
              && !isProcessing && error == r.failure
              && statusText == StatusOf(steps[|steps| - 1]) && navigatedTo == old(navigatedTo))
        && (r.failure.None? ==>
              && isProcessing && error.None?
              && statusText == CompleteStatus && navigatedTo == Some("/resume/" + uuid))
      ensures file == old(file)
    {
      isProcessing := true;
      error := None;
      var resumePath, imagePath;
      steps, resumePath, imagePath := UploadFiles(fx, cloud);
      if error.Some? {
        return;
      }

      statusText := StatusOf(WriteStub);
      var data := Record(uuid, resumePath, imagePath, form.companyName, form.jobTitle, form.jobDescription, Pending);
      var rest := Persist(RecordKey(uuid), data, fx, cloud);
      steps := steps + rest;
      if error.None? {
        statusText := CompleteStatus;
        navigatedTo := Some("/resume/" + uuid);
      }
    }

    /**
     * Steps 1 to 3 of `handleAnalyze`: upload the document, convert it, upload the image.
     * Returns the steps reached and the two stored paths.
     */
    method UploadFiles(fx: Effects, cloud: Storage) returns (steps: seq<Step>, resumePath: string, imagePath: string)
      requires error.None?
      modifies this, cloud
      ensures cloud.kv == old(cloud.kv)
      ensures cloud.blobs == old(cloud.blobs) + Uploaded(fx.uploadResume) +
        (if UploadsSucceed(fx) then Uploaded(fx.uploadImage) else {})
      ensures UploadsSucceed(fx) ==>
        && steps == Pipeline[..3] && error.None? && isProcessing == old(isProcessing)
        && resumePath == fx.uploadResume.value.value && imagePath == fx.uploadImage.value.value
      ensures !UploadsSucceed(fx) ==>
        && steps == Reached(UploadStop(fx).at) && error == Some(UploadStop(fx).message) && !isProcessing
        && statusText == StatusOf(steps[|steps| - 1])
      ensures file == old(file) && navigatedTo == old(navigatedTo)
    {
      resumePath, imagePath := "", "";
      statusText := StatusOf(UploadResume);
      steps := [UploadResume];
      var uploadedFile := cloud.Upload(fx.uploadResume);
      if uploadedFile.Rejected? || uploadedFile.value.None? {
        assert UploadStop(fx).at == 0 && steps == Reached(0);
        var msg := if uploadedFile.Rejected? then CaughtMessage(uploadedFile.reason) else UploadFileFailed;
        Abort(msg);
        return;
      }
      resumePath := uploadedFile.value.value;
      steps, imagePath := ConvertAndUploadImage(fx, cloud);
    }

    /** Steps 2 and 3 of `handleAnalyze`, once the document is stored. */
    method ConvertAndUploadImage(fx: Effects, cloud: Storage) returns (steps: seq<Step>, imagePath: string)
      requires error.None? && fx.uploadResume.Resolved? && fx.uploadResume.value.Some?
      modifies this, cloud
      ensures cloud.kv == old(cloud.kv)
      ensures cloud.blobs == old(cloud.blobs) + (if UploadsSucceed(fx) then Uploaded(fx.uploadImage) else {})
      ensures UploadsSucceed(fx) ==>
        && steps == Pipeline[..3] && error.None? && isProcessing == old(isProcessing)
        && imagePath == fx.uploadImage.value.value
      ensures !UploadsSucceed(fx) ==>
        && steps == Reached(UploadStop(fx).at) && error == Some(UploadStop(fx).message) && !isProcessing
        && statusText == StatusOf(steps[|steps| - 1])
      ensures file == old(file) && navigatedTo == old(navigatedTo)
    {
      imagePath := "";
      statusText := StatusOf(ConvertToImage);
      steps := [UploadResume, ConvertToImage];
      if fx.convert.Rejected? || fx.convert.value.None? {
        assert UploadStop(fx).at == 1 && steps == Reached(1);
        var msg := if fx.convert.Rejected? then CaughtMessage(fx.convert.reason) else ConvertFailed;
        assert !UploadsSucceed(fx) && UploadStop(fx) == Stop(1, msg);
        Abort(msg);
        return;
      }

      statusText := StatusOf(UploadImage);
      steps := steps + [UploadImage];
      assert steps == Pipeline[..3] == Reached(2);
      var uploadedImage := cloud.Upload(fx.uploadImage);
      if uploadedImage.Rejected? || uploadedImage.value.None? {
        var msg := if uploadedImage.Rejected? then CaughtMessage(uploadedImage.reason) else UploadImageFailed;
        assert !UploadsSucceed(fx) && UploadStop(fx) == Stop(2, msg);
        Abort(msg);
        return;
      }
      assert UploadsSucceed(fx);
      imagePath := uploadedImage.value.value;
    }

    /** Steps 4 to 6 of `handleAnalyze`: write the stub, ask for feedback, write the completed record. */
    method Persist(key: string, stub: Record, fx: Effects, cloud: Storage) returns (steps: seq<Step>)
      requires error.None? && statusText == StatusOf(WriteStub)
      modifies this, cloud
      ensures var p := PersistEffect(key, stub, fx, old(cloud.kv));
        && steps == p.steps && cloud.kv == p.kv && cloud.blobs == old(cloud.blobs)
        && (p.failure.Some? ==> !isProcessing && error == p.failure && statusText == StatusOf(steps[|steps| - 1]))
        && (p.failure.None? ==> isProcessing == old(isProcessing) && error.None?)
      ensures file == old(file) && navigatedTo == old(navigatedTo)
    {
      steps := [WriteStub];
      var stubWrite := cloud.Set(key, stub, fx.writeStub);
      if stubWrite.Rejected? { Abort(CaughtMessage(stubWrite.reason)); return; }

      statusText := StatusOf(Analyze);
      steps := steps + [Analyze];
      if fx.analyze.Rejected? { Abort(CaughtMessage(fx.analyze.reason)); return; }
      if fx.analyze.value.None? { Abort(AnalyzeFailed); return; }
      if fx.parse.Rejected? { Abort(CaughtMessage(fx.parse.reason)); return; }

      // `data.feedback = JSON.parse(feedbackText)` changes the same object the first write sent
      var data := stub.(feedback := Parsed(fx.parse.value));
      steps := steps + [WriteResult];
      var resultWrite := cloud.Set(key, data, fx.writeResult);
      if resultWrite.Rejected? { Abort(CaughtMessage(resultWrite.reason)); return; }
    }

    /** `handleSubmit`: without a chosen file nothing is uploaded or written. */
    method HandleSubmit(form: Form, uuid: string, fx: Effects, cloud: Storage) returns (steps: seq<Step>)
      modifies this, cloud
      ensures file == old(file)
      ensures old(file).None? ==>
        && steps == [] && error == Some(MissingFile)
        && cloud.kv == old(cloud.kv) && cloud.blobs == old(cloud.blobs)
        && isProcessing == old(isProcessing) && statusText == old(statusText) && navigatedTo == old(navigatedTo)
      ensures old(file).Some? ==>
        var r := AnalyzeEffect(form, uuid, fx, old(cloud.kv), old(cloud.blobs));
        && steps == r.steps && cloud.kv == r.kv && cloud.blobs == r.blobs
        && (r.failure.Some? ==>
              && !isProcessing && error == r.failure
              && statusText == StatusOf(steps[|steps| - 1]) && navigatedTo == old(navigatedTo))
        && (r.failure.None? ==>
              && isProcessing && error.None?
              && statusText == CompleteStatus && navigatedTo == Some("/resume/" + uuid))
    {
      if file.None? {
        error := Some(MissingFile);
        return [];
      }
      steps := HandleAnalyze(form, file.value, uuid, fx, cloud);
    }
  }
}
