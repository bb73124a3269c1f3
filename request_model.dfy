/**
 * The `VisualizationRequest` record: its status and progress state machine,
 * the timestamp fill-in of `clean()`, and the pure helpers beside it (the
 * upload-path builders and the image-size validator).
 *
 * `timezone.now()` is the parameter `now`; every `save()` runs `clean()`,
 * so each transition ends with it. The ghost field `progressTrace` records
 * every value written to `progress_percentage`, in order.
 */
module RequestModel {
  import opened Common
  import X = Executor
  import AuditService

  datatype Status = Pending | Processing | Complete | Failed

  /** The fields of a request that the processor reads and nothing in this model writes. */
  datatype Inputs = Inputs(
    screenType: string,
    screenCategories: seq<string>,
    opacity: Option<string>,
    frameColor: string,
    meshChoice: string,
    scope: Dict,
    tenantId: string)

  /** The ids of `SCREEN_TYPE_CHOICES`, the values `screen_type` may take. */
  const SCREEN_TYPE_IDS := ["window_fixed", "door_single", "door_sliding", "door_french", "door_accordion",
                            "patio_enclosure"]

  /** `status_message` is a `CharField(max_length=500)`. */
  const STATUS_MESSAGE_MAX := 500

  /** `min(100, max(0, progress))`. */
  function Clamp(p: int): (r: int)
    ensures 0 <= r <= 100
    ensures 0 <= p <= 100 ==> r == p
    ensures p < 0 ==> r == 0
    ensures p > 100 ==> r == 100
  {
    if p < 0 then 0 else if p > 100 then 100 else p
  }

  /** The start timestamp after `clean()`: filled in for a processing request, never overwritten. */
  function StartAfterClean(status: Status, startedAt: Option<int>, now: int): (r: Option<int>)
    ensures startedAt.Some? ==> r == startedAt
    ensures status == Processing ==> r.Some?
    ensures status != Processing ==> r == startedAt
    ensures r.Some? && startedAt.None? ==> r.value == now
  {
    if status == Processing && startedAt.None? then Some(now) else startedAt
  }

  /** The completion timestamp after `clean()`: filled in for a complete request, never overwritten. */
  function CompletionAfterClean(status: Status, completedAt: Option<int>, now: int): (r: Option<int>)
    ensures completedAt.Some? ==> r == completedAt
    ensures status == Complete ==> r.Some?
    ensures status != Complete ==> r == completedAt
    ensures r.Some? && completedAt.None? ==> r.value == now
  {
    if status == Complete && completedAt.None? then Some(now) else completedAt
  }

  /**
   * The status message of a failure with an error: "Failed: "+err, cut to
   * 497 characters plus "..." when it is longer than 500.
   */
  function FailedMessage(err: string): (m: string)
    ensures |m| <= STATUS_MESSAGE_MAX
    ensures |"Failed: " + err| <= STATUS_MESSAGE_MAX ==> m == "Failed: " + err
    ensures |"Failed: " + err| > STATUS_MESSAGE_MAX ==>
      |m| == STATUS_MESSAGE_MAX && m[..497] == ("Failed: " + err)[..497] && m[497..] == "..."
  {
    var msg := "Failed: " + err;
    if |msg| > STATUS_MESSAGE_MAX then msg[..497] + "..." else msg
  }

  /** A message the failure path keeps as it is: one that fits, whatever error caused it. */
  lemma {:induction false} ShortFailureKept(err: string)
    requires |err| <= STATUS_MESSAGE_MAX - 8
    ensures FailedMessage(err) == "Failed: " + err
    ensures StartsWith(FailedMessage(err), "Failed: ")
  {
    X.PrefixOfConcat("Failed: ", err);
  }

  class VisualizationRequest {
    var status: Status
    var progress: int
    var statusMessage: string
    var errorMessage: string
    var taskId: string
    var startedAt: Option<int>
    var completedAt: Option<int>
    var inputs: Inputs
    // The results the processor attaches.
    var cleanImage: Option<X.Image>
    var hasPdf: bool
    var auditReport: Option<AuditService.AuditReport>
    ghost var progressTrace: seq<int>

    /** The progress stays within 0..100. */
    ghost predicate Valid()
      reads this
    {
      0 <= progress <= 100
    }

    /** A new request, with the model's field defaults. */
    constructor (inputs: Inputs)
      ensures Valid()
      ensures status == Pending && progress == 0 && statusMessage == "" && errorMessage == ""
      ensures taskId == "" && startedAt.None? && completedAt.None?
      ensures this.inputs == inputs
      ensures cleanImage.None? && !hasPdf && auditReport.None? && progressTrace == []
    {
      status := Pending;
      progress := 0;
      statusMessage := "";
      errorMessage := "";
      taskId := "";
      startedAt := None;
      completedAt := None;
      this.inputs := inputs;
      cleanImage := None;
      hasPdf := false;
      auditReport := None;
      progressTrace := [];
    }

    /** `save()`: runs `clean()`, which fills a missing timestamp of a processing or complete request. */
    method Save(now: int)
      modifies this
      ensures startedAt == StartAfterClean(status, old(startedAt), now)
      ensures completedAt == CompletionAfterClean(status, old(completedAt), now)
      ensures status == old(status) && progress == old(progress) && statusMessage == old(statusMessage)
      ensures errorMessage == old(errorMessage) && taskId == old(taskId) && progressTrace == old(progressTrace)
      ensures inputs == old(inputs) && cleanImage == old(cleanImage) && hasPdf == old(hasPdf) && auditReport == old(auditReport)
    {
      if status == Processing && startedAt.None? {
        startedAt := Some(now);
      }
      if status == Complete && completedAt.None? {
        completedAt := Some(now);
      }
    }

    /** `mark_as_processing`: processing from 0, started now; a task id is stored only when one is given. */
    method MarkAsProcessing(task: Option<string>, now: int)
      requires Valid()
      modifies this
      ensures Valid()
      ensures status == Processing && progress == 0 && statusMessage == "Starting image processing..."
      ensures startedAt == Some(now) && completedAt == old(completedAt)
      ensures taskId == (if task.Some? && task.value != "" then task.value else old(taskId))
      ensures errorMessage == old(errorMessage) && progressTrace == old(progressTrace) + [0]
      ensures inputs == old(inputs) && cleanImage == old(cleanImage) && hasPdf == old(hasPdf) && auditReport == old(auditReport)
    {
      status := Processing;
      startedAt := Some(now);
      progress := 0;
      progressTrace := progressTrace + [0];
      statusMessage := "Starting image processing...";
      if task.Some? && task.value != "" {
        taskId := task.value;
      }
      Save(now);
    }

    /**
     * `update_progress`: the percentage clamped to 0..100, and the message
     * replaced only by a non-empty one.
     */
    method UpdateProgress(p: int, message: Option<string>, now: int)
      requires Valid()
      modifies this
      ensures Valid()
      ensures progress == Clamp(p) && progressTrace == old(progressTrace) + [Clamp(p)]
      ensures statusMessage == (if message.Some? && message.value != "" then message.value else old(statusMessage))
      ensures status == old(status) && errorMessage == old(errorMessage) && taskId == old(taskId)
      ensures startedAt == StartAfterClean(status, old(startedAt), now)
      ensures completedAt == CompletionAfterClean(status, old(completedAt), now)
      ensures inputs == old(inputs) && cleanImage == old(cleanImage) && hasPdf == old(hasPdf) && auditReport == old(auditReport)
    {
      progress := Clamp(p);
      progressTrace := progressTrace + [progress];
      if message.Some? && message.value != "" {
        statusMessage := message.value;
      }
      Save(now);
    }

    /** `mark_as_complete`: complete at 100, completed now, with the fixed success message. */
    method MarkAsComplete(now: int)
      requires Valid()
      modifies this
      ensures Valid()
      ensures status == Complete && progress == 100 && statusMessage == "Processing completed successfully!"
      ensures completedAt == Some(now) && startedAt == old(startedAt)
      ensures errorMessage == old(errorMessage) && taskId == old(taskId)
      ensures progressTrace == old(progressTrace) + [100]
      ensures inputs == old(inputs) && cleanImage == old(cleanImage) && hasPdf == old(hasPdf) && auditReport == old(auditReport)
    {
      status := Complete;
      completedAt := Some(now);
      progress := 100;
      progressTrace := progressTrace + [100];
      statusMessage := "Processing completed successfully!";
      Save(now);
    }

    /**
     * `mark_as_failed`: failed at 0. A non-empty error is stored and quoted,
     * cut to fit, in the status message; otherwise the message is the
     * generic one and the stored error is kept.
     */
    method MarkAsFailed(err: Option<string>, now: int)
      requires Valid()
      modifies this
      ensures Valid()
      ensures status == Failed && progress == 0 && progressTrace == old(progressTrace) + [0]
      ensures err.Some? && err.value != "" ==> errorMessage == err.value && statusMessage == FailedMessage(err.value)
      ensures !(err.Some? && err.value != "") ==> errorMessage == old(errorMessage) && statusMessage == "Processing failed"
      ensures startedAt == old(startedAt) && completedAt == old(completedAt) && taskId == old(taskId)
      ensures inputs == old(inputs) && cleanImage == old(cleanImage) && hasPdf == old(hasPdf) && auditReport == old(auditReport)
    {
      status := Failed;
      progress := 0;
      progressTrace := progressTrace + [0];
      if err.Some? && err.value != "" {
        errorMessage := err.value;
        statusMessage := FailedMessage(err.value);
      } else {
        statusMessage := "Processing failed";
      }
      Save(now);
    }

    /** `processing_duration`: completion minus start, only when both are set. */
    function ProcessingDuration(): (d: Option<int>)
      reads this
      ensures d.Some? <==> startedAt.Some? && completedAt.Some?
      ensures d.Some? ==> startedAt.value + d.value == completedAt.value
    {
      if startedAt.Some? && completedAt.Some? then Some(completedAt.value - startedAt.value) else None
    }
  }

  /**
   * A request that goes through processing and completion has both
   * timestamps, so its duration is defined; one that fails before
   * completing has none.
   */
  method ProcessingThenComplete(r: VisualizationRequest, start: int, finish: int)
    requires r.Valid() && r.completedAt.None?
    modifies r
    ensures r.ProcessingDuration() == Some(finish - start)
    ensures r.status == Complete && r.progressTrace == old(r.progressTrace) + [0, 100]
  {
    r.MarkAsProcessing(None, start);
    r.MarkAsComplete(finish);
  }

  // ---------------------------------------------------------------------
  // Validators and upload paths

  /** The largest accepted upload, 10 MiB. */
  const MAX_IMAGE_SIZE := 10 * 1024 * 1024

  /** `validate_image_size`: a `ValidationError` exactly for sizes above 10 MiB. */
  function ValidateImageSize(size: nat): (r: Result<(), string>)
    ensures r.Err? <==> size > 10485760
    ensures r.Err? ==> r.error == "Image size cannot exceed 10.0MB"
  {
    if size > MAX_IMAGE_SIZE then Err("Image size cannot exceed 10.0MB") else Ok(())
  }

  /** `filename.split('.')[-1]`: the text after the last '.', or the whole name when it has none. */
  function Extension(filename: string): (ext: string)
    ensures |ext| <= |filename| && ext == filename[|filename| - |ext|..]
    ensures forall k :: 0 <= k < |ext| ==> ext[k] != '.'
    ensures |ext| == |filename| || filename[|filename| - |ext| - 1] == '.'
  {
    match X.LastIndex(filename, '.')
    case None => filename
    case Some(i) => filename[i + 1..]
  }

  /** The extension of a name ending in "." followed by a dot-free text is that text. */
  lemma ExtensionOfJoin(name: string, ext: string)
    requires forall k :: 0 <= k < |ext| ==> ext[k] != '.'
    ensures Extension(name + "." + ext) == ext
  {
    var s := name + "." + ext;
    assert s[|name|] == '.';
    assert forall k :: |name| < k < |s| ==> s[k] == ext[k - |name| - 1];
    assert s[|name| + 1..] == ext;
  }

  /** `os.path.join(a, b, c)` for relative, non-empty components. */
  function Join3(a: string, b: string, c: string): (path: string)
    ensures StartsWith(path, a + "/" + b + "/")
  {
    X.PrefixOfConcat(a + "/" + b + "/", c);
    a + "/" + b + "/" + c
  }

  /** A path joined from a stem and a file's extension has that extension. */
  lemma JoinedExtension(a: string, b: string, stem: string, filename: string)
    ensures Extension(Join3(a, b, stem + "." + Extension(filename))) == Extension(filename)
  {
    var e := Extension(filename);
    var dir := a + "/" + b + "/";
    AppendAssoc(dir, stem, e);
    ExtensionOfJoin(dir + stem, e);
  }

  lemma AppendAssoc(dir: string, stem: string, ext: string)
    ensures dir + (stem + "." + ext) == dir + stem + "." + ext
  {
  }

  /** `upload_to_originals`: `originals/<user id>/<uuid>.<ext>`. */
  function UploadToOriginals(userId: string, uuid: string, filename: string): (path: string)
    ensures Extension(path) == Extension(filename)
    ensures StartsWith(path, "originals/" + userId + "/")
  {
    JoinedExtension("originals", userId, uuid, filename);
    Join3("originals", userId, uuid + "." + Extension(filename))
  }

  /** Who owns the file a generated image is uploaded for. */
  datatype Owner = GeneratedImageOf(requestUserId: string) | RequestOf(userId: string)
  {
    /** The user whose directory receives the file. */
    function UserId(): string
    {
      match this
      case GeneratedImageOf(u) => u
      case RequestOf(u) => u
    }
  }

  /** `upload_to_generated`: `generated/<user id>/<uuid>.<ext>`, the user being the request's. */
  function UploadToGenerated(owner: Owner, uuid: string, filename: string): (path: string)
    ensures Extension(path) == Extension(filename)
    ensures StartsWith(path, "generated/" + owner.UserId() + "/")
  {
    var userId := owner.UserId();
    JoinedExtension("generated", userId, uuid, filename);
    Join3("generated", userId, uuid + "." + Extension(filename))
  }

  /** `upload_to_reference_images`: `reference_images/<tenant id>/<uuid>.<ext>`. */
  function UploadToReferenceImages(tenantId: string, uuid: string, filename: string): (path: string)
    ensures Extension(path) == Extension(filename)
    ensures StartsWith(path, "reference_images/" + tenantId + "/")
  {
    JoinedExtension("reference_images", tenantId, uuid, filename);
    Join3("reference_images", tenantId, uuid + "." + Extension(filename))
  }

  /** `upload_to_reference_thumbnails`: `reference_images/<tenant id>/thumbs/<uuid>_thumb.<ext>`. */
  function UploadToReferenceThumbnails(tenantId: string, uuid: string, filename: string): (path: string)
    ensures Extension(path) == Extension(filename)
    ensures StartsWith(path, "reference_images/" + tenantId + "/")
  {
    JoinedExtension("reference_images", tenantId, "thumbs/" + uuid + "_thumb", filename);
    Join3("reference_images", tenantId, ("thumbs/" + uuid + "_thumb") + "." + Extension(filename))
  }
}
