/**
 * The guards and actions of the visualization request endpoints: which
 * statuses may be updated, deleted, retried or regenerated, what each
 * action writes, the per-status statistics, and the owner-or-read-only
 * permission.
 */
module Views {
  import opened Common
  import opened RequestModel
  import Serializers

  /** `permissions.SAFE_METHODS`. */
  const SAFE_METHODS := {"GET", "HEAD", "OPTIONS"}

  /** `IsOwnerOrReadOnly.has_object_permission`. */
  function HasObjectPermission(httpMethod: string, ownerId: nat, userId: nat): (allowed: bool)
    ensures httpMethod in SAFE_METHODS ==> allowed
    ensures httpMethod !in SAFE_METHODS ==> (allowed <==> ownerId == userId)
  {
    httpMethod in SAFE_METHODS || ownerId == userId
  }

  /** The statuses an update is accepted in. */
  predicate Updatable(s: Status)
  {
    s == Pending || s == Failed
  }

  const UPDATE_REFUSED := "Cannot update requests that are processing or completed."
  const DELETE_REFUSED := "Cannot delete requests that are currently processing."
  const RETRY_REFUSED := "Only failed requests can be retried."

  /**
   * Why an update is not applied: the serializer's `ChoiceField` refuses the
   * screen type (a 400), the status check refuses the request (a 400), or
   * the database refuses the null the field lets through.
   */
  datatype UpdateError = InvalidChoice(value: Val) | Refused(message: string) | NullScreenType

  /** The `screen_type` field accepts the value: null, or one of the choice ids. */
  predicate ScreenTypeAccepted(v: Val)
  {
    v == VNone || (v.VStr? && v.s in SCREEN_TYPE_IDS)
  }

  /** The submitted data passes the serializer's validation of `screen_type`. */
  predicate ScreenTypeValid(data: Dict)
  {
    "screen_type" !in data || ScreenTypeAccepted(data["screen_type"])
  }

  /**
   * An update: the serializer validates 'screen_type' against the choices
   * first; `perform_update` then refuses a request that is not pending or
   * failed; otherwise the serializer keeps only 'screen_type' and saves it.
   * A null passes validation but the column is not nullable, so the save
   * fails and nothing is written.
   */
  method PerformUpdate(req: VisualizationRequest, data: Dict, now: int) returns (r: Result<(), UpdateError>)
    modifies req
    ensures !ScreenTypeValid(data) ==> r == Err(InvalidChoice(data["screen_type"])) && unchanged(req)
    ensures ScreenTypeValid(data) && !Updatable(old(req.status)) ==> r == Err(Refused(UPDATE_REFUSED)) && unchanged(req)
    ensures ScreenTypeValid(data) && Updatable(old(req.status)) && "screen_type" in data && data["screen_type"] == VNone ==>
      r == Err(NullScreenType) && unchanged(req)
    ensures r.Ok? <==>
      ScreenTypeValid(data) && Updatable(old(req.status)) && !("screen_type" in data && data["screen_type"] == VNone)
    ensures r.Ok? ==>
      req.inputs == (if "screen_type" in data then old(req.inputs).(screenType := data["screen_type"].s) else old(req.inputs))
    ensures r.Ok? ==> req.inputs.screenType in SCREEN_TYPE_IDS + [old(req.inputs.screenType)]
    ensures req.status == old(req.status) && req.progress == old(req.progress)
    ensures req.startedAt == old(req.startedAt) && req.completedAt == old(req.completedAt)
    ensures req.errorMessage == old(req.errorMessage) && req.statusMessage == old(req.statusMessage)
  {
    if "screen_type" in data && !ScreenTypeAccepted(data["screen_type"]) {
      return Err(InvalidChoice(data["screen_type"]));
    }
    if !(req.status == Pending || req.status == Failed) {
      return Err(Refused(UPDATE_REFUSED));
    }
    var kept := Serializers.FilterUpdateFields(data);
    if "screen_type" in kept {
      if kept["screen_type"] == VNone {
        return Err(NullScreenType);
      }
      req.inputs := req.inputs.(screenType := kept["screen_type"].s);
    }
    req.Save(now);
    r := Ok(());
  }

  /** `perform_destroy`: refused only while the request is processing. */
  method PerformDestroy(req: VisualizationRequest) returns (r: Result<(), string>)
    ensures r.Err? <==> req.status == Processing
    ensures r.Err? ==> r.error == DELETE_REFUSED
  {
    if req.status == Processing {
      return Err(DELETE_REFUSED);
    }
    r := Ok(());
  }

  /** The response of an action: the serialized request, or a 400 with an error. */
  datatype Reply = Serialized | BadRequest(error: string)

  /**
   * `retry`: a 400 that leaves the request as it is unless it failed; a
   * failed request goes back to pending with its error cleared. Progress,
   * message and timestamps are kept, and no processing is started.
   */
  method Retry(req: VisualizationRequest, now: int) returns (reply: Reply, triggered: bool)
    modifies req
    ensures !triggered
    ensures old(req.status) != Failed ==> reply == BadRequest(RETRY_REFUSED) && unchanged(req)
    ensures old(req.status) == Failed ==>
      && reply == Serialized && req.status == Pending && req.errorMessage == ""
      && req.progress == old(req.progress) && req.statusMessage == old(req.statusMessage)
      && req.startedAt == old(req.startedAt) && req.completedAt == old(req.completedAt)
      && req.inputs == old(req.inputs) && req.progressTrace == old(req.progressTrace)
  {
    triggered := false;
    if req.status != Failed {
      return BadRequest(RETRY_REFUSED), triggered;
    }
    req.status := Pending;
    req.errorMessage := "";
    req.Save(now);
    reply := Serialized;
  }

  /**
   * `regenerate`: whatever the status, back to pending at 0 with the error
   * cleared and the queued message, then processing is started.
   */
  method Regenerate(req: VisualizationRequest, now: int) returns (reply: Reply, triggered: bool)
    modifies req
    ensures reply == Serialized && triggered
    ensures req.Valid()
    ensures req.status == Pending && req.errorMessage == "" && req.progress == 0
    ensures req.statusMessage == "Queued for regeneration..."
    ensures req.progressTrace == old(req.progressTrace) + [0]
    ensures req.startedAt == old(req.startedAt) && req.completedAt == old(req.completedAt)
    ensures req.inputs == old(req.inputs)
  {
    req.status := Pending;
    req.errorMessage := "";
    req.progress := 0;
    req.progressTrace := req.progressTrace + [0];
    req.statusMessage := "Queued for regeneration...";
    req.Save(now);
    reply := Serialized;
    triggered := true;
  }

  /** The background thread's handler: an exception out of the processor fails the request with its text. */
  method BackgroundFailure(req: VisualizationRequest, error: string, now: int)
    requires req.Valid()
    modifies req
    ensures req.status == Failed && req.progress == 0
    ensures error != "" ==> req.errorMessage == error && req.statusMessage == FailedMessage(error)
  {
    req.MarkAsFailed(Some(error), now);
  }

  // ---------------------------------------------------------------------
  // Statistics

  datatype Stats = Stats(total: nat, pending: nat, processing: nat, completed: nat, failed: nat)

  /** The number of requests with a status. */
  function CountStatus(statuses: seq<Status>, s: Status): (n: nat)
    ensures n <= |statuses|
  {
    if statuses == [] then 0
    else (if statuses[0] == s then 1 else 0) + CountStatus(statuses[1..], s)
  }

  /** `stats`: the queryset's size and its count per status ('complete' reported as completed). */
  function GetStats(statuses: seq<Status>): Stats
  {
    Stats(|statuses|, CountStatus(statuses, Pending), CountStatus(statuses, Processing),
          CountStatus(statuses, Complete), CountStatus(statuses, Failed))
  }

  /** The four buckets partition the requests: their counts add up to the total. */
  lemma {:induction false} StatsPartition(statuses: seq<Status>)
    ensures var st := GetStats(statuses);
      st.pending + st.processing + st.completed + st.failed == st.total
  {
    if statuses != [] {
      StatsPartition(statuses[1..]);
    }
  }

  /** Counting is additive over concatenation, so the buckets of two lists add up. */
  lemma {:induction false} CountAppend(a: seq<Status>, b: seq<Status>, s: Status)
    ensures CountStatus(a + b, s) == CountStatus(a, s) + CountStatus(b, s)
  {
    if a != [] {
      assert (a + b)[1..] == a[1..] + b;
      CountAppend(a[1..], b, s);
    } else {
      assert a + b == b;
    }
  }
}
