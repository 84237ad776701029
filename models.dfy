/** The pydantic request models of planobs/models.py: a ToO target, a
    validity window and a ToO request. Each constructor validates its fields
    and, on failure, reports the set of fields that failed, as pydantic's
    ValidationError lists every failing field. */
module Models {
  import opened Wrappers
  import opened Text

  const ZTF_FILTER_IDS: seq<int> := [1, 2, 3]
  const ZTF_PROGRAM_IDS: seq<int> := [1, 2, 3]

  datatype TooTarget = TooTarget(
    requestId: int,
    fieldId: int,
    filterId: int,
    subprogramName: string,
    programPi: string,
    programId: int,
    exposureTime: real)

  datatype TargetField = RequestId | FilterId | ProgramId | ExposureTime

  /** The constraints TooTarget puts on its fields. */
  predicate ValidTarget(t: TooTarget) {
    && t.requestId >= 0
    && t.filterId in ZTF_FILTER_IDS
    && t.programId in ZTF_PROGRAM_IDS
    && 0.0 <= t.exposureTime <= 600.0
  }

  /** TooTarget(...): the defaults are request_id 1, "ToO_Neutrino", "Kulkarni",
      program_id 2 and a 30 s exposure. */
  function NewTooTarget(
    fieldId: int, filterId: int, requestId: int := 1, subprogramName: string := "ToO_Neutrino",
    programPi: string := "Kulkarni", programId: int := 2, exposureTime: real := 30.0)
    : (r: Result<TooTarget, set<TargetField>>)
    ensures r.Success? <==> requestId >= 0 && filterId in {1, 2, 3} && programId in {1, 2, 3}
                            && 0.0 <= exposureTime <= 600.0
    ensures r.Success? ==> ValidTarget(r.value)
                           && r.value == TooTarget(requestId, fieldId, filterId, subprogramName,
                                                   programPi, programId, exposureTime)
    ensures r.Failure? ==> r.error != {}
                           && (RequestId in r.error <==> requestId < 0)
                           && (FilterId in r.error <==> filterId !in {1, 2, 3})
                           && (ProgramId in r.error <==> programId !in {1, 2, 3})
                           && (ExposureTime in r.error <==> !(0.0 <= exposureTime <= 600.0))
  {
    var errs :=
      (if requestId >= 0 then {} else {RequestId})
      + (if filterId in ZTF_FILTER_IDS then {} else {FilterId})
      + (if programId in ZTF_PROGRAM_IDS then {} else {ProgramId})
      + (if 0.0 <= exposureTime <= 600.0 then {} else {ExposureTime});
    if errs == {} then
      Success(TooTarget(requestId, fieldId, filterId, subprogramName, programPi, programId, exposureTime))
    else
      Failure(errs)
  }

  /** Rebuilding a valid target from its own fields gives it back. */
  lemma TargetRoundTrip(t: TooTarget)
    requires ValidTarget(t)
    ensures NewTooTarget(t.fieldId, t.filterId, t.requestId, t.subprogramName, t.programPi,
                         t.programId, t.exposureTime) == Success(t)
  {
  }

  /** With only field and filter given, a target is valid exactly when the
      filter is a ZTF filter, and it carries the documented defaults. */
  lemma TargetDefaults(fieldId: int, filterId: int)
    ensures NewTooTarget(fieldId, filterId).Success? <==> filterId in ZTF_FILTER_IDS
    ensures NewTooTarget(fieldId, filterId).Success? ==>
              NewTooTarget(fieldId, filterId).value
                == TooTarget(1, fieldId, filterId, "ToO_Neutrino", "Kulkarni", 2, 30.0)
  {
  }

  datatype ValidityWindow = ValidityWindow(startMjd: real, endMjd: real) {
    /** export(): [start_mjd, end_mjd]; ExportRoundTrip and
        WindowExportMakesRequest show it rebuilds the window and passes the
        request check. */
    function Export(): (l: seq<real>)
      ensures |l| == 2 && l[0] == startMjd && l[1] == endMjd
    {
      [startMjd, endMjd]
    }
  }

  datatype WindowError = EndNotAfterStart

  /** ValidityWindow(start_mjd, end_mjd): the end must lie strictly after the start. */
  function NewValidityWindow(startMjd: real, endMjd: real): (r: Result<ValidityWindow, WindowError>)
    ensures r.Success? <==> endMjd > startMjd
    ensures r.Success? ==> r.value.startMjd == startMjd && r.value.endMjd == endMjd
    ensures r.Failure? ==> r.error == EndNotAfterStart
  {
    if endMjd > startMjd then Success(ValidityWindow(startMjd, endMjd)) else Failure(EndNotAfterStart)
  }

  /** Exporting a valid window and building a window from the exported list
      gives the same window back. */
  lemma ExportRoundTrip(start: real, end: real)
    requires NewValidityWindow(start, end).Success?
    ensures var l := NewValidityWindow(start, end).value.Export();
            NewValidityWindow(l[0], l[1]) == NewValidityWindow(start, end)
  {
  }

  datatype TooRequest = TooRequest(
    user: string,
    queueName: string,
    queueType: string,
    validityWindowMjd: seq<real>,
    targets: seq<TooTarget>)

  datatype RequestField = QueueName | ValidityWindowMjd | Targets

  /** check_queue_name: field_value[:4] == "ToO_" or field_value[:5] == "TEST_". */
  predicate QueueNameAccepted(queueName: string)
    ensures QueueNameAccepted(queueName) <==>
              (|queueName| >= 4 && queueName[..4] == "ToO_") || (|queueName| >= 5 && queueName[..5] == "TEST_")
  {
    Take(queueName, 4) == "ToO_" || Take(queueName, 5) == "TEST_"
  }

  /** The fields of a TooRequest that fail validation: the queue name prefix,
      a window of exactly two items and at least one target. */
  function RequestValidation(queueName: string, validityWindowMjd: seq<real>, targetCount: nat)
    : (errs: set<RequestField>)
    ensures QueueName in errs <==> !(|queueName| >= 4 && queueName[..4] == "ToO_")
                                   && !(|queueName| >= 5 && queueName[..5] == "TEST_")
    ensures ValidityWindowMjd in errs <==> |validityWindowMjd| != 2
    ensures Targets in errs <==> targetCount == 0
  {
    (if QueueNameAccepted(queueName) then {} else {QueueName})
    + (if |validityWindowMjd| == 2 then {} else {ValidityWindowMjd})
    + (if targetCount >= 1 then {} else {Targets})
  }

  /** TooRequest(...), with queue_type defaulting to "list". */
  function NewTooRequest(
    user: string, queueName: string, validityWindowMjd: seq<real>, targets: seq<TooTarget>,
    queueType: string := "list")
    : (r: Result<TooRequest, set<RequestField>>)
    ensures r.Success? <==> RequestValidation(queueName, validityWindowMjd, |targets|) == {}
    ensures r.Success? ==> r.value == TooRequest(user, queueName, queueType, validityWindowMjd, targets)
                           && |r.value.validityWindowMjd| == 2 && |r.value.targets| >= 1
    ensures r.Failure? ==> r.error == RequestValidation(queueName, validityWindowMjd, |targets|)
  {
    var errs := RequestValidation(queueName, validityWindowMjd, |targets|);
    if errs == {} then Success(TooRequest(user, queueName, queueType, validityWindowMjd, targets))
    else Failure(errs)
  }

  /** A request built from a valid window's export and one target passes,
      and gets queue_type "list" by default. */
  lemma WindowExportMakesRequest(user: string, queueName: string, w: ValidityWindow, t: TooTarget)
    requires QueueNameAccepted(queueName)
    ensures NewTooRequest(user, queueName, w.Export(), [t])
              == Success(TooRequest(user, queueName, "list", [w.startMjd, w.endMjd], [t]))
  {
  }
}
