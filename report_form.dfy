/** The waste report form: the state it keeps while a citizen photographs a
    site, the rules that pre-fill its description and address, the ordered
    checks run on submit, and the complaint document it hands to the store.
    The classifier, the summarizer, geolocation, the session and the clock are
    inputs to the handlers. */
module ReportForm {
  import opened Types

  /** The signed-in (possibly anonymous) session user. */
  datatype User = User(uid: string, displayName: Option<string>)

  /** How a call to one of the two model services ended. */
  datatype ClassifierCall = Classified(output: ClassifierOutput) | ClassifierThrew
  datatype SummaryCall = Summarized(output: SummaryOutput) | SummarizerThrew

  /** What a location request ends in: no geolocation API in the browser,
      the error callback (permission denied, position unavailable or
      timeout alike), or a position. `latText` and `lngText` are the
      coordinates rendered to four decimals. */
  datatype GeoEvent =
    | NoGeolocationApi
    | PositionError
    | Position(coords: Coords, latText: string, lngText: string)

  /** The toast a handler shows, if any. */
  datatype Notice = Silent | LocationCaptured | LocationError | NoWasteDetected | AnalysisFailed

  /** The submit checks, named after the toast each one raises, in the order they run. */
  datatype Check = ImageRequired | LocationRequired | DescriptionRequired | SessionError

  /** How a press of the submit button ends. */
  datatype SubmitOutcome =
    | Rejected(check: Check)          // a check failed: nothing is sent anywhere
    | SubmissionFailed                // the summarizer threw: nothing is written
    | Written(record: NewComplaint)   // the document handed to the store

  /** The form's own fields, as plain values. */
  datatype FormFields = FormFields(
    image: Option<string>,
    description: string,
    address: string,
    aiResult: Option<ClassifierOutput>,
    location: Option<Coords>)

  const MinDescriptionLength: nat := 5
  const AnonymousName: string := "Anonymous Citizen"

  const EmptyForm: FormFields := FormFields(None, "", "", None, None)

  // ---------------------------------------------------------------------------
  // Submit checks

  /** The position of a check in the order the submit handler runs them. */
  function Rank(k: Check): nat
  {
    match k
    case ImageRequired => 0
    case LocationRequired => 1
    case DescriptionRequired => 2
    case SessionError => 3
  }

  /** Whether one check accepts the form and session. Each test is the
      handler's falsiness test on a string or the session; the description
      test's separate emptiness test is subsumed by the length bound. */
  predicate Passes(k: Check, f: FormFields, user: Option<User>): (p: bool)
    ensures k == ImageRequired ==> (p <==> f.image.Some? && f.image.value != "")
    ensures k == LocationRequired ==> (p <==> f.address != "")
    ensures k == DescriptionRequired ==> (p <==> f.description != "" && |f.description| >= MinDescriptionLength)
    ensures k == SessionError ==> (p <==> user.Some?)
  {
    match k
    case ImageRequired => f.image.Some? && f.image.value != ""
    case LocationRequired => f.address != ""
    case DescriptionRequired => |f.description| >= MinDescriptionLength
    case SessionError => user.Some?
  }

  /** The check whose toast the submit handler shows, or None when all pass. */
  function FirstFailedCheck(f: FormFields, user: Option<User>): (r: Option<Check>)
    ensures r.None? <==> forall k: Check :: Passes(k, f, user)
    ensures r.Some? ==> !Passes(r.value, f, user)
    ensures r.Some? ==> forall k: Check :: Rank(k) < Rank(r.value) ==> Passes(k, f, user)
  {
    if f.image.None? || f.image.value == "" then
      assert !Passes(ImageRequired, f, user);
      Some(ImageRequired)
    else if f.address == "" then
      assert !Passes(LocationRequired, f, user);
      Some(LocationRequired)
    else if f.description == "" || |f.description| < MinDescriptionLength then
      assert !Passes(DescriptionRequired, f, user);
      Some(DescriptionRequired)
    else if user.None? then
      assert !Passes(SessionError, f, user);
      Some(SessionError)
    else None
  }

  // ---------------------------------------------------------------------------
  // The complaint document

  /** The stored analysis: the classifier's fields, with defaults for what it did not supply. */
  function AnalysisOf(aiResult: Option<ClassifierOutput>, description: string): (a: AiAnalysis)
    ensures a.wasteType.Some? && a.severity.Some?
    ensures aiResult.None? ==> a == AiAnalysis(false, Some(Unknown), Some(Medium), description)
    ensures aiResult.Some? ==> a.wasteDetected == aiResult.value.wasteDetected
    ensures aiResult.Some? ==> a.analysisDetails == aiResult.value.analysisDetails
    ensures aiResult.Some? && aiResult.value.wasteType.Some? ==> a.wasteType == aiResult.value.wasteType
    ensures aiResult.Some? && aiResult.value.wasteType.None? ==> a.wasteType == Some(Unknown)
    ensures aiResult.Some? && aiResult.value.severity.Some? ==> a.severity == aiResult.value.severity
    ensures aiResult.Some? && aiResult.value.severity.None? ==> a.severity == Some(Medium)
  {
    match aiResult
    case None => AiAnalysis(false, Some(Unknown), Some(Medium), description)
    case Some(out) =>
      AiAnalysis(
        out.wasteDetected,
        Some(if out.wasteType.Some? then out.wasteType.value else Unknown),
        Some(if out.severity.Some? then out.severity.value else Medium),
        out.analysisDetails)
  }

  /** The reporter's name: the display name unless it is absent or empty. */
  function ReporterName(user: User): (name: string)
    ensures name != ""
    ensures user.displayName.Some? && user.displayName.value != "" ==> name == user.displayName.value
    ensures user.displayName.None? || user.displayName.value == "" ==> name == AnonymousName
  {
    if user.displayName.Some? && user.displayName.value != "" then user.displayName.value
    else AnonymousName
  }

  /** The document written when every check passed and the summarizer answered. */
  function BuildComplaint(f: FormFields, user: User, summary: SummaryOutput, now: string): (r: NewComplaint)
    requires f.image.Some?
    ensures r.status == Pending
    ensures r.userId == user.uid && r.userName == ReporterName(user)
    ensures r.imageUrl == f.image.value
    ensures r.description == f.description
    ensures r.location.address == f.address
    ensures f.location.None? ==> r.location.lat == 0.0 && r.location.lng == 0.0
    ensures f.location.Some? ==> r.location.lat == f.location.value.lat && r.location.lng == f.location.value.lng
    ensures r.aiSummary == summary.summary && r.aiKeyDetails == summary.keyDetails
    ensures r.aiAnalysis == AnalysisOf(f.aiResult, f.description)
    ensures r.createdAt == now
  {
    NewComplaint(
      user.uid,
      ReporterName(user),
      f.image.value,
      match f.location
      case Some(c) => Location(c.lat, c.lng, f.address)
      case None => Location(0.0, 0.0, f.address),
      f.description,
      summary.summary,
      summary.keyDetails,
      AnalysisOf(f.aiResult, f.description),
      Pending,
      now)
  }

  /** The whole submit handler as a value: checks in order, then the
      summarizer, then the document. */
  function Submit(f: FormFields, user: Option<User>, call: SummaryCall, now: string): (r: SubmitOutcome)
    ensures r.Rejected? <==> FirstFailedCheck(f, user).Some?
    ensures r.Rejected? ==> r.check == FirstFailedCheck(f, user).value
    ensures r.SubmissionFailed? <==> FirstFailedCheck(f, user).None? && call.SummarizerThrew?
    ensures r.Written? <==> FirstFailedCheck(f, user).None? && call.Summarized?
    ensures r.Written? ==> r.record == BuildComplaint(f, user.value, call.output, now)
  {
    match FirstFailedCheck(f, user)
    case Some(k) => Rejected(k)
    case None =>
      match call
      case SummarizerThrew => SubmissionFailed
      case Summarized(summary) => Written(BuildComplaint(f, user.value, summary, now))
  }

  /** A document is written only if every check passed and the summarizer answered. */
  lemma WrittenOnlyWhenAllPass(f: FormFields, user: Option<User>, call: SummaryCall, now: string)
    ensures Submit(f, user, call, now).Written? <==>
              (forall k: Check :: Passes(k, f, user)) && call.Summarized?
  {
  }

  /** A rejected submission never consults the summarizer or the clock:
      the outcome is the same whatever they would have produced. */
  lemma RejectionIgnoresSummarizer(f: FormFields, user: Option<User>,
                                   call1: SummaryCall, now1: string,
                                   call2: SummaryCall, now2: string)
    requires FirstFailedCheck(f, user).Some?
    ensures Submit(f, user, call1, now1) == Submit(f, user, call2, now2)
  {
  }

  /** Every written document satisfies what the checks demanded, and is pending. */
  lemma WrittenRecordWellFormed(f: FormFields, user: Option<User>, call: SummaryCall, now: string)
    requires Submit(f, user, call, now).Written?
    ensures var r := Submit(f, user, call, now).record;
      && r.imageUrl != ""
      && r.location.address != ""
      && |r.description| >= MinDescriptionLength
      && r.userName != ""
      && r.status == Pending
      && r.aiAnalysis.wasteType.Some? && r.aiAnalysis.severity.Some?
  {
  }

  /** The stored analysis read back as a classifier output. */
  function ClassificationOf(a: AiAnalysis): ClassifierOutput
  {
    ClassifierOutput(a.wasteDetected, a.wasteType, a.severity, a.analysisDetails)
  }

  /** When the classifier named both a type and a severity, the document
      carries its output unchanged; without a classification, the defaults. */
  lemma RecordKeepsClassification(f: FormFields, user: User, summary: SummaryOutput, now: string)
    requires f.image.Some?
    ensures var r := BuildComplaint(f, user, summary, now);
      && (f.aiResult.Some? && f.aiResult.value.wasteType.Some? && f.aiResult.value.severity.Some? ==>
            ClassificationOf(r.aiAnalysis) == f.aiResult.value)
      && (f.aiResult.None? ==>
            ClassificationOf(r.aiAnalysis) == ClassifierOutput(false, Some(Unknown), Some(Medium), f.description))
  {
  }

  /** Without a classification the stored analysis still names a type and a
      severity although it reports that no waste was detected. */
  lemma UndetectedStillTyped(f: FormFields, user: User, summary: SummaryOutput, now: string)
    requires f.image.Some? && f.aiResult.None?
    ensures var a := BuildComplaint(f, user, summary, now).aiAnalysis;
      !a.wasteDetected && a.wasteType == Some(Unknown) && a.severity == Some(Medium)
  {
  }

  /** The edges of the checks: a blank-looking address passes, a
      four-character description fails and a five-character one passes. */
  lemma CheckBoundaries(f: FormFields, user: Option<User>)
    requires f.image == Some("data:image/jpeg;base64,AA") && user.Some?
    ensures FirstFailedCheck(f.(address := " ", description := "bags!"), user).None?
    ensures FirstFailedCheck(f.(address := " ", description := "bags"), user) == Some(DescriptionRequired)
    ensures FirstFailedCheck(f.(address := "", description := "bags"), user) == Some(LocationRequired)
  {
  }

  /** A citizen reports a pile of bags at West Tower while signed in: the
      document is pending, carries the classification and the summary. */
  lemma WestTowerScenario(photo: string, out: ClassifierOutput, summary: SummaryOutput, now: string)
    requires photo != "" && out.wasteType.Some? && out.severity.Some?
    ensures var f := FormFields(Some(photo), "plastic bags near gate", "West Tower", Some(out), None);
      var r := Submit(f, Some(User("u1", None)), Summarized(summary), now);
      && r.Written?
      && r.record.status == Pending
      && r.record.userName == AnonymousName
      && r.record.location == Location(0.0, 0.0, "West Tower")
      && r.record.aiAnalysis.wasteType == out.wasteType
      && r.record.aiSummary == summary.summary
  {
  }

  // ---------------------------------------------------------------------------
  // Pre-fill rules

  /** The description after a classification: its details fill an empty
      description when waste was detected; typed text is never replaced. */
  function PrefilledDescription(description: string, out: ClassifierOutput): (r: string)
    ensures description != "" ==> r == description
    ensures r != description ==> out.wasteDetected && r == out.analysisDetails
    ensures description == "" && out.wasteDetected ==> r == out.analysisDetails
  {
    if out.wasteDetected && out.analysisDetails != "" && description == "" then out.analysisDetails
    else description
  }

  /** The address line for captured coordinates. */
  function CoordinatesText(latText: string, lngText: string): (r: string)
    ensures ',' in r
  {
    assert (latText + ", " + lngText)[|latText|] == ',';
    latText + ", " + lngText
  }

  /** The address after a position is captured: the coordinates replace an
      empty address or one containing a comma (such as earlier coordinates);
      any other typed address is kept. */
  function CapturedAddress(address: string, latText: string, lngText: string): (r: string)
    ensures address != "" && ',' !in address ==> r == address
    ensures address == "" || ',' in address ==> r == CoordinatesText(latText, lngText)
  {
    if address == "" || ',' in address then CoordinatesText(latText, lngText) else address
  }

  /** Capturing twice is capturing once with the later position: either the
      typed address survives both, or the later coordinates win. */
  lemma LaterCaptureWins(address: string, lat1: string, lng1: string, lat2: string, lng2: string)
    ensures CapturedAddress(CapturedAddress(address, lat1, lng1), lat2, lng2)
         == CapturedAddress(address, lat2, lng2)
  {
  }

  // ---------------------------------------------------------------------------
  // State transitions of the form's fields

  /** Coherence of the fields between handlers: a classification exists only
      for a photo that is still attached. */
  predicate Coherent(f: FormFields)
  {
    f.aiResult.Some? ==> f.image.Some?
  }

  function AfterAnalysis(f: FormFields, call: ClassifierCall): (g: FormFields)
    ensures g.image == f.image && g.address == f.address && g.location == f.location
    ensures call.ClassifierThrew? ==> g == f
    ensures call.Classified? ==> g.aiResult == Some(call.output)
    ensures call.Classified? ==> g.description == PrefilledDescription(f.description, call.output)
  {
    match call
    case ClassifierThrew => f
    case Classified(out) =>
      f.(aiResult := Some(out), description := PrefilledDescription(f.description, out))
  }

  /** The toast after a classification: a failure toast when the call threw,
      a "no waste" toast when nothing was detected, otherwise none. */
  function AnalysisNotice(call: ClassifierCall): (n: Notice)
    ensures n == AnalysisFailed <==> call.ClassifierThrew?
    ensures n == NoWasteDetected <==> call.Classified? && !call.output.wasteDetected
    ensures n == Silent <==> call.Classified? && call.output.wasteDetected
  {
    match call
    case ClassifierThrew => AnalysisFailed
    case Classified(out) => if out.wasteDetected then Silent else NoWasteDetected
  }

  function AfterLocation(f: FormFields, e: GeoEvent): (g: FormFields)
    ensures g.image == f.image && g.description == f.description && g.aiResult == f.aiResult
    ensures !e.Position? ==> g == f
    ensures e.Position? ==> g.location == Some(e.coords)
    ensures e.Position? ==> g.address == CapturedAddress(f.address, e.latText, e.lngText)
  {
    match e
    case Position(c, latText, lngText) =>
      f.(location := Some(c), address := CapturedAddress(f.address, latText, lngText))
    case _ => f
  }

  /** The toast after a geolocation request; none when the browser has no geolocation. */
  function LocationNotice(e: GeoEvent): (n: Notice)
    ensures n == LocationCaptured <==> e.Position?
    ensures n == LocationError <==> e.PositionError?
    ensures n == Silent <==> e.NoGeolocationApi?
  {
    match e
    case NoGeolocationApi => Silent
    case PositionError => LocationError
    case Position(_, _, _) => LocationCaptured
  }

  function AfterRemoveImage(f: FormFields): (g: FormFields)
    ensures g.image.None? && g.aiResult.None?
    ensures g.description == f.description && g.address == f.address && g.location == f.location
  {
    f.(image := None, aiResult := None)
  }

  /** A description the citizen typed survives any classification. */
  lemma TypedDescriptionSurvivesAnalysis(f: FormFields, call: ClassifierCall)
    requires f.description != ""
    ensures AfterAnalysis(f, call).description == f.description
  {
  }

  /** A typed address without a comma survives any number of captures, and
      the location is still recorded. */
  lemma {:induction false} TypedAddressSurvivesCaptures(f: FormFields, events: seq<GeoEvent>)
    requires f.address != "" && ',' !in f.address
    ensures AfterLocations(f, events).address == f.address
    ensures AfterLocations(f, events).description == f.description
    decreases |events|
  {
    if events != [] {
      TypedAddressSurvivesCaptures(AfterLocation(f, events[0]), events[1..]);
    }
  }

  /** Repeated geolocation events, applied in order. */
  function AfterLocations(f: FormFields, events: seq<GeoEvent>): FormFields
    decreases |events|
  {
    if events == [] then f else AfterLocations(AfterLocation(f, events[0]), events[1..])
  }

  /** Every handler keeps the fields coherent. */
  lemma TransitionsKeepCoherent(f: FormFields, call: ClassifierCall, e: GeoEvent, uri: string)
    requires Coherent(f)
    ensures Coherent(AfterLocation(f, e))
    ensures Coherent(AfterRemoveImage(f))
    ensures Coherent(AfterAnalysis(f.(image := Some(uri)), call))
  {
  }

  // ---------------------------------------------------------------------------
  // The form component

  class Form {
    var image: Option<string>
    var description: string
    var address: string
    var isAnalyzing: bool
    var isSubmitting: bool
    var aiResult: Option<ClassifierOutput>
    var location: Option<Coords>

    /** Between handlers neither busy flag is set and the fields are coherent. */
    ghost predicate Valid()
      reads this
    {
      !isAnalyzing && !isSubmitting && Coherent(Fields())
    }

    function Fields(): FormFields
      reads this
    {
      FormFields(image, description, address, aiResult, location)
    }

    /** The submit button is enabled exactly when idle with a photo that the
        handler's image check accepts (a check that ignores the session);
        pressing it then never draws the "Image Required" toast. */
    function CanSubmit(): (ok: bool)
      reads this
      ensures ok <==> !isAnalyzing && !isSubmitting && Passes(ImageRequired, Fields(), None)
      ensures ok ==> forall user: Option<User> :: FirstFailedCheck(Fields(), user) != Some(ImageRequired)
    {
      !(isSubmitting || isAnalyzing || image.None? || image.value == "")
    }

    constructor ()
      ensures Valid() && Fields() == EmptyForm
    {
      image, description, address := None, "", "";
      isAnalyzing, isSubmitting := false, false;
      aiResult, location := None, None;
    }

    method EditAddress(s: string)
      requires Valid()
      modifies this
      ensures Valid() && Fields() == old(Fields()).(address := s)
    {
      address := s;
    }

    method EditDescription(s: string)
      requires Valid()
      modifies this
      ensures Valid() && Fields() == old(Fields()).(description := s)
    {
      description := s;
    }

    /** Geolocation button: record the position and maybe overwrite the address. */
    method GetLocation(e: GeoEvent) returns (notice: Notice)
      requires Valid()
      modifies this
      ensures Valid() && Fields() == AfterLocation(old(Fields()), e)
      ensures notice == LocationNotice(e)
    {
      match e {
        case NoGeolocationApi =>
          notice := Silent;
        case PositionError =>
          notice := LocationError;
        case Position(c, latText, lngText) =>
          location := Some(c);
          if address == "" || ',' in address {
            address := CoordinatesText(latText, lngText);
          }
          notice := LocationCaptured;
      }
    }

    /** Classify the attached photo; the busy flag is cleared however the call ends. */
    method RunAiAnalysis(call: ClassifierCall) returns (notice: Notice)
      requires Valid() && image.Some?
      modifies this
      ensures Valid() && Fields() == AfterAnalysis(old(Fields()), call)
      ensures notice == AnalysisNotice(call)
    {
      isAnalyzing := true;
      match call {
        case Classified(out) =>
          aiResult := Some(out);
          if out.wasteDetected && out.analysisDetails != "" && description == "" {
            description := out.analysisDetails;
          }
          notice := if out.wasteDetected then Silent else NoWasteDetected;
        case ClassifierThrew =>
          notice := AnalysisFailed;
      }
      isAnalyzing := false;
    }

    /** A photo was chosen: attach it, classify it, and capture the position. */
    method ChangeImage(file: Option<string>, call: ClassifierCall, geo: GeoEvent) returns (notices: seq<Notice>)
      requires Valid()
      modifies this
      ensures Valid()
      ensures file.None? ==> Fields() == old(Fields()) && notices == []
      ensures file.Some? ==>
        Fields() == AfterLocation(AfterAnalysis(old(Fields()).(image := Some(file.value)), call), geo)
      ensures file.Some? ==> notices == [AnalysisNotice(call), LocationNotice(geo)]
    {
      notices := [];
      if file.Some? {
        image := Some(file.value);
        var n1 := RunAiAnalysis(call);
        var n2 := GetLocation(geo);
        notices := [n1, n2];
      }
    }

    /** The remove button on the photo preview. */
    method RemoveImage()
      requires Valid()
      modifies this
      ensures Valid() && Fields() == AfterRemoveImage(old(Fields()))
    {
      image := None;
      aiResult := None;
    }

    /** The submit handler. The form's fields are left as they were, and the
        busy flag is cleared however the summarizer call ends. */
    method HandleSubmit(user: Option<User>, call: SummaryCall, now: string) returns (outcome: SubmitOutcome)
      requires Valid()
      modifies this
      ensures Valid() && Fields() == old(Fields())
      ensures outcome == Submit(old(Fields()), user, call, now)
    {
      if image.None? || image.value == "" {
        return Rejected(ImageRequired);
      }
      if address == "" {
        return Rejected(LocationRequired);
      }
      if description == "" || |description| < MinDescriptionLength {
        return Rejected(DescriptionRequired);
      }
      if user.None? {
        return Rejected(SessionError);
      }
      isSubmitting := true;
      match call {
        case Summarized(summary) =>
          outcome := Written(BuildComplaint(Fields(), user.value, summary, now));
        case SummarizerThrew =>
          outcome := SubmissionFailed;
      }
      isSubmitting := false;
    }
  }
}
