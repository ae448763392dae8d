/**
 * The careers page: the structural validators for careers content, the choice between the
 * content service, the legacy JSON file and the built-in fallback, the ordering of positions by
 * posting date, and the application form with its submit gate.
 */
module Careers {
  import opened Wrappers
  import opened Js
  import opened StableSort

  // ---------------------------------------------------------------------------------------------
  // Careers content as it arrives. Keys the payload lacks read as Undefined; a list key that is
  // not an array is None.

  datatype RawPosition = RawPosition(
    id: Value,
    title: Value,
    department: Value,
    location: Value,
    /** the `type` key */
    kind: Value,
    experience: Value,
    summary: Value,
    requirements: Option<seq<Value>>,
    responsibilities: Option<seq<Value>>,
    applyUrl: Value,
    postedDate: Value)

  /**
   * One entry of a positions array: an object, or some other value (null, a number, ...). An
   * array entry is an `Object` whose keys all read as undefined; `NonObject(Obj)` gives the same
   * verdict, since neither passes the validator.
   */
  datatype RawItem = Object(position: RawPosition) | NonObject(value: Value)

  /** A careers object; `positions` is None when that key is not an array. */
  datatype RawCareers = RawCareers(heading: Value, subheading: Value, positions: Option<seq<RawItem>>)

  /** `CareersCMSData` as the page holds it once a source has been accepted. */
  datatype CareersData = CareersData(heading: Value, subheading: Value, positions: seq<RawPosition>)

  /** The four values the `EmploymentType` type names. */
  datatype EmploymentType = FullTime | PartTime | Contract | Internship {
    function Name(): string {
      match this
      case FullTime => "Full-time"
      case PartTime => "Part-time"
      case Contract => "Contract"
      case Internship => "Internship"
    }
  }

  /** The nine scalar keys `isCareerPosition` tests, in the order it tests them. */
  function PositionScalars(p: RawPosition): seq<Value>
  {
    [p.id, p.title, p.department, p.location, p.kind, p.experience, p.summary, p.applyUrl, p.postedDate]
  }

  /** `isCareerPosition(item)` */
  predicate IsCareerPosition(item: RawItem)
  {
    match item
    case NonObject(_) => false
    case Object(p) =>
      && Truthy(p.id)
      && Truthy(p.title)
      && Truthy(p.department)
      && Truthy(p.location)
      && Truthy(p.kind)
      && Truthy(p.experience)
      && Truthy(p.summary)
      && p.requirements.Some?
      && p.responsibilities.Some?
      && Truthy(p.applyUrl)
      && Truthy(p.postedDate)
  }

  /** `isCareersData(item)`; None stands for null or a value that is not an object. */
  predicate IsCareersData(item: Option<RawCareers>)
  {
    && item.Some?
    && Truthy(item.value.heading)
    && Truthy(item.value.subheading)
    && item.value.positions.Some?
    && forall i :: 0 <= i < |item.value.positions.value| ==> IsCareerPosition(item.value.positions.value[i])
  }

  /** The accepted object, read back as page data. */
  function Accept(r: RawCareers): (c: CareersData)
    requires IsCareersData(Some(r))
    ensures c.heading == r.heading && c.subheading == r.subheading
    ensures |c.positions| == |r.positions.value|
    ensures forall i :: 0 <= i < |c.positions| ==> r.positions.value[i] == Object(c.positions[i])
  {
    var ps := r.positions.value;
    CareersData(r.heading, r.subheading, seq(|ps|, i requires 0 <= i < |ps| => ps[i].position))
  }

  /** Page data written back as the object it came from. */
  function AsRaw(c: CareersData): RawCareers
  {
    RawCareers(c.heading, c.subheading, Some(seq(|c.positions|, i requires 0 <= i < |c.positions| => Object(c.positions[i]))))
  }

  /** Page data that `isCareersData` accepts. */
  predicate ValidData(c: CareersData)
  {
    IsCareersData(Some(AsRaw(c)))
  }

  /** Accepting an object and writing it back gives the object; the result stays valid. */
  lemma AsRawAccept(r: RawCareers)
    requires IsCareersData(Some(r))
    ensures AsRaw(Accept(r)) == r
    ensures ValidData(Accept(r))
  {
    assert AsRaw(Accept(r)).positions.value == r.positions.value;
  }

  /** Writing valid page data back and accepting it gives the same data. */
  lemma AcceptAsRaw(c: CareersData)
    requires ValidData(c)
    ensures Accept(AsRaw(c)) == c
  {
    assert Accept(AsRaw(c)).positions == c.positions;
  }

  // ---------------------------------------------------------------------------------------------
  // Properties of the validators.

  /** A position passes iff its nine scalar keys are truthy and both lists are arrays. */
  lemma IsCareerPositionIff(p: RawPosition)
    ensures IsCareerPosition(Object(p))
        <==> (forall i :: 0 <= i < 9 ==> Truthy(PositionScalars(p)[i]))
             && p.requirements.Some? && p.responsibilities.Some?
  {
    if forall i :: 0 <= i < 9 ==> Truthy(PositionScalars(p)[i]) {
      assert Truthy(PositionScalars(p)[0]) && Truthy(PositionScalars(p)[1]) && Truthy(PositionScalars(p)[2]);
      assert Truthy(PositionScalars(p)[3]) && Truthy(PositionScalars(p)[4]) && Truthy(PositionScalars(p)[5]);
      assert Truthy(PositionScalars(p)[6]) && Truthy(PositionScalars(p)[7]) && Truthy(PositionScalars(p)[8]);
    }
  }

  /** An empty string in any scalar key rejects the position. */
  lemma EmptyScalarRejects(p: RawPosition, i: nat)
    requires i < 9 && PositionScalars(p)[i] == Str("")
    ensures !IsCareerPosition(Object(p))
  {
    IsCareerPositionIff(p);
  }

  /** `type` is only checked for truthiness: a value outside `EmploymentType` passes. */
  lemma KindCheckedOnlyForTruthiness(p: RawPosition)
    requires IsCareerPosition(Object(p))
    ensures forall t: EmploymentType :: t.Name() != "Freelance"
    ensures IsCareerPosition(Object(p.(kind := Str("Freelance"))))
  {
  }

  /** A truthy object where a string is expected passes too: `title: {}` is accepted. */
  lemma ObjectScalarAccepted(p: RawPosition)
    requires IsCareerPosition(Object(p))
    ensures IsCareerPosition(Object(p.(title := Obj)))
    ensures IsCareerPosition(Object(p.(postedDate := Obj)))
  {
  }

  /** Empty requirement and responsibility arrays pass. */
  lemma EmptyListsAccepted(p: RawPosition)
    requires IsCareerPosition(Object(p))
    ensures IsCareerPosition(Object(p.(requirements := Some([]), responsibilities := Some([]))))
  {
  }

  /** One invalid position rejects the whole payload. */
  lemma OneBadPositionRejects(r: RawCareers, i: nat)
    requires r.positions.Some? && i < |r.positions.value|
    requires !IsCareerPosition(r.positions.value[i])
    ensures !IsCareersData(Some(r))
  {
  }

  /** An empty positions array is accepted when heading and subheading are truthy. */
  lemma EmptyPositionsAccepted(heading: Value, subheading: Value)
    requires Truthy(heading) && Truthy(subheading)
    ensures IsCareersData(Some(RawCareers(heading, subheading, Some([]))))
  {
  }

  // ---------------------------------------------------------------------------------------------
  // The built-in fallback.

  const FrontendPosition: RawPosition := RawPosition(
    Str("frontend-engineer-01"),
    Str("Frontend Engineer (React)"),
    Str("Engineering"),
    Str("Remote / India"),
    Str("Full-time"),
    Str("2-4 years"),
    Str("Build performant web experiences and collaborate closely with design and backend teams."),
    Some([
      Str("Strong React and TypeScript fundamentals"),
      Str("Experience with responsive UI and accessibility"),
      Str("Good understanding of API integration and state management")]),
    Some([
      Str("Develop and maintain reusable frontend components"),
      Str("Translate Figma and product requirements into production UI"),
      Str("Optimize performance and improve front-end quality")]),
    Str("mailto:careers@zenture.in?subject=Application%20-%20Frontend%20Engineer"),
    Str("2026-02-20"))

  const BackendPosition: RawPosition := RawPosition(
    Str("backend-engineer-01"),
    Str("Backend Engineer (Node.js)"),
    Str("Engineering"),
    Str("Hybrid / Pune"),
    Str("Full-time"),
    Str("3-6 years"),
    Str("Design and implement robust backend services powering our client-facing products."),
    Some([
      Str("Hands-on Node.js and relational databases"),
      Str("Experience with REST APIs and service-oriented architecture"),
      Str("Knowledge of cloud deployment workflows")]),
    Some([
      Str("Build secure APIs and service integrations"),
      Str("Maintain backend performance and observability"),
      Str("Work with frontend and DevOps teams for releases")]),
    Str("mailto:careers@zenture.in?subject=Application%20-%20Backend%20Engineer"),
    Str("2026-02-18"))

  const FullstackPosition: RawPosition := RawPosition(
    Str("fullstack-developer-01"),
    Str("Full Stack Developer (Full-Time & Internship)"),
    Str("Engineering"),
    Str("Remote / Hybrid"),
    Str("Full-time"),
    Str("Internship / 1-4 years"),
    Str("Build scalable web applications across frontend and backend, collaborate with product teams, and support cloud deployments for production-ready solutions."),
    Some([
      Str("Hands-on experience with modern JavaScript/TypeScript frameworks"),
      Str("Good understanding of REST APIs, databases, and backend architecture"),
      Str("Familiarity with cloud platforms and deployment workflows")]),
    Some([
      Str("Develop and maintain end-to-end web features from UI to APIs"),
      Str("Collaborate with design and QA teams to ship high-quality releases"),
      Str("Contribute to performance, security, and maintainability improvements")]),
    Str("mailto:careers@zenture.in?subject=Application%20-%20Full%20Stack%20Developer"),
    Str("2026-02-27"))

  const FallbackCareersData: CareersData := CareersData(
    Str("Build The Future With Zenture IT"),
    Str("Join our team to work on meaningful software, AI, and IoT products."),
    [FrontendPosition, BackendPosition, FullstackPosition])

  /** The fallback passes the page's own validator. */
  lemma FallbackIsCareersData()
    ensures ValidData(FallbackCareersData)
  {
    var ps := AsRaw(FallbackCareersData).positions.value;
    assert ps == [Object(FrontendPosition), Object(BackendPosition), Object(FullstackPosition)];
  }

  // ---------------------------------------------------------------------------------------------
  // Choosing the source.

  /** What the legacy `/cms/careers.json` request produced. */
  datatype LegacyResponse =
    | FetchFailed                        // `fetch` rejected
    | NotOk                              // `!response.ok`
    | BodyFailed                         // `response.json()` rejected
    | Body(data: Option<RawCareers>)     // the parsed body

  /** The data after a load that started from `current`. */
  function LoadedData(current: CareersData, cms: Option<RawCareers>, legacy: LegacyResponse): CareersData
  {
    if IsCareersData(cms) then Accept(cms.value)
    else if legacy.Body? && IsCareersData(legacy.data) then Accept(legacy.data.value)
    else current
  }

  /** Valid content-service data wins, whatever the legacy file holds and whatever was shown. */
  lemma CmsTierWins(c1: CareersData, c2: CareersData, cms: Option<RawCareers>, l1: LegacyResponse, l2: LegacyResponse)
    requires IsCareersData(cms)
    ensures LoadedData(c1, cms, l1) == LoadedData(c2, cms, l2)
    ensures AsRaw(LoadedData(c1, cms, l1)) == cms.value
  {
    AsRawAccept(cms.value);
  }

  /** Without valid content-service data, a valid legacy body is used. */
  lemma LegacyTierSecond(current: CareersData, cms: Option<RawCareers>, data: RawCareers)
    requires !IsCareersData(cms) && IsCareersData(Some(data))
    ensures AsRaw(LoadedData(current, cms, Body(Some(data)))) == data
  {
    AsRawAccept(data);
  }

  /** Every failure, thrown or not, keeps the data that was shown. */
  lemma FailuresKeepCurrent(current: CareersData, cms: Option<RawCareers>, legacy: LegacyResponse)
    requires !IsCareersData(cms)
    requires legacy.FetchFailed? || legacy.NotOk? || legacy.BodyFailed? || (legacy.Body? && !IsCareersData(legacy.data))
    ensures LoadedData(current, cms, legacy) == current
  {
  }

  /** Loading never replaces valid data by invalid data. */
  lemma LoadedDataValid(current: CareersData, cms: Option<RawCareers>, legacy: LegacyResponse)
    requires ValidData(current)
    ensures ValidData(LoadedData(current, cms, legacy))
  {
    if IsCareersData(cms) {
      AsRawAccept(cms.value);
    } else if legacy.Body? && IsCareersData(legacy.data) {
      AsRawAccept(legacy.data.value);
    }
  }

  // ---------------------------------------------------------------------------------------------
  // Ordering.

  /** `new Date(p.postedDate).getTime()`, for a given date parser. */
  function PostedTime(time: Value -> int): RawPosition -> int
  {
    (p: RawPosition) => time(p.postedDate)
  }

  /** `sortedPositions`: newest first, equal dates in their original order. */
  function SortedPositions(positions: seq<RawPosition>, time: Value -> int): (r: seq<RawPosition>)
    ensures multiset(r) == multiset(positions)
    ensures forall i, j :: 0 <= i < j < |r| ==> time(r[i].postedDate) >= time(r[j].postedDate)
    ensures forall t :: WithKey(r, PostedTime(time), t) == WithKey(positions, PostedTime(time), t)
  {
    var r := SortByKeyDesc(positions, PostedTime(time));
    assert forall i, j :: 0 <= i < j < |r| ==> PostedTime(time)(r[i]) >= PostedTime(time)(r[j]);
    forall t ensures WithKey(r, PostedTime(time), t) == WithKey(positions, PostedTime(time), t) {
      SortStable(positions, PostedTime(time), t);
    }
    r
  }

  /** With the three fallback dates in calendar order, the fallback lists fullstack, frontend, backend. */
  lemma FallbackSortOrder(time: Value -> int)
    requires time(Str("2026-02-27")) > time(Str("2026-02-20")) > time(Str("2026-02-18"))
    ensures SortedPositions(FallbackCareersData.positions, time) == [FullstackPosition, FrontendPosition, BackendPosition]
  {
    var key := PostedTime(time);
    var s := [FrontendPosition, BackendPosition, FullstackPosition];
    assert s[1..][1..] == [FullstackPosition];
    assert SortByKeyDesc([FullstackPosition], key) == [FullstackPosition];
    assert SortByKeyDesc(s[1..], key) == [FullstackPosition, BackendPosition];
  }

  // ---------------------------------------------------------------------------------------------
  // The application form.

  datatype ApplicationForm = ApplicationForm(
    fullName: string, email: string, phone: string, position: string, message: string,
    /** the hidden honeypot field */
    website: string)

  const EmptyApplication := ApplicationForm("", "", "", "", "", "")

  /** The `name` of the input an edit comes from. */
  datatype ApplicationField = FullName | Email | Phone | Position | Message | Website

  function ApplicationFieldValue(form: ApplicationForm, field: ApplicationField): string
  {
    match field
    case FullName => form.fullName
    case Email => form.email
    case Phone => form.phone
    case Position => form.position
    case Message => form.message
    case Website => form.website
  }

  /** `{ ...prev, [name]: value }` */
  function SetApplicationField(form: ApplicationForm, field: ApplicationField, value: string): (r: ApplicationForm)
    ensures ApplicationFieldValue(r, field) == value
    ensures forall g :: g != field ==> ApplicationFieldValue(r, g) == ApplicationFieldValue(form, g)
  {
    match field
    case FullName => form.(fullName := value)
    case Email => form.(email := value)
    case Phone => form.(phone := value)
    case Position => form.(position := value)
    case Message => form.(message := value)
    case Website => form.(website := value)
  }

  /** The selected resume file; only its name is observable here. */
  datatype Resume = Resume(name: string)

  /** The multipart body posted to the form service. */
  datatype ApplicationPayload = ApplicationPayload(
    fullName: string, email: string, phone: string, position: string, message: string,
    attachment: Resume, resumeFileName: string,
    subject: string, template: string, captcha: string)

  const GeneralApplication := "General Application"

  function ApplicationPayloadOf(form: ApplicationForm, resume: Resume): ApplicationPayload
  {
    ApplicationPayload(
      form.fullName, form.email, form.phone, OrElse(form.position, GeneralApplication), form.message,
      resume, resume.name,
      "Career Application - " + OrElse(form.position, GeneralApplication), "table", "false")
  }

  /** A blank position is sent as 'General Application', and the subject names the position sent. */
  lemma ApplicationPayloadPosition(form: ApplicationForm, resume: Resume)
    ensures ApplicationPayloadOf(form, resume).position != ""
    ensures form.position == "" ==> ApplicationPayloadOf(form, resume).position == GeneralApplication
    ensures form.position != "" ==> ApplicationPayloadOf(form, resume).position == form.position
    ensures ApplicationPayloadOf(form, resume).subject == "Career Application - " + ApplicationPayloadOf(form, resume).position
    ensures ApplicationPayloadOf(form, resume).resumeFileName == resume.name
  {
  }

  /** The outcome of the checks made before anything is sent. */
  datatype Gate = Blocked | NeedsResume | Proceed

  const MinFillMs := 3000

  function ApplicationGate(form: ApplicationForm, resume: Option<Resume>, elapsedMs: int): Gate
  {
    if form.website != "" || elapsedMs < MinFillMs then Blocked
    else if resume.None? then NeedsResume
    else Proceed
  }

  /** A request is sent iff the honeypot is empty, 3000 ms have passed and a resume is attached. */
  lemma ApplicationGateIff(form: ApplicationForm, resume: Option<Resume>, elapsedMs: int)
    ensures ApplicationGate(form, resume, elapsedMs) == Proceed
        <==> form.website == "" && elapsedMs >= 3000 && resume.Some?
    ensures form.website != "" ==> ApplicationGate(form, resume, elapsedMs) == Blocked
  {
  }

  /** How the POST to the form service ended. */
  datatype SubmitResponse = ResponseOk | ResponseNotOk | RequestFailed

  const UnableToSubmit := "Unable to submit right now. Please try again."
  const AttachResume := "Please attach your resume before submitting."
  const ApplicationSent := "Application sent to careers@zenture.in."
  const SubmissionFailed := "Submission failed. Please try again."

  // ---------------------------------------------------------------------------------------------
  // The page state.

  class CareersPage {
    var cmsData: CareersData
    var isLoading: bool
    var formStart: int
    var isSubmitting: bool
    var submitMessage: string
    var isSubmitted: bool
    var resume: Option<Resume>
    var form: ApplicationForm

    /** The page always shows data its validator accepts. */
    predicate Valid()
      reads this
    {
      ValidData(cmsData)
    }

    /** The first render, at time `now`. */
    constructor(now: int)
      ensures Valid()
      ensures cmsData == FallbackCareersData && isLoading
      ensures formStart == now && !isSubmitting && submitMessage == "" && !isSubmitted
      ensures resume.None? && form == EmptyApplication
    {
      FallbackIsCareersData();
      cmsData := FallbackCareersData;
      isLoading := true;
      formStart := now;
      isSubmitting := false;
      submitMessage := "";
      isSubmitted := false;
      resume := None;
      form := EmptyApplication;
    }

    /**
     * `loadCareersFromCMS` while the page stays mounted. `cms` is what the content service
     * returned (None for null); `legacy` is only consulted when `cms` is rejected, and
     * `legacyRequested` says whether the legacy file was fetched.
     */
    method LoadCareersFromCMS(cms: Option<RawCareers>, legacy: LegacyResponse) returns (legacyRequested: bool)
      requires Valid()
      modifies this
      ensures Valid()
      ensures cmsData == LoadedData(old(cmsData), cms, legacy)
      ensures legacyRequested <==> !IsCareersData(cms)
      ensures !isLoading
      ensures formStart == old(formStart) && isSubmitting == old(isSubmitting)
      ensures submitMessage == old(submitMessage) && isSubmitted == old(isSubmitted)
      ensures resume == old(resume) && form == old(form)
    {
      LoadedDataValid(cmsData, cms, legacy);
      if IsCareersData(cms) {
        cmsData := Accept(cms.value);
        isLoading := false;
        return false;
      }
      legacyRequested := true;
      match legacy {
        case FetchFailed =>
        case NotOk =>
        case BodyFailed =>
        case Body(data) =>
          if IsCareersData(data) {
            cmsData := Accept(data.value);
          }
      }
      isLoading := false;
    }

    /** `sortedPositions`, with `time` standing for date parsing. */
    function SortedView(time: Value -> int): (r: seq<RawPosition>)
      reads this
      ensures multiset(r) == multiset(cmsData.positions)
      ensures forall i, j :: 0 <= i < j < |r| ==> time(r[i].postedDate) >= time(r[j].postedDate)
      ensures forall t :: WithKey(r, PostedTime(time), t) == WithKey(cmsData.positions, PostedTime(time), t)
    {
      SortedPositions(cmsData.positions, time)
    }

    /** `handleApplicationChange`: only the named field changes. */
    method HandleApplicationChange(field: ApplicationField, value: string)
      modifies this
      ensures form == SetApplicationField(old(form), field, value)
      ensures cmsData == old(cmsData) && isLoading == old(isLoading) && formStart == old(formStart)
      ensures isSubmitting == old(isSubmitting) && submitMessage == old(submitMessage)
      ensures isSubmitted == old(isSubmitted) && resume == old(resume)
    {
      form := SetApplicationField(form, field, value);
    }

    /** `handleResumeChange`: the first selected file, or none. */
    method HandleResumeChange(selected: Option<Resume>)
      modifies this
      ensures resume == selected
      ensures cmsData == old(cmsData) && isLoading == old(isLoading) && formStart == old(formStart)
      ensures isSubmitting == old(isSubmitting) && submitMessage == old(submitMessage)
      ensures isSubmitted == old(isSubmitted) && form == old(form)
    {
      resume := selected;
    }

    /** `handleApplyNowClick`: preselects the position and clears the previous outcome. */
    method HandleApplyNowClick(positionTitle: string)
      modifies this
      ensures form == old(form).(position := positionTitle)
      ensures !isSubmitted && submitMessage == ""
      ensures cmsData == old(cmsData) && isLoading == old(isLoading) && formStart == old(formStart)
      ensures isSubmitting == old(isSubmitting) && resume == old(resume)
    {
      form := form.(position := positionTitle);
      isSubmitted := false;
      submitMessage := "";
    }

    /**
     * `handleApplicationSubmit` at time `now`; `response` is how the POST ended and `doneAt` is
     * the time it settled. Returns the payload posted, if any.
     */
    method HandleApplicationSubmit(now: int, response: SubmitResponse, doneAt: int) returns (request: Option<ApplicationPayload>)
      modifies this
      ensures cmsData == old(cmsData) && isLoading == old(isLoading)
      ensures ApplicationGate(old(form), old(resume), now - old(formStart)) == Blocked ==>
        && request.None? && submitMessage == UnableToSubmit
        && form == old(form) && resume == old(resume) && formStart == old(formStart)
        && isSubmitting == old(isSubmitting) && isSubmitted == old(isSubmitted)
      ensures ApplicationGate(old(form), old(resume), now - old(formStart)) == NeedsResume ==>
        && request.None? && submitMessage == AttachResume
        && form == old(form) && resume == old(resume) && formStart == old(formStart)
        && isSubmitting == old(isSubmitting) && isSubmitted == old(isSubmitted)
      ensures ApplicationGate(old(form), old(resume), now - old(formStart)) == Proceed ==>
        && request == Some(ApplicationPayloadOf(old(form), old(resume).value))
        && !isSubmitting
        && (response == ResponseOk ==>
              form == EmptyApplication && resume.None? && formStart == doneAt
              && submitMessage == ApplicationSent && isSubmitted)
        && (response != ResponseOk ==>
              form == old(form) && resume == old(resume) && formStart == old(formStart)
              && submitMessage == SubmissionFailed && isSubmitted == old(isSubmitted))
    {
      submitMessage := "";
      var elapsedMs := now - formStart;
      if form.website != "" || elapsedMs < MinFillMs {
        submitMessage := UnableToSubmit;
        return None;
      }
      if resume.None? {
        submitMessage := AttachResume;
        return None;
      }
      isSubmitting := true;
      request := Some(ApplicationPayloadOf(form, resume.value));
      if response == ResponseOk {
        form := EmptyApplication;
        resume := None;
        formStart := doneAt;
        submitMessage := ApplicationSent;
        isSubmitted := true;
      } else {
        submitMessage := SubmissionFailed;
      }
      isSubmitting := false;
    }
  }
}
