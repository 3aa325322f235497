/** The prediction endpoint of the API server: validation of the request
    body against the application model's field bounds and defaults, the
    503 guard for a service that was never started, and the 500 guard
    around the prediction. */
module BackendApp {
  import opened Util
  import PredictionService

  /** A JSON value in the request body. */
  datatype Json = JNull | JNumber(n: real) | JString(s: string) | JBool(b: bool)

  type Body = map<string, Json>

  datatype ErrorKind = Missing | WrongType | TooSmall | TooLarge

  /** One entry of the 422 error list. */
  datatype FieldError = FieldError(field: string, kind: ErrorKind)

  /** A validated `VisaApplication`. */
  datatype VisaApplication = VisaApplication(
    applicantAge: int, nationality: string, visaType: string, occupation: string, educationLevel: string,
    durationRequestedDays: int, numPreviousVisits: int, financialProofUsd: real,
    hasSponsor: bool, documentsComplete: bool, expressProcessing: bool, applicationMonth: int)

  predicate Whole(x: real) {
    x == x.Floor as real
  }

  /** An `int` field with an optional default and optional bounds. */
  function IntField(v: Option<Json>, default: Option<int>, lo: Option<int>, hi: Option<int>): (r: Result<int, ErrorKind>)
    ensures r.Ok? <==>
      (v.None? && default.Some?) ||
      (v.Some? && v.value.JNumber? && Whole(v.value.n)
       && (lo.Some? ==> lo.value as real <= v.value.n) && (hi.Some? ==> v.value.n <= hi.value as real))
    ensures r.Ok? && v.None? ==> r.value == default.value
    ensures r.Ok? && v.Some? ==> r.value as real == v.value.n
    ensures r == Err(Missing) <==> v.None? && default.None?
  {
    match v
    case None => if default.Some? then Ok(default.value) else Err(Missing)
    case Some(j) =>
      if !j.JNumber? || !Whole(j.n) then Err(WrongType)
      else if lo.Some? && j.n < lo.value as real then Err(TooSmall)
      else if hi.Some? && j.n > hi.value as real then Err(TooLarge)
      else Ok(j.n.Floor)
  }

  /** A `float` field with a default and a lower bound. */
  function FloatField(v: Option<Json>, default: real, lo: real): (r: Result<real, ErrorKind>)
    ensures r.Ok? <==> v.None? || (v.value.JNumber? && lo <= v.value.n)
    ensures r.Ok? ==> r.value == (if v.None? then default else v.value.n)
  {
    match v
    case None => Ok(default)
    case Some(j) => if !j.JNumber? then Err(WrongType) else if j.n < lo then Err(TooSmall) else Ok(j.n)
  }

  /** A `str` field, required when there is no default. */
  function StrField(v: Option<Json>, default: Option<string>): (r: Result<string, ErrorKind>)
    ensures r.Ok? <==> (v.None? && default.Some?) || (v.Some? && v.value.JString?)
    ensures r.Ok? ==> r.value == (if v.None? then default.value else v.value.s)
  {
    match v
    case None => if default.Some? then Ok(default.value) else Err(Missing)
    case Some(j) => if j.JString? then Ok(j.s) else Err(WrongType)
  }

  /** A `bool` field with a default. */
  function BoolField(v: Option<Json>, default: bool): (r: Result<bool, ErrorKind>)
    ensures r.Ok? <==> v.None? || v.value.JBool?
    ensures r.Ok? ==> r.value == (if v.None? then default else v.value.b)
  {
    match v
    case None => Ok(default)
    case Some(j) => if j.JBool? then Ok(j.b) else Err(WrongType)
  }

  function Get(body: Body, name: string): Option<Json> {
    if name in body then Some(body[name]) else None
  }

  function ErrorOf<T>(name: string, r: Result<T, ErrorKind>): seq<FieldError> {
    if r.Err? then [FieldError(name, r.error)] else []
  }

  /** A present integer field is a whole number within its bounds. */
  predicate WholeWithin(body: Body, name: string, lo: int, hi: Option<int>) {
    name in body ==>
      body[name].JNumber? && Whole(body[name].n) && lo as real <= body[name].n
      && (hi.Some? ==> body[name].n <= hi.value as real)
  }

  /** A present float field is a number no smaller than its bound. */
  predicate NumberAtLeast(body: Body, name: string, lo: real) {
    name in body ==> body[name].JNumber? && lo <= body[name].n
  }

  predicate TextIfPresent(body: Body, name: string) {
    name in body ==> body[name].JString?
  }

  predicate BoolIfPresent(body: Body, name: string) {
    name in body ==> body[name].JBool?
  }

  /** The bodies the `VisaApplication` model accepts: the three required
      fields are given, and every given field has its kind and bounds. */
  predicate Accepted(body: Body) {
    && "applicant_age" in body && "nationality" in body && "visa_type" in body
    && WholeWithin(body, "applicant_age", 18, Some(100))
    && TextIfPresent(body, "nationality") && TextIfPresent(body, "visa_type")
    && TextIfPresent(body, "occupation") && TextIfPresent(body, "education_level")
    && WholeWithin(body, "duration_requested_days", 1, Some(365))
    && WholeWithin(body, "num_previous_visits", 0, None)
    && NumberAtLeast(body, "financial_proof_usd", 0.0)
    && BoolIfPresent(body, "has_sponsor") && BoolIfPresent(body, "documents_complete")
    && BoolIfPresent(body, "express_processing")
    && WholeWithin(body, "application_month", 1, Some(12))
  }

  /** The number given for a field, or its default when absent. */
  function NumberOr(body: Body, name: string, default: real): real {
    if name in body && body[name].JNumber? then body[name].n else default
  }

  function TextOr(body: Body, name: string, default: string): string {
    if name in body && body[name].JString? then body[name].s else default
  }

  function BoolOr(body: Body, name: string, default: bool): bool {
    if name in body && body[name].JBool? then body[name].b else default
  }

  /** The `VisaApplication` field declarations, checked in order; the
      errors of every failing field are reported together. A body is
      accepted exactly when it meets the declarations, and every value is
      then the one given, or the field's default when absent. */
  function Validate(body: Body): (r: Result<VisaApplication, seq<FieldError>>)
    ensures r.Ok? <==> Accepted(body)
    ensures r.Ok? ==>
      && r.value.applicantAge as real == NumberOr(body, "applicant_age", 0.0)
      && r.value.nationality == TextOr(body, "nationality", "")
      && r.value.visaType == TextOr(body, "visa_type", "")
      && r.value.occupation == TextOr(body, "occupation", "Professional")
      && r.value.educationLevel == TextOr(body, "education_level", "Graduate")
      && r.value.durationRequestedDays as real == NumberOr(body, "duration_requested_days", 30.0)
      && r.value.numPreviousVisits as real == NumberOr(body, "num_previous_visits", 0.0)
      && r.value.financialProofUsd == NumberOr(body, "financial_proof_usd", 15000.0)
      && r.value.hasSponsor == BoolOr(body, "has_sponsor", false)
      && r.value.documentsComplete == BoolOr(body, "documents_complete", true)
      && r.value.expressProcessing == BoolOr(body, "express_processing", false)
      && r.value.applicationMonth as real == NumberOr(body, "application_month", 1.0)
    ensures r.Ok? ==> 18 <= r.value.applicantAge <= 100
    ensures r.Ok? ==> 1 <= r.value.durationRequestedDays <= 365
    ensures r.Ok? ==> 0 <= r.value.numPreviousVisits && 0.0 <= r.value.financialProofUsd
    ensures r.Ok? ==> 1 <= r.value.applicationMonth <= 12
    ensures r.Ok? ==> "applicant_age" in body && "nationality" in body && "visa_type" in body
    ensures r.Err? ==> r.error != []
  {
    var age := IntField(Get(body, "applicant_age"), None, Some(18), Some(100));
    var nationality := StrField(Get(body, "nationality"), None);
    var visaType := StrField(Get(body, "visa_type"), None);
    var occupation := StrField(Get(body, "occupation"), Some("Professional"));
    var education := StrField(Get(body, "education_level"), Some("Graduate"));
    var duration := IntField(Get(body, "duration_requested_days"), Some(30), Some(1), Some(365));
    var visits := IntField(Get(body, "num_previous_visits"), Some(0), Some(0), None);
    var financial := FloatField(Get(body, "financial_proof_usd"), 15000.0, 0.0);
    var sponsor := BoolField(Get(body, "has_sponsor"), false);
    var documents := BoolField(Get(body, "documents_complete"), true);
    var express := BoolField(Get(body, "express_processing"), false);
    var month := IntField(Get(body, "application_month"), Some(1), Some(1), Some(12));
    var errors :=
      ErrorOf("applicant_age", age) + ErrorOf("nationality", nationality) + ErrorOf("visa_type", visaType)
      + ErrorOf("occupation", occupation) + ErrorOf("education_level", education)
      + ErrorOf("duration_requested_days", duration) + ErrorOf("num_previous_visits", visits)
      + ErrorOf("financial_proof_usd", financial) + ErrorOf("has_sponsor", sponsor)
      + ErrorOf("documents_complete", documents) + ErrorOf("express_processing", express)
      + ErrorOf("application_month", month);
    if errors != [] then Err(errors)
    else
      Ok(VisaApplication(age.value, nationality.value, visaType.value, occupation.value, education.value,
        duration.value, visits.value, financial.value, sponsor.value, documents.value, express.value, month.value))
  }

  /** The smallest body accepted: age, nationality and visa type; every
      other field takes its declared default. */
  lemma ValidateDefaults(age: int, nationality: string, visaType: string)
    requires 18 <= age <= 100
    ensures Validate(map["applicant_age" := JNumber(age as real), "nationality" := JString(nationality),
                         "visa_type" := JString(visaType)])
      == Ok(VisaApplication(age, nationality, visaType, "Professional", "Graduate", 30, 0, 15000.0,
                            false, true, false, 1))
  {
    var body := map["applicant_age" := JNumber(age as real), "nationality" := JString(nationality),
                     "visa_type" := JString(visaType)];
    assert Get(body, "occupation") == None && Get(body, "education_level") == None;
    assert Get(body, "duration_requested_days") == None && Get(body, "num_previous_visits") == None;
    assert Get(body, "financial_proof_usd") == None && Get(body, "has_sponsor") == None;
    assert Get(body, "documents_complete") == None && Get(body, "express_processing") == None;
    assert Get(body, "application_month") == None;
  }

  /** An accepted body carries the age as a whole number, which becomes
      the application's age; a missing or null age is rejected, as the age
      has no default. */
  lemma AgeBounds(body: Body)
    requires Validate(body).Ok?
    ensures body["applicant_age"].JNumber? && Validate(body).value.applicantAge as real == body["applicant_age"].n
  {
    var age := IntField(Get(body, "applicant_age"), None, Some(18), Some(100));
    assert age.Ok?;
  }

  /** The inclusive bounds of the bounded integer fields. */
  function Bounds(field: string): (int, int) {
    if field == "applicant_age" then (18, 100)
    else if field == "duration_requested_days" then (1, 365)
    else (1, 12)
  }

  /** Any body whose age, duration or month is a whole number out of its
      bounds yields a 422 error naming that field and the side it is out on. */
  lemma OutOfBoundsRejected(body: Body, field: string, value: int)
    requires field in {"applicant_age", "duration_requested_days", "application_month"}
    requires field in body && body[field] == JNumber(value as real)
    requires value < Bounds(field).0 || value > Bounds(field).1
    ensures Validate(body).Err?
    ensures FieldError(field, if value < Bounds(field).0 then TooSmall else TooLarge) in Validate(body).error
  {
    var e := FieldError(field, if value < Bounds(field).0 then TooSmall else TooLarge);
    if field == "applicant_age" {
      assert ErrorOf(field, IntField(Get(body, field), None, Some(18), Some(100))) == [e];
    } else if field == "duration_requested_days" {
      assert ErrorOf(field, IntField(Get(body, field), Some(30), Some(1), Some(365))) == [e];
    } else {
      assert ErrorOf(field, IntField(Get(body, field), Some(1), Some(1), Some(12))) == [e];
    }
  }

  /** A negative visit count or financial proof yields a 422 error naming
      that field as too small (a fractional visit count is of the wrong
      type instead). */
  lemma NegativeAmountsRejected(body: Body, field: string, value: real)
    requires field in {"num_previous_visits", "financial_proof_usd"}
    requires field in body && body[field] == JNumber(value) && value < 0.0
    requires field == "num_previous_visits" ==> Whole(value)
    ensures Validate(body).Err?
    ensures FieldError(field, TooSmall) in Validate(body).error
  {
    var e := FieldError(field, TooSmall);
    if field == "num_previous_visits" {
      assert ErrorOf(field, IntField(Get(body, field), Some(0), Some(0), None)) == [e];
    } else {
      assert ErrorOf(field, FloatField(Get(body, field), 15000.0, 0.0)) == [e];
    }
  }

  /** `application.model_dump()`: every field present, as the prediction
      service receives it. */
  function ModelDump(a: VisaApplication): PredictionService.Application {
    PredictionService.Application(
      Some(a.applicantAge), Some(a.nationality), Some(a.visaType), Some(a.occupation), Some(a.educationLevel),
      Some(a.durationRequestedDays), Some(a.numPreviousVisits), Some(a.financialProofUsd),
      Some(a.hasSponsor), Some(a.documentsComplete), Some(a.expressProcessing), Some(a.applicationMonth))
  }

  datatype Response =
    | Success(prediction: PredictionService.Prediction)
    | Unprocessable(errors: seq<FieldError>)
    | HttpError(status: int, detail: string)

  /** `POST /api/predict`. Validation runs before the handler, so a bad body
      is a 422 whatever the server's state. The prediction service is null
      until startup; the model's own failure (loading, scaling, predicting)
      is given as modelError. */
  method PredictProcessingTime(service: PredictionService.VisaPredictionService?, body: Body, modelError: Option<string>)
    returns (r: Response)
    requires service != null ==> service.Valid()
    ensures Validate(body).Err? ==> r == Unprocessable(Validate(body).error)
    ensures Validate(body).Ok? && service == null ==> r == HttpError(503, "Prediction service not initialized")
    ensures Validate(body).Ok? && service != null && modelError.Some? ==>
      r == HttpError(500, "Prediction error: " + modelError.value)
    ensures Validate(body).Ok? && service != null && modelError.None? ==>
      var app := ModelDump(Validate(body).value);
      && r.Success?
      && r.prediction.riskScore == PredictionService.RiskScore(app)
      && r.prediction.features == PredictionService.FeaturesOf(app, r.prediction.riskScore)
      && (r.prediction.isPeakSeason <==> Validate(body).value.applicationMonth in {1, 2, 3, 10, 11, 12})
      && r.prediction.riskLevel == PredictionService.RiskLevel(r.prediction.riskScore)
      && r.prediction.approval == PredictionService.ApprovalFor(r.prediction.riskScore)
      && r.prediction.factors == PredictionService.FactorsOf(app)
  {
    var validated := Validate(body);
    if validated.Err? {
      return Unprocessable(validated.error);
    }
    if service == null {
      return HttpError(503, "Prediction service not initialized");
    }
    if modelError.Some? {
      return HttpError(500, "Prediction error: " + modelError.value);
    }
    var p := service.Predict(ModelDump(validated.value));
    r := Success(p);
  }
}
