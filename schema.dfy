/** The nine Mongoose schemas, reduced to what the handlers' behaviour
    depends on: the human-readable identifier path of each kind, its status
    values, the defaults a new document receives, and the validation rules a
    save enforces (enumerations, required paths, the one numeric bound and
    the rules on array elements). */
module Schema {
  import opened Json

  datatype Kind =
    | Temple | CMRelief | Education | Dispute | Appointment
    | CSRIndustrial | Program | Emergency | Case

  /** The path that carries the unique human-readable identifier. */
  function HumanIdField(k: Kind): string
  {
    match k
    case Temple => "templeId"
    case CMRelief => "cmrfId"
    case Education => "educationId"
    case Dispute => "disputeId"
    case Appointment => "appointmentId"
    case CSRIndustrial => "csrId"
    case Program => "programId"
    case Emergency => "emergencyId"
    case Case => "caseId"
  }

  /** The `status` enumeration of each kind. */
  function StatusValues(k: Kind): set<string>
  {
    match k
    case Temple => TempleStates
    case CMRelief => ReliefStates
    case Education => ReliefStates
    case Dispute => DisputeStates
    case Appointment => AppointmentStates
    case CSRIndustrial => CsrStates
    case Program => ProgramStates
    case Emergency => EmergencyStates
    case Case => CaseStates
  }

  /** Only Appointment and CSRIndustrial declare `status` as required. */
  predicate StatusRequired(k: Kind)
  {
    k == Appointment || k == CSRIndustrial
  }

  const Priorities4 := {"LOW", "MEDIUM", "HIGH", "URGENT"}
  const Levels4 := {"LOW", "MEDIUM", "HIGH", "CRITICAL"}
  const Verification := {"PENDING", "VERIFIED", "REJECTED"}
  const SlaStates := {"within-sla", "approaching-breach", "breached"}
  const CaseTypes := {"grievance", "dispute", "temple", "cmr", "education", "csr", "appointment", "program"}
  const MilestoneStates := {"PENDING", "IN_PROGRESS", "COMPLETED", "DELAYED"}
  const TempleStates := {"REQUESTED", "UNDER_REVIEW", "APPROVED", "REJECTED", "LETTER_ISSUED", "COMPLETED", "CANCELLED"}
  const ReliefStates := {"REQUESTED", "UNDER_REVIEW", "VERIFICATION_PENDING", "APPROVED", "REJECTED", "AMOUNT_DISBURSED", "COMPLETED", "CANCELLED"}
  const DisputeStates := {"NEW", "UNDER_REVIEW", "MEDIATION_SCHEDULED", "IN_MEDIATION", "SETTLED", "REFERRED_TO_COURT", "CLOSED"}
  const AppointmentStates := {"REQUESTED", "UNDER_REVIEW", "CONFIRMED", "RESCHEDULED", "CHECKED_IN", "IN_PROGRESS", "COMPLETED", "CANCELLED", "NO_SHOW", "REJECTED"}
  const CsrStates := {"LEAD", "DUE_DILIGENCE", "PROPOSAL_SENT", "PROPOSAL_REVIEW", "MOU_DRAFT", "MOU_SIGNED", "IN_EXECUTION", "MILESTONES_APPROVED", "COMPLETED", "CLOSED", "REJECTED"}
  const ProgramStates := {"PLANNED", "REGISTRATION", "REGISTRATION_CLOSED", "SCREENING", "SELECTION", "OFFER", "JOINED", "ONGOING", "COMPLETED", "CANCELLED", "POSTPONED"}
  const EmergencyStates := {"LOGGED", "DISPATCHED", "IN_PROGRESS", "RESOLVED", "CANCELLED", "CLOSED"}
  const CaseStates := {"pending", "in-progress", "under-review", "approved", "rejected", "completed", "closed"}
  const DarshanTypes := {"VIP", "GENERAL", "SPECIAL", "DIVYA_DARSHAN", "SARVA_DARSHAN"}
  const ActionItemStates := {"PENDING", "IN_PROGRESS", "COMPLETED"}
  const AppointmentPriorities := {"LOW", "MEDIUM", "HIGH", "VIP"}
  const DueDiligenceStates := {"PENDING", "IN_PROGRESS", "COMPLETED", "REJECTED"}
  const ProgramTypes := {"JOB_MELA", "PROGRAM", "TRAINING", "WORKSHOP", "SEMINAR", "OTHER"}
  const EmergencyTypes := {"MEDICAL", "POLICE", "FIRE", "NATURAL_DISASTER", "ACCIDENT", "OTHER"}
  const CasePriorities := {"P1", "P2", "P3", "P4"}
  const DisputeCategories := {"Land", "Society", "Benefits", "Tenancy", "Family", "Property", "Other"}
  const ReliefTypes := {"MEDICAL", "EDUCATION", "ACCIDENT", "NATURAL_DISASTER", "FINANCIAL_ASSISTANCE", "FUNERAL", "OTHER"}
  const EducationTypes := {"SCHOOL", "INTERMEDIATE", "UNDERGRADUATE", "POSTGRADUATE", "DIPLOMA", "VOCATIONAL", "SKILL_TRAINING", "OTHER"}
  const SupportTypes := {"TUITION_FEE", "BOOKS", "UNIFORM", "TRANSPORT", "HOSTEL_FEE", "EXAM_FEE", "LAPTOP", "SCHOLARSHIP", "OTHER"}
  const AppointmentCategories := {"PERSONAL_GRIEVANCE", "PROJECT_DISCUSSION", "COMMUNITY_ISSUE", "BUSINESS_PROPOSAL", "GENERAL_MEETING", "VIP_MEETING", "OTHER"}
  const MeetingPlaces := {"CHIEF_MINISTER_OFFICE", "SECRETARIAT", "DISTRICT_COLLECTORATE", "FIELD_VISIT", "VIRTUAL_MEETING", "OTHER"}
  const Genders := {"Male", "Female", "Other"}
  const DisbursementModes := {"BANK_TRANSFER", "CHEQUE", "CASH", "DD"}
  const InstitutionTypes := {"GOVERNMENT", "PRIVATE", "AIDED"}
  const CompanyTypes := {"PUBLIC", "PRIVATE", "MNC", "PSU", "STARTUP", "NGO"}
  const ProjectCategories := {"EDUCATION", "HEALTHCARE", "RURAL_DEVELOPMENT", "SKILL_DEVELOPMENT", "INFRASTRUCTURE", "ENVIRONMENT", "SPORTS", "CULTURE", "DISASTER_RELIEF", "OTHER"}
  const FundingModels := {"FULL_FUNDING", "PARTIAL_FUNDING", "MATCHING_GRANT", "IN_KIND"}
  const RiskLevels := {"LOW", "MEDIUM", "HIGH"}
  const AppointmentDocuments := {"REQUEST_LETTER", "IDENTITY_PROOF", "SUPPORTING_DOCUMENTS", "MEETING_MINUTES", "FOLLOW_UP_DOCUMENTS", "OTHER"}
  const CsrDocuments := {"PROPOSAL", "MOU", "BUDGET", "PROGRESS_REPORT", "COMPLETION_CERTIFICATE", "PHOTOS", "OTHER"}
  const ProgramDocuments := {"PROPOSAL", "APPROVAL_LETTER", "BUDGET", "AGENDA", "BROCHURE", "POSTER", "REPORT", "PHOTOS", "ATTENDANCE", "FEEDBACK", "OTHER"}

  /** Defaults of top-level paths, applied by `new Model(...)` to every path
      whose given value is `undefined`. */
  function TopDefaults(k: Kind): Fields
  {
    match k
    case Temple => map["numberOfPeople" := Num(1.0), "status" := Str("REQUESTED")]
    case CMRelief =>
      map["urgency" := Str("MEDIUM"), "status" := Str("REQUESTED"), "priority" := Str("MEDIUM"),
          "verificationStatus" := Str("PENDING")]
    case Education =>
      map["urgency" := Str("MEDIUM"), "status" := Str("REQUESTED"), "priority" := Str("MEDIUM"),
          "verificationStatus" := Str("PENDING")]
    case Dispute => map["status" := Str("NEW"), "priority" := Str("MEDIUM")]
    case Appointment =>
      map["category" := Str("GENERAL_MEETING"), "urgency" := Str("MEDIUM"), "status" := Str("REQUESTED"),
          "followUpRequired" := Bool(false), "confirmationSent" := Bool(false),
          "reminderSent" := Bool(false), "priority" := Str("MEDIUM"), "isVIP" := Bool(false)]
    case CSRIndustrial =>
      map["progressPercentage" := Num(0.0), "dueDiligenceStatus" := Str("PENDING"),
          "status" := Str("LEAD"), "priority" := Str("MEDIUM")]
    case Program =>
      map["type" := Str("PROGRAM"), "state" := Str("Andhra Pradesh"), "registrations" := Num(0.0),
          "actualParticipants" := Num(0.0), "registrationFee" := Num(0.0),
          "isRegistrationRequired" := Bool(true), "status" := Str("PLANNED"),
          "followUpRequired" := Bool(true), "priority" := Str("MEDIUM"), "isPublic" := Bool(true),
          "isFeatured" := Bool(false)]
    case Emergency =>
      map["urgency" := Str("HIGH"), "status" := Str("LOGGED"), "priority" := Str("HIGH"),
          "escalated" := Bool(false)]
    case Case => map["priority" := Str("P3"), "status" := Str("pending")]
  }

  /** Defaults inside nested objects (`sla.status`), keyed by the object's path. */
  function NestedDefaults(k: Kind): map<string, Fields>
  {
    match k
    case Dispute => map["sla" := map["status" := Str("within-sla")]]
    case Case => map["sla" := map["status" := Str("within-sla")]]
    case Program =>
      map["jobMelaDetails" := map["totalJobPositions" := Num(0.0)],
          "programDetails" := map["certificateProvided" := Bool(false)]]
    case _ => map[]
  }

  /** Defaults of the elements of array paths (`milestones[].status`). */
  function ElementDefaults(k: Kind): map<string, Fields>
  {
    match k
    case Appointment => map["actionItems" := map["status" := Str("PENDING")]]
    case CSRIndustrial => map["milestones" := map["status" := Str("PENDING")]]
    case _ => map[]
  }

  function Pick(given: Fields, defaults: Fields, key: string): Value
  {
    if Get(given, key) == Undefined && key in defaults then defaults[key] else Get(given, key)
  }

  /** `given` with `defaults` filling the paths it leaves undefined. */
  function Fill(given: Fields, defaults: Fields): (r: Fields)
    ensures forall key :: Get(r, key) == Pick(given, defaults, key)
  {
    map key | key in given.Keys + defaults.Keys && Pick(given, defaults, key) != Undefined
      :: Pick(given, defaults, key)
  }

  /** An element pushed onto array path `list` of a `k` document, with the
      element defaults applied. */
  function ElementWithDefaults(k: Kind, list: string, e: Value): Value
  {
    if list in ElementDefaults(k) && e.Obj? then Obj(Fill(e.fields, ElementDefaults(k)[list])) else e
  }

  /** `new Model(given)`: defaults fill every undefined top-level path, every
      undefined path of a nested object, and every undefined path of the
      elements of an array path. */
  function Construct(k: Kind, given: Fields): Fields
  {
    var top := Fill(given, TopDefaults(k));
    var nested := NestedDefaults(k);
    map key | key in top.Keys + nested.Keys ::
      if key in nested then Obj(Fill(FieldsOf(Get(top, key)), nested[key]))
      else if top[key].Arr? then
        Arr(seq(|top[key].items|, i requires 0 <= i < |top[key].items| =>
          ElementWithDefaults(k, key, top[key].items[i])))
      else top[key]
  }

  // ---------------------------------------------------------------------
  // Validation
  // ---------------------------------------------------------------------

  /** A validation rule on the top-level path `key` (and below it). */
  datatype Rule =
    | OneOf(key: string, rest: seq<string>, allowed: set<string>)
    | Required(key: string, rest: seq<string>)
    | Within(key: string, lo: real, hi: real)
    | EachOneOf(key: string, field: string, allowed: set<string>)
    | EachRequired(key: string, field: string)

  /** The enum validator: unset values pass. */
  predicate EnumOk(v: Value, allowed: set<string>)
  {
    v == Undefined || v == Null || (v.Str? && v.s in allowed)
  }

  /** The required validator: `undefined`, `null` and "" fail. */
  predicate Present(v: Value)
  {
    v != Undefined && v != Null && v != Str("")
  }

  /** Whether rule `r` accepts `v`, the value at its top-level path. */
  predicate Passes(r: Rule, v: Value)
  {
    match r
    case OneOf(_, rest, allowed) => EnumOk(GetPath(v, rest), allowed)
    case Required(_, rest) => Present(GetPath(v, rest))
    case Within(_, lo, hi) => v == Undefined || v == Null || (v.Num? && lo <= v.n <= hi)
    case EachOneOf(_, field, allowed) =>
      forall i :: 0 <= i < |Entries(v)| ==>
        Entries(v)[i].Obj? && EnumOk(Get(Entries(v)[i].fields, field), allowed)
    case EachRequired(_, field) =>
      forall i :: 0 <= i < |Entries(v)| ==>
        Entries(v)[i].Obj? && Present(Get(Entries(v)[i].fields, field))
  }

  /** The validators of each kind, in schema order. */
  function Rules(k: Kind): seq<Rule>
  {
    match k
    case Temple => TempleRules()
    case CMRelief => CMReliefRules()
    case Education => EducationRules()
    case Dispute => DisputeRules()
    case Appointment => AppointmentRules()
    case CSRIndustrial => CSRIndustrialRules()
    case Program => ProgramRules()
    case Emergency => EmergencyRules()
    case Case => CaseRules()
  }

  function TempleRules(): seq<Rule>
  {
    [Required("templeId", []), Required("applicantName", []), Required("mobile", []),
     Required("templeName", []), Required("darshanType", []), Required("preferredDate", []),
     OneOf("darshanType", [], DarshanTypes),
     OneOf("status", [], StatusValues(Temple))]
  }

  function CMReliefRules(): seq<Rule>
  {
    [Required("cmrfId", []), Required("applicantName", []), Required("mobile", []),
     Required("reliefType", []), Required("requestedAmount", []),
     OneOf("reliefType", [], ReliefTypes),
     OneOf("urgency", [], Levels4), OneOf("status", [], StatusValues(CMRelief)), OneOf("priority", [], Priorities4),
     OneOf("verificationStatus", [], Verification),
     OneOf("gender", [], Genders), OneOf("disbursementDetails", ["disbursementMode"], DisbursementModes)]
  }

  function EducationRules(): seq<Rule>
  {
    [Required("educationId", []), Required("studentName", []), Required("mobile", []),
     Required("educationType", []), Required("institutionName", []),
     Required("supportType", []), Required("requestedAmount", []),
     OneOf("educationType", [], EducationTypes),
     OneOf("supportType", [], SupportTypes),
     OneOf("urgency", [], Levels4), OneOf("status", [], StatusValues(Education)), OneOf("priority", [], Priorities4),
     OneOf("verificationStatus", [], Verification),
     OneOf("gender", [], Genders), OneOf("institutionType", [], InstitutionTypes),
     OneOf("disbursementDetails", ["disbursementMode"], DisbursementModes)]
  }

  function DisputeRules(): seq<Rule>
  {
    [Required("disputeId", []),
     Required("partyA", ["name"]), Required("partyA", ["contact"]), Required("partyA", ["address"]),
     Required("partyB", ["name"]), Required("partyB", ["contact"]), Required("partyB", ["address"]),
     Required("category", []), Required("description", []),
     OneOf("category", [], DisputeCategories),
     OneOf("status", [], StatusValues(Dispute)), OneOf("sla", ["status"], SlaStates), OneOf("priority", [], Priorities4)]
  }

  function AppointmentRules(): seq<Rule>
  {
    [Required("appointmentId", []), Required("applicantName", []), Required("mobile", []),
     Required("purpose", []), Required("status", []),
     OneOf("category", [], AppointmentCategories),
     OneOf("urgency", [], Levels4), OneOf("status", [], StatusValues(Appointment)),
     EachOneOf("actionItems", "status", ActionItemStates),
     OneOf("meetingPlace", [], MeetingPlaces),
     OneOf("priority", [], AppointmentPriorities),
     OneOf("gender", [], Genders), EachOneOf("attachments", "documentType", AppointmentDocuments)]
  }

  function CSRIndustrialRules(): seq<Rule>
  {
    [Required("csrId", []), Required("companyName", []), Required("contactPersonName", []),
     Required("contactMobile", []), Required("projectName", []), Required("proposedBudget", []),
     EachOneOf("milestones", "status", MilestoneStates),
     Within("progressPercentage", 0.0, 100.0),
     OneOf("dueDiligenceStatus", [], DueDiligenceStates),
     Required("status", []), OneOf("status", [], StatusValues(CSRIndustrial)), OneOf("priority", [], Levels4),
     OneOf("companyType", [], CompanyTypes), OneOf("projectCategory", [], ProjectCategories),
     OneOf("fundingModel", [], FundingModels), OneOf("riskAssessment", [], RiskLevels),
     EachOneOf("attachments", "documentType", CsrDocuments)]
  }

  function ProgramRules(): seq<Rule>
  {
    [Required("programId", []), Required("eventName", []), Required("type", []),
     OneOf("type", [], ProgramTypes),
     Required("startDate", []), Required("endDate", []), Required("venue", []), OneOf("status", [], StatusValues(Program)),
     EachRequired("comments", "user"), EachRequired("comments", "text"),
     OneOf("priority", [], Levels4),
     EachOneOf("attachments", "documentType", ProgramDocuments)]
  }

  function EmergencyRules(): seq<Rule>
  {
    [Required("applicantName", []), Required("mobile", []), Required("emergencyType", []),
     OneOf("emergencyType", [], EmergencyTypes),
     Required("location", []), Required("description", []), OneOf("urgency", [], Levels4),
     OneOf("status", [], StatusValues(Emergency)), OneOf("priority", [], Levels4)]
  }

  function CaseRules(): seq<Rule>
  {
    [Required("caseId", []), Required("caseType", []), OneOf("caseType", [], CaseTypes),
     Required("citizenName", []), Required("subject", []), Required("description", []),
     OneOf("priority", [], CasePriorities), OneOf("status", [], StatusValues(Case)), Required("department", []),
     OneOf("sla", ["status"], SlaStates)]
  }

  /** A full document validation (`save`). */
  predicate Conforms(k: Kind, doc: Fields)
  {
    forall i :: 0 <= i < |Rules(k)| ==> Passes(Rules(k)[i], Get(doc, Rules(k)[i].key))
  }

  /** Update validation (`runValidators`): only the rules on the paths set. */
  predicate ConformsOn(k: Kind, doc: Fields, keys: set<string>)
  {
    forall i :: 0 <= i < |Rules(k)| && Rules(k)[i].key in keys ==>
      Passes(Rules(k)[i], Get(doc, Rules(k)[i].key))
  }

  // ---------------------------------------------------------------------
  // Lemmas
  // ---------------------------------------------------------------------

  /** Where the status enumeration sits in `Rules(k)`. */
  function StatusRuleIndex(k: Kind): (i: nat)
    ensures i < |Rules(k)| && Rules(k)[i] == OneOf("status", [], StatusValues(k))
  {
    match k
    case Temple => 7
    case CMRelief => 7
    case Education => 10
    case Dispute => 10
    case Appointment => 7
    case CSRIndustrial => 10
    case Program => 7
    case Emergency => 7
    case Case => 7
  }

  /** Where the required-status rule sits in `Rules(k)`. */
  function RequiredStatusIndex(k: Kind): (i: nat)
    requires StatusRequired(k)
    ensures i < |Rules(k)| && Rules(k)[i] == Required("status", [])
  {
    if k == Appointment then 4 else 9
  }

  /** Every kind validates its status against its own enumeration. */
  lemma StatusIsValidated(k: Kind, doc: Fields)
    requires Conforms(k, doc)
    ensures EnumOk(Get(doc, "status"), StatusValues(k))
    ensures StatusRequired(k) ==> Get(doc, "status").Str?
  {
    var rs := Rules(k);
    var i := StatusRuleIndex(k);
    assert Passes(rs[i], Get(doc, rs[i].key));
    if StatusRequired(k) {
      var j := RequiredStatusIndex(k);
      assert Passes(rs[j], Get(doc, rs[j].key));
    }
  }

  /** A status outside the kind's enumeration fails both the full
      validation and the update validation of any paths that include
      `status`. */
  lemma UnknownStatusRefused(k: Kind, doc: Fields, keys: set<string>)
    requires "status" in keys
    requires Get(doc, "status").Str? && Get(doc, "status").s !in StatusValues(k)
    ensures !Conforms(k, doc) && !ConformsOn(k, doc, keys)
  {
    var i := StatusRuleIndex(k);
    BrokenRuleRefused(k, doc, keys, i);
  }

  /** One failing rule on a path in `keys` fails both validations. */
  /** The kinds whose schema declares the `gender` enumeration. */
  predicate HasGender(k: Kind)
  {
    k == CMRelief || k == Education || k == Appointment
  }

  /** Where the gender enumeration sits in `Rules(k)`. */
  function GenderRuleIndex(k: Kind): (i: nat)
    requires HasGender(k)
    ensures i < |Rules(k)| && Rules(k)[i] == OneOf("gender", [], Genders)
  {
    match k
    case CMRelief => 10
    case Education => 13
    case Appointment => 11
  }

  /** A gender outside "Male", "Female" and "Other" (a lower-case "male",
      say) fails both validations on the kinds that declare it. */
  lemma UnknownGenderRefused(k: Kind, doc: Fields, keys: set<string>)
    requires HasGender(k) && "gender" in keys
    requires Get(doc, "gender").Str? && Get(doc, "gender").s !in Genders
    ensures !Conforms(k, doc) && !ConformsOn(k, doc, keys)
  {
    BrokenRuleRefused(k, doc, keys, GenderRuleIndex(k));
  }

  lemma BrokenRuleRefused(k: Kind, doc: Fields, keys: set<string>, i: nat)
    requires i < |Rules(k)| && Rules(k)[i].key in keys
    requires !Passes(Rules(k)[i], Get(doc, Rules(k)[i].key))
    ensures !Conforms(k, doc) && !ConformsOn(k, doc, keys)
  {
  }

  /** A document that conformed, changed only on `keys`, and passes the
      update validators on `keys` still conforms. */
  lemma ConformsAfterUpdate(k: Kind, before: Fields, after: Fields, keys: set<string>)
    requires Conforms(k, before) && ConformsOn(k, after, keys)
    requires forall key :: key !in keys ==> Get(after, key) == Get(before, key)
    ensures Conforms(k, after)
  {
    forall i | 0 <= i < |Rules(k)|
      ensures Passes(Rules(k)[i], Get(after, Rules(k)[i].key))
    {
      if Rules(k)[i].key !in keys {
        assert Get(after, Rules(k)[i].key) == Get(before, Rules(k)[i].key);
      }
    }
  }

  /** A constructed document keeps every given defined value, and takes the
      default wherever the given value is undefined. */
  lemma ConstructTopLevel(k: Kind, given: Fields, key: string)
    requires key !in NestedDefaults(k)
    requires !Get(given, key).Arr? || key !in ElementDefaults(k)
    ensures Get(given, key) != Undefined ==> Get(Construct(k, given), key) == Get(given, key)
    ensures Get(given, key) == Undefined && key in TopDefaults(k) ==>
      Get(Construct(k, given), key) == TopDefaults(k)[key]
    ensures Get(given, key) == Undefined && key !in TopDefaults(k) ==>
      Get(Construct(k, given), key) == Undefined
  {
    var top := Fill(given, TopDefaults(k));
    assert Get(top, key) == Pick(given, TopDefaults(k), key);
    var c := Construct(k, given);
    if key in top {
      if top[key].Arr? {
        TopDefaultsAreScalars(k, key);
        assert key !in ElementDefaults(k);
        var items := top[key].items;
        var mapped := seq(|items|, i requires 0 <= i < |items| => ElementWithDefaults(k, key, items[i]));
        assert mapped == items;
        assert c[key] == Arr(mapped);
      } else {
        assert c[key] == top[key];
      }
    } else {
      assert key !in c;
    }
  }

  /** No top-level default is an array. */
  lemma TopDefaultsAreScalars(k: Kind, key: string)
    ensures key in TopDefaults(k) ==> !TopDefaults(k)[key].Arr?
  {
  }

  /** Paths without any default keep their given value. */
  lemma ConstructKeepsPlain(k: Kind, given: Fields, keys: set<string>)
    requires forall key :: key in keys ==>
      key !in TopDefaults(k) && key !in NestedDefaults(k) && key !in ElementDefaults(k)
    ensures forall key :: key in keys ==> Get(Construct(k, given), key) == Get(given, key)
  {
    forall key | key in keys
      ensures Get(Construct(k, given), key) == Get(given, key)
    {
      ConstructTopLevel(k, given, key);
    }
  }

  /** A nested object path of a constructed document always exists, and its
      defaulted fields are filled. */
  lemma ConstructNested(k: Kind, given: Fields, key: string, field: string)
    requires key in NestedDefaults(k)
    ensures Get(Construct(k, given), key).Obj?
    ensures var inner := FieldsOf(Get(given, key));
      Get(Get(Construct(k, given), key).fields, field)
        == Pick(inner, NestedDefaults(k)[key], field)
  {
    var top := Fill(given, TopDefaults(k));
    NestedNotTop(k, key);
    assert Get(top, key) == Get(given, key);
    assert Construct(k, given)[key] == Obj(Fill(FieldsOf(Get(top, key)), NestedDefaults(k)[key]));
  }

  /** No nested object path has a top-level default of its own. */
  lemma NestedNotTop(k: Kind, key: string)
    requires key in NestedDefaults(k)
    ensures key !in TopDefaults(k)
  {
    match k
    case Dispute =>
    case Case =>
    case Program =>
    case _ =>
  }
}
