/** How the case router turns a request body into the fields of a new case:
    which of the two request shapes it has, the `a || b || "default"`
    fallback chains, the SLA due date parsed from a duration such as "48h",
    the fields only one module carries, and the normalised attachments.
    Every part is a function of the body, the clock and the caller. */
module Intake {
  import opened Wrappers
  import opened Text
  import opened Json
  import Store
  import Schema

  // ---------------------------------------------------------------------
  // The two request shapes
  // ---------------------------------------------------------------------

  /** The module, the details object and the assignment object a body is
      read as. */
  datatype Form = Form(caseType: Value, details: Value, assignment: Value)

  /** The task wizard sends `{module, details, assignment}`; the citizen
      forms send the fields directly, with `caseType` naming the module. */
  function FormOf(body: Fields): Form
  {
    if Truthy(Get(body, "module")) && Truthy(Get(body, "details")) then
      Form(Get(body, "module"), Get(body, "details"), Or(Get(body, "assignment"), Obj(map[])))
    else
      Form(Or(Get(body, "caseType"), Str("grievance")), Obj(body), Obj(map[]))
  }

  /** Whatever the body, the module, the details and the assignment are all
      truthy (so `assignment?.x` never meets `undefined`); a body that is
      not in the wizard shape is its own details, and its module is its
      `caseType` or "grievance". */
  lemma FormIsTotal(body: Fields)
    ensures var f := FormOf(body);
      && Truthy(f.caseType) && Truthy(f.details) && Truthy(f.assignment)
      && (!(Truthy(Get(body, "module")) && Truthy(Get(body, "details"))) ==>
            f.details == Obj(body)
            && f.caseType == (if Truthy(Get(body, "caseType")) then Get(body, "caseType") else Str("grievance")))
      && (Truthy(Get(body, "module")) && Truthy(Get(body, "details")) ==>
            f.caseType == Get(body, "module") && f.details == Get(body, "details"))
  {
  }

  // ---------------------------------------------------------------------
  // Fallback chains
  // ---------------------------------------------------------------------

  /** `vs[0] || vs[1] || … || last` */
  function FirstTruthy(vs: seq<Value>, last: Value): (r: Value)
    ensures forall i :: 0 <= i < |vs| && Truthy(vs[i]) && (forall j :: 0 <= j < i ==> !Truthy(vs[j])) ==> r == vs[i]
    ensures (forall i :: 0 <= i < |vs| ==> !Truthy(vs[i])) ==> r == last
  {
    if vs == [] then last
    else
      var rest := FirstTruthy(vs[1..], last);
      assert forall i :: 1 <= i < |vs| ==> vs[1..][i - 1] == vs[i];
      Or(vs[0], rest)
  }

  /** A chain that ends in a truthy default is truthy. */
  lemma ChainIsTruthy(vs: seq<Value>, last: Value)
    requires Truthy(last)
    ensures Truthy(FirstTruthy(vs, last))
  {
    if exists i :: 0 <= i < |vs| && Truthy(vs[i]) {
      var i :| 0 <= i < |vs| && Truthy(vs[i]);
      FirstTruthyIndex(vs, last, i);
    }
  }

  /** Some truthy value of the chain, the first one, is its result. */
  lemma {:induction false} FirstTruthyIndex(vs: seq<Value>, last: Value, i: nat)
    requires i < |vs| && Truthy(vs[i])
    ensures exists j :: 0 <= j <= i && Truthy(vs[j]) && FirstTruthy(vs, last) == vs[j]
  {
    if Truthy(vs[0]) {
      assert FirstTruthy(vs, last) == vs[0];
    } else {
      FirstTruthyIndex(vs[1..], last, i - 1);
      var j :| 0 <= j <= i - 1 && Truthy(vs[1..][j]) && FirstTruthy(vs[1..], last) == vs[1..][j];
      assert FirstTruthy(vs, last) == vs[j + 1];
    }
  }

  function CitizenName(d: Value): Value
  {
    FirstTruthy([Prop(d, "citizenName"), Prop(d, "applicantName"), Prop(d, "patientName"),
                 Prop(d, "studentName")], Str("N/A"))
  }

  function Subject(d: Value): Value
  {
    FirstTruthy([Prop(d, "subject"), Prop(d, "reason")], Str("New Task"))
  }

  function Department(d: Value, a: Value): Value
  {
    FirstTruthy([Prop(d, "department"), Prop(a, "department")], Str("General"))
  }

  function Priority(d: Value, a: Value): Value
  {
    FirstTruthy([Prop(d, "priority"), Prop(a, "priority")], Str("P3"))
  }

  /** `details.citizenContact || {phone: mobile || phone, email, address:
      address || place}` */
  function Contact(d: Value): Value
  {
    Or(Prop(d, "citizenContact"),
       Obj(Defined(map["phone" := Or(Prop(d, "mobile"), Prop(d, "phone")), "email" := Prop(d, "email"),
                       "address" := Or(Prop(d, "address"), Prop(d, "place"))])))
  }

  /** `v ? new Date(v) : null` (the date conversion itself is not modelled). */
  function DateOrNull(v: Value): Value
  {
    if Truthy(v) then v else Null
  }

  // ---------------------------------------------------------------------
  // SLA due date
  // ---------------------------------------------------------------------

  const HourMillis := 60 * 60 * 1000
  const DayMillis := 24 * HourMillis

  predicate IsUnit(c: char)
  {
    c == 'h' || c == 'd'
  }

  /** The run of digits starting at `i`. */
  function RunAt(s: string, i: nat): string
    requires i <= |s|
  {
    LeadingDigits(s[i..])
  }

  /** `/(\d+)([hd])/` matches at `i`: `\d+` can only end where the run of
      digits from `i` ends, and `h` or `d` must follow it. */
  predicate MatchesAt(s: string, i: nat)
  {
    i < |s| && IsDigit(s[i]) && i + |RunAt(s, i)| < |s| && IsUnit(s[i + |RunAt(s, i)|])
  }

  /** The leftmost position at or after `i` where the pattern matches. */
  function MatchFrom(s: string, i: nat): (r: Option<nat>)
    requires i <= |s|
    decreases |s| - i
    ensures r.Some? ==> i <= r.value < |s| && MatchesAt(s, r.value)
    ensures forall j :: i <= j < |s| && (r.None? || j < r.value) ==> !MatchesAt(s, j)
  {
    if i == |s| then None
    else if MatchesAt(s, i) then Some(i)
    else MatchFrom(s, i + 1)
  }

  /** `calculateDueDate(slaDuration)`: `None` is `null`. A truthy duration
      that is not a string has no `match` method and throws. The amount is
      the matched digits; "h" adds hours and "d" days to the clock. */
  function DueDate(sla: Value, now: int): Result<Option<int>, Store.Fault>
  {
    if !Truthy(sla) then Success(None)
    else if !sla.Str? then Failure(Store.TypeError)
    else
      match MatchFrom(sla.s, 0)
      case None => Success(None)
      case Some(i) =>
        var n := DigitsValue(RunAt(sla.s, i));
        var unit := sla.s[i + |RunAt(sla.s, i)|];
        Success(Some(if unit == 'h' then now + n * HourMillis else now + n * DayMillis))
  }

  lemma {:induction false} RunOfDigits(digits: string, rest: string)
    requires AllDigits(digits) && (rest == [] || !IsDigit(rest[0]))
    ensures LeadingDigits(digits + rest) == digits
  {
    if digits != [] {
      assert (digits + rest)[1..] == digits[1..] + rest;
      RunOfDigits(digits[1..], rest);
    } else {
      assert digits + rest == rest;
    }
  }

  /** A duration written `<n>h` or `<n>d` is due `n` hours or `n` days
      after the clock. */
  lemma DueAfterDuration(n: nat, unit: char, now: int)
    requires IsUnit(unit)
    ensures DueDate(Str(NatToString(n) + [unit]), now)
         == Success(Some(if unit == 'h' then now + n * HourMillis else now + n * DayMillis))
  {
    var s := NatToString(n) + [unit];
    assert s[0..] == s;
    RunOfDigits(NatToString(n), [unit]);
    NatToStringRoundTrip(n);
    assert MatchesAt(s, 0);
  }

  /** A due date is never before the clock. */
  lemma DueNotBefore(sla: Value, now: int)
    ensures DueDate(sla, now).Success? && DueDate(sla, now).value.Some? ==> DueDate(sla, now).value.value >= now
  {
  }

  /** Only the first `<digits><h|d>` counts: "1.5d" is five days, because
      the "1" is not followed by a unit. */
  lemma DecimalDuration(now: int)
    ensures DueDate(Str("1.5d"), now) == Success(Some(now + 5 * DayMillis))
  {
    var s := "1.5d";
    assert RunAt(s, 0) == "1" by { RunOfDigits("1", ".5d"); assert s[0..] == "1" + ".5d"; }
    assert !MatchesAt(s, 0);
    assert !MatchesAt(s, 1);
    assert RunAt(s, 2) == "5" by { RunOfDigits("5", "d"); assert s[2..] == "5" + "d"; }
    assert MatchesAt(s, 2);
    assert DigitsValue("5") == 5;
  }

  /** A duration spelled out in words has no match and gives no due date. */
  lemma WordedDuration(now: int)
    ensures DueDate(Str("2 days"), now) == Success(None)
  {
    var s := "2 days";
    assert RunAt(s, 0) == "2" by { RunOfDigits("2", " days"); assert s[0..] == "2" + " days"; }
    forall j | 0 <= j < |s| ensures !MatchesAt(s, j) {
      if j > 0 { assert !IsDigit(s[j]); }
    }
  }

  // ---------------------------------------------------------------------
  // Module-specific fields
  // ---------------------------------------------------------------------

  /** The fields the `...(module === m && {...})` spreads add: only those of
      the request's own module. */
  function ModuleFields(caseType: Value, d: Value): (r: Fields)
    ensures r.Keys <= ModulePaths
  {
    if caseType == Str("grievance") then
      map["category" := Prop(d, "category"), "mobile" := Or(Prop(d, "mobile"), Prop(d, "phone")),
          "department" := Prop(d, "department"), "priority" := Prop(d, "priority")]
    else if caseType == Str("dispute") then
      map["partyA" := Prop(d, "partyA"), "partyB" := Prop(d, "partyB"),
          "disputeCategory" := Prop(d, "disputeCategory")]
    else if caseType == Str("temple") then
      map["applicantName" := Prop(d, "applicantName"), "templeId" := Prop(d, "templeId"),
          "darshanType" := Prop(d, "darshanType"), "preferredDate" := DateOrNull(Prop(d, "preferredDate"))]
    else if caseType == Str("cmr") then
      map["patientName" := Prop(d, "patientName"), "ailment" := Prop(d, "ailment"),
          "hospitalName" := Prop(d, "hospitalName"), "estimatedAmount" := Prop(d, "estimatedAmount")]
    else if caseType == Str("education") then
      map["studentName" := Prop(d, "studentName"), "courseDetails" := Prop(d, "courseDetails"),
          "institutionName" := Prop(d, "institutionName")]
    else if caseType == Str("csr") then
      map["companyName" := Prop(d, "companyName"), "projectTitle" := Prop(d, "projectTitle"),
          "proposedBudget" := Prop(d, "proposedBudget")]
    else if caseType == Str("appointment") then
      map["appointmentDate" := DateOrNull(Prop(d, "appointmentDate")),
          "appointmentTime" := Prop(d, "appointmentTime"), "purposeOfVisit" := Prop(d, "purposeOfVisit")]
    else if caseType == Str("program") then
      map["programType" := Prop(d, "programType"), "venue" := Prop(d, "venue"),
          "expectedAttendees" := Prop(d, "expectedAttendees")]
    else map[]
  }

  /** The module-specific paths of every module. */
  const ModulePaths := {"category", "mobile", "department", "priority", "partyA", "partyB",
    "disputeCategory", "applicantName", "templeId", "darshanType", "preferredDate", "patientName",
    "ailment", "hospitalName", "estimatedAmount", "studentName", "courseDetails", "institutionName",
    "companyName", "projectTitle", "proposedBudget", "appointmentDate", "appointmentTime",
    "purposeOfVisit", "programType", "venue", "expectedAttendees"}

  /** A module outside the eight spreads nothing; the dispute parties are
      read only for disputes and the patient only for CM relief. */
  lemma UnknownModuleSpreadsNothing(caseType: Value, d: Value)
    requires caseType.Str? && caseType.s !in Schema.CaseTypes
    ensures ModuleFields(caseType, d) == map[]
  {
  }

  lemma PartiesOnlyForDisputes(caseType: Value, d: Value)
    requires caseType != Str("dispute")
    ensures "partyA" !in ModuleFields(caseType, d) && "partyB" !in ModuleFields(caseType, d)
  {
    PartyOnlyForDisputes(caseType, d, "partyA");
    PartyOnlyForDisputes(caseType, d, "partyB");
  }

  lemma PartyOnlyForDisputes(caseType: Value, d: Value, party: string)
    requires caseType != Str("dispute") && (party == "partyA" || party == "partyB")
    ensures party !in ModuleFields(caseType, d)
  {
  }

  lemma PatientOnlyForRelief(caseType: Value, d: Value)
    requires caseType != Str("cmr")
    ensures "patientName" !in ModuleFields(caseType, d)
  {
  }

  // ---------------------------------------------------------------------
  // Attachments
  // ---------------------------------------------------------------------

  /** One attachment after the `map`: a string is a URL named by its last
      `/` segment (or "file"); an object (an array included) keeps its
      name, URL and upload time; anything else is the `null` that
      `filter(Boolean)` drops. Every attachment kept has a name. */
  function Attachment(att: Value, now: int): (r: Option<Value>)
    ensures r.Some? <==> Keepable(att)
    ensures r.Some? ==> r.value.Obj? && Truthy(Get(r.value.fields, "filename"))
    ensures att.Str? ==> r.Some? && Get(r.value.fields, "url") == att
  {
    if att.Str? then Some(FromUrl(att.s, now))
    else if att.Obj? || att.Arr? then Some(FromObject(att, now))
    else None
  }

  /** A URL, named by its last `/` segment or "file". */
  function FromUrl(url: string, now: int): (r: Value)
    ensures r.Obj? && Truthy(Get(r.fields, "filename")) && Get(r.fields, "url") == Str(url)
  {
    var name := LastSegment(url, '/');
    Named(Str(if name == "" then "file" else name), Str(url), Num(now as real))
  }

  /** An object: `filename || name || "file"`, its URL, and its upload
      time or the clock. An array reads as an object without fields. */
  function FromObject(att: Value, now: int): (r: Value)
    ensures r.Obj? && Truthy(Get(r.fields, "filename"))
  {
    var name := Or(Or(Prop(att, "filename"), Prop(att, "name")), Str("file"));
    Named(name, Prop(att, "url"), Or(Prop(att, "uploadedAt"), Num(now as real)))
  }

  /** `{filename, url, uploadedAt}` as stored. */
  function Named(name: Value, url: Value, at: Value): (r: Value)
    ensures r.Obj? && Get(r.fields, "filename") == name && Get(r.fields, "url") == url
  {
    Obj(Defined(map["filename" := name, "url" := url, "uploadedAt" := at]))
  }

  predicate Keepable(att: Value)
  {
    att.Str? || att.Obj? || att.Arr?
  }

  /** `items.map(…).filter(Boolean)` */
  function Kept(items: seq<Value>, now: int): (r: seq<Value>)
    ensures |r| <= |items|
    ensures forall j :: 0 <= j < |r| ==> r[j].Obj? && Truthy(Get(r[j].fields, "filename"))
  {
    if items == [] then []
    else
      var rest := Kept(items[..|items| - 1], now);
      match Attachment(items[|items| - 1], now)
      case None => rest
      case Some(a) => rest + [a]
  }

  /** `Array.isArray(v) ? v.map(…).filter(Boolean) : []` */
  function Attachments(v: Value, now: int): seq<Value>
  {
    if v.Arr? then Kept(v.items, now) else []
  }

  /** Every element is a string or an object. */
  predicate AllKeepable(items: seq<Value>)
  {
    forall i :: 0 <= i < |items| ==> Keepable(items[i])
  }

  /** Nothing is dropped exactly when every element is a string or an
      object. */
  lemma {:induction false} KeptAll(items: seq<Value>, now: int)
    ensures |Kept(items, now)| == |items| <==> AllKeepable(items)
  {
    if items != [] {
      KeptAll(items[..|items| - 1], now);
      KeptLength(items, now);
      AllKeepableSnoc(items);
    }
  }

  lemma AllKeepableSnoc(items: seq<Value>)
    requires items != []
    ensures AllKeepable(items) <==> AllKeepable(items[..|items| - 1]) && Keepable(items[|items| - 1])
  {
    assert forall i :: 0 <= i < |items| - 1 ==> items[..|items| - 1][i] == items[i];
  }

  /** The last element adds one attachment exactly when it is kept. */
  lemma KeptLength(items: seq<Value>, now: int)
    requires items != []
    ensures |Kept(items, now)| == |Kept(items[..|items| - 1], now)| + (if Keepable(items[|items| - 1]) then 1 else 0)
  {
  }

  /** The last element adds its attachment, if it has one. */
  lemma KeptStep(items: seq<Value>, now: int)
    requires items != []
    ensures var last := items[|items| - 1];
      Kept(items, now) == Kept(items[..|items| - 1], now)
        + (if Keepable(last) then [Attachment(last, now).value] else [])
  {
  }

  /** Every element is a string. */
  predicate AllUrls(items: seq<Value>)
  {
    forall i :: 0 <= i < |items| ==> items[i].Str?
  }

  /** `r` holds one attachment per element of `items`, in order, each with
      that element as its URL. */
  predicate KeepsUrls(r: seq<Value>, items: seq<Value>)
  {
    |r| == |items| && forall j :: 0 <= j < |r| ==> r[j].Obj? && Get(r[j].fields, "url") == items[j]
  }

  lemma KeepsUrlsSnoc(r: seq<Value>, items: seq<Value>, a: Value, last: Value)
    requires KeepsUrls(r, items) && a.Obj? && Get(a.fields, "url") == last
    ensures KeepsUrls(r + [a], items + [last])
  {
  }

  /** A list of URLs becomes one attachment per URL, in order, each keeping
      its URL. */
  lemma {:induction false} UrlAttachments(items: seq<Value>, now: int)
    requires AllUrls(items)
    ensures KeepsUrls(Kept(items, now), items)
  {
    if items != [] {
      var init := items[..|items| - 1];
      var last := items[|items| - 1];
      assert AllUrls(init) by {
        assert forall i :: 0 <= i < |init| ==> init[i] == items[i];
      }
      UrlAttachments(init, now);
      KeptStep(items, now);
      KeepsUrlsSnoc(Kept(init, now), init, Attachment(last, now).value, last);
      assert init + [last] == items;
    }
  }

  // ---------------------------------------------------------------------
  // The new case
  // ---------------------------------------------------------------------

  /** The fields every case carries, whatever its module. */
  function CommonFields(caseId: string, f: Form): Fields
  {
    var d := f.details;
    map["reason" := Prop(d, "reason"),
        "place" := Prop(d, "place"), "time" := DateOrNull(Prop(d, "time")),
        "citizenContact" := Contact(d), "district" := Prop(d, "district"), "mandal" := Prop(d, "mandal"),
        "ward" := Prop(d, "ward"), "pincode" := Prop(d, "pincode"),
        "description" := Or(Prop(d, "description"), Str("")), "subject" := Subject(d), "citizenName" := CitizenName(d), "caseType" := f.caseType,
        "caseId" := Str(caseId)]
  }

  /** `sla: {duration, dueDate, status: "within-sla"}` */
  function SlaOf(duration: Value, due: Option<int>): (r: Value)
    ensures GetPath(r, ["status"]) == Str("within-sla")
    ensures GetPath(r, ["dueDate"]) == if due.Some? then Num(due.value as real) else Null
  {
    Obj(Defined(map["duration" := duration, "dueDate" := (if due.Some? then Num(due.value as real) else Null),
                    "status" := Str("within-sla")]))
  }

  /** The assignment, SLA, attachments, status and creator, written after
      the module spreads and so overriding them. */
  function ClosingFields(f: Form, due: Option<int>, user: Value, now: int): Fields
  {
    var d := f.details;
    var a := f.assignment;
    map["assignedTo" := Or(Prop(a, "assignedTo"), Null), "assignmentNotes" := Prop(a, "notes"),
        "attachments" := Arr(Attachments(Prop(d, "attachments"), now)),
        "sla" := SlaOf(Prop(a, "sla"), due), "createdBy" := Prop(user, "id"),
        "status" := Or(Prop(d, "status"), Str("pending")),
        "priority" := Priority(d, a), "department" := Department(d, a)]
  }

  /** The object literal: the common fields, the module's spread, then the
      closing fields, later keys winning. */
  function Assembled(caseId: string, f: Form, due: Option<int>, user: Value, now: int): Fields
  {
    CommonFields(caseId, f) + ModuleFields(f.caseType, f.details) + ClosingFields(f, due, user, now)
  }

  /** The `caseData` object of a create; only the due date can throw. */
  function CaseData(body: Fields, caseId: string, user: Value, now: int): Result<Fields, Store.Fault>
  {
    var f := FormOf(body);
    var due :- DueDate(Prop(f.assignment, "sla"), now);
    Success(Assembled(caseId, f, due, user, now))
  }

  lemma UnionGet(a: Fields, b: Fields, c: Fields, k: string)
    ensures Get(a + b + c, k) == if k in c then c[k] else if k in b then b[k] else Get(a, k)
  {
  }

  lemma CommonIdentity(caseId: string, f: Form)
    ensures var m := CommonFields(caseId, f);
      && "caseId" in m && m["caseId"] == Str(caseId)
      && "caseType" in m && m["caseType"] == f.caseType
      && "citizenName" in m && m["citizenName"] == CitizenName(f.details)
      && "subject" in m && m["subject"] == Subject(f.details)
      && "description" in m && m["description"] == Or(Prop(f.details, "description"), Str(""))
  {
  }

  lemma IdentityIsNoModulePath()
    ensures "caseId" !in ModulePaths && "caseType" !in ModulePaths
    ensures "citizenName" !in ModulePaths && "subject" !in ModulePaths && "description" !in ModulePaths
  {
  }

  lemma ClosingLacksIdentity(f: Form, due: Option<int>, user: Value, now: int)
    ensures var m := ClosingFields(f, due, user, now);
      && "caseId" !in m && "caseType" !in m && "citizenName" !in m && "subject" !in m && "description" !in m
  {
    IdentityNotClosing(f, due, user, now, "caseId");
    IdentityNotClosing(f, due, user, now, "caseType");
    IdentityNotClosing(f, due, user, now, "citizenName");
    IdentityNotClosing(f, due, user, now, "subject");
    IdentityNotClosing(f, due, user, now, "description");
  }

  lemma IdentityNotClosing(f: Form, due: Option<int>, user: Value, now: int, k: string)
    requires k == "caseId" || k == "caseType" || k == "citizenName" || k == "subject" || k == "description"
    ensures k !in ClosingFields(f, due, user, now)
  {
  }

  lemma ClosingKeys(f: Form, due: Option<int>, user: Value, now: int)
    ensures var m := ClosingFields(f, due, user, now);
      && "department" in m && m["department"] == Department(f.details, f.assignment)
      && "priority" in m && m["priority"] == Priority(f.details, f.assignment)
      && "status" in m && m["status"] == Or(Prop(f.details, "status"), Str("pending"))
      && "sla" in m && m["sla"] == SlaOf(Prop(f.assignment, "sla"), due)
      && "createdBy" in m && m["createdBy"] == Prop(user, "id")
  {
  }

  /** A case is stored under its identifier and module, with the first
      truthy citizen name or "N/A" and the first truthy subject or
      "New Task", so neither is ever empty. */
  lemma AssembledIdentity(caseId: string, f: Form, due: Option<int>, user: Value, now: int)
    ensures var data := Assembled(caseId, f, due, user, now);
      && Get(data, "caseId") == Str(caseId)
      && Get(data, "caseType") == f.caseType
      && Get(data, "citizenName") == CitizenName(f.details) && Truthy(Get(data, "citizenName"))
      && Get(data, "subject") == Subject(f.details) && Truthy(Get(data, "subject"))
  {
    var d := f.details;
    var common := CommonFields(caseId, f);
    var spread := ModuleFields(f.caseType, f.details);
    var closing := ClosingFields(f, due, user, now);
    ChainIsTruthy([Prop(d, "citizenName"), Prop(d, "applicantName"), Prop(d, "patientName"), Prop(d, "studentName")], Str("N/A"));
    ChainIsTruthy([Prop(d, "subject"), Prop(d, "reason")], Str("New Task"));
    CommonIdentity(caseId, f);
    IdentityIsNoModulePath();
    ClosingLacksIdentity(f, due, user, now);
    UnionGet(common, spread, closing, "caseId");
    UnionGet(common, spread, closing, "caseType");
    UnionGet(common, spread, closing, "citizenName");
    UnionGet(common, spread, closing, "subject");
  }

  /** A case starts with the first truthy department and priority of the
      details and the assignment, or "General" and "P3"; a status that is
      never empty; an SLA marked within time and due when the duration
      says; and the caller's `id` as its creator. */
  lemma AssembledDefaults(caseId: string, f: Form, due: Option<int>, user: Value, now: int)
    ensures var data := Assembled(caseId, f, due, user, now);
      && Get(data, "department") == Department(f.details, f.assignment) && Truthy(Get(data, "department"))
      && Get(data, "priority") == Priority(f.details, f.assignment) && Truthy(Get(data, "priority"))
      && Truthy(Get(data, "status"))
      && GetPath(Get(data, "sla"), ["status"]) == Str("within-sla")
      && GetPath(Get(data, "sla"), ["dueDate"]) == (if due.Some? then Num(due.value as real) else Null)
      && Get(data, "createdBy") == Prop(user, "id")
  {
    var d := f.details;
    var a := f.assignment;
    var common := CommonFields(caseId, f);
    var spread := ModuleFields(f.caseType, f.details);
    var closing := ClosingFields(f, due, user, now);
    ChainIsTruthy([Prop(d, "department"), Prop(a, "department")], Str("General"));
    ChainIsTruthy([Prop(d, "priority"), Prop(a, "priority")], Str("P3"));
    ClosingKeys(f, due, user, now);
    UnionGet(common, spread, closing, "department");
    UnionGet(common, spread, closing, "priority");
    UnionGet(common, spread, closing, "status");
    UnionGet(common, spread, closing, "sla");
    UnionGet(common, spread, closing, "createdBy");
  }

  /** The description falls back to the empty text. */
  lemma AssembledDescription(caseId: string, f: Form, due: Option<int>, user: Value, now: int)
    ensures Get(Assembled(caseId, f, due, user, now), "description") == Or(Prop(f.details, "description"), Str(""))
  {
    CommonIdentity(caseId, f);
    IdentityIsNoModulePath();
    ClosingLacksIdentity(f, due, user, now);
    UnionGet(CommonFields(caseId, f), ModuleFields(f.caseType, f.details), ClosingFields(f, due, user, now), "description");
  }

  /** A duration that is not a string refuses the create. */
  lemma NonStringDurationRefused(body: Fields, caseId: string, user: Value, now: int)
    requires Truthy(Prop(FormOf(body).assignment, "sla")) && !Prop(FormOf(body).assignment, "sla").Str?
    ensures CaseData(body, caseId, user, now) == Failure(Store.TypeError)
  {
  }

  /** What a create stores, read off the case data: it exists exactly when
      the due date can be computed, and then carries the generated
      identifier, the module, a citizen name and a subject that are never
      empty, the description or "", the chosen department and priority, a
      status, an SLA within time, and the caller as creator. */
  lemma CaseDataShape(body: Fields, caseId: string, user: Value, now: int)
    ensures var r := CaseData(body, caseId, user, now);
      var f := FormOf(body);
      && (r.Success? <==> DueDate(Prop(f.assignment, "sla"), now).Success?)
      && (r.Success? ==>
            && Get(r.value, "caseId") == Str(caseId)
            && Get(r.value, "caseType") == f.caseType
            && Get(r.value, "citizenName") == CitizenName(f.details) && Truthy(Get(r.value, "citizenName"))
            && Get(r.value, "subject") == Subject(f.details) && Truthy(Get(r.value, "subject"))
            && Get(r.value, "description") == Or(Prop(f.details, "description"), Str(""))
            && Get(r.value, "department") == Department(f.details, f.assignment)
            && Get(r.value, "priority") == Priority(f.details, f.assignment)
            && Truthy(Get(r.value, "status"))
            && GetPath(Get(r.value, "sla"), ["status"]) == Str("within-sla")
            && Get(r.value, "createdBy") == Prop(user, "id"))
  {
    var f := FormOf(body);
    var due := DueDate(Prop(f.assignment, "sla"), now);
    if due.Success? {
      AssembledIdentity(caseId, f, due.value, user, now);
      AssembledDefaults(caseId, f, due.value, user, now);
      AssembledDescription(caseId, f, due.value, user, now);
    }
  }
}
