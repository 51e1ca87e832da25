/** The CM appointment router. A new appointment is the body with the
    `APP-AP-<year>-<count + 1>` identifier forced over it; the status,
    assign, confirm and check-in handlers edit fixed paths and save; the PUT
    is the shared blacklist copy. Every lookup tries `appointmentId` first,
    then `_id`, and any error answers 500. */
module AppointmentRoutes {
  import opened Wrappers
  import opened Text
  import opened Json
  import opened Schema
  import opened Store
  import opened Records
  import opened Listing
  import Ids
  import Handlers

  // ---------------------------------------------------------------------
  // POST /
  // ---------------------------------------------------------------------

  /** The identifier the count of stored appointments gives. */
  function NextId(s: Snapshot, year: nat): string
  {
    Ids.CountId("APP-AP-", year, |s.docs|)
  }

  /** `new Appointment({...body, appointmentId})` */
  function NewAppointment(body: Fields, appointmentId: string): Doc
  {
    Construct(Appointment, body["appointmentId" := Str(appointmentId)])
  }

  function Create(s: Snapshot, body: Fields, now: int, year: nat, oid: ObjectId): (Snapshot, Response)
  {
    CreateStep(s, oid, NewAppointment(body, NextId(s, year)), now, 500)
  }

  method CreateOn(c: Collection, body: Fields, now: int, year: nat, oid: ObjectId) returns (r: Response)
    modifies c
    ensures c.State() == Create(old(c.State()), body, now, year, oid).0
    ensures r == Create(old(c.State()), body, now, year, oid).1
  {
    var appointmentId := Ids.CountId("APP-AP-", year, |c.docs|);
    var rec := new Record(Construct(Appointment, body["appointmentId" := Str(appointmentId)]));
    r := Handlers.Create(c, oid, rec.fields, now, 500);
  }

  /** The generated identifier wins over the body's; every other defined
      body value but the action items is kept; the defaults fill the rest
      (status REQUESTED, category GENERAL_MEETING, not a VIP). */
  lemma NewAppointmentShape(body: Fields, appointmentId: string)
    ensures var d := NewAppointment(body, appointmentId);
      && Get(d, "appointmentId") == Str(appointmentId)
      && Get(d, "status") == (if Get(body, "status") == Undefined then Str("REQUESTED") else Get(body, "status"))
      && Get(d, "isVIP") == (if Get(body, "isVIP") == Undefined then Bool(false) else Get(body, "isVIP"))
  {
    var g := body["appointmentId" := Str(appointmentId)];
    ConstructedKey(g, "appointmentId");
    ConstructedKey(g, "status");
    ConstructedKey(g, "isVIP");
  }

  lemma ConstructedKey(g: Fields, k: string)
    requires k in {"appointmentId", "status", "isVIP"}
    ensures Get(Construct(Appointment, g), k) ==
      if Get(g, k) != Undefined then Get(g, k)
      else if k == "status" then Str("REQUESTED")
      else if k == "isVIP" then Bool(false)
      else Undefined
  {
    var tops := TopDefaults(Appointment);
    assert "appointmentId" !in tops && tops["status"] == Str("REQUESTED") && tops["isVIP"] == Bool(false);
    assert k !in NestedDefaults(Appointment) && k !in ElementDefaults(Appointment);
    ConstructTopLevel(Appointment, g, k);
  }

  lemma NewAppointmentKeepsBody(body: Fields, appointmentId: string, k: string)
    requires k != "appointmentId" && k != "actionItems" && Get(body, k) != Undefined
    ensures Get(NewAppointment(body, appointmentId), k) == Get(body, k)
  {
    ConstructTopLevel(Appointment, body["appointmentId" := Str(appointmentId)], k);
  }

  lemma CreateKeepsInv(s: Snapshot, body: Fields, now: int, year: nat, oid: ObjectId)
    requires Inv(s)
    ensures Inv(Create(s, body, now, year, oid).0)
  {
    InsertKeepsInv(s, oid, NewAppointment(body, NextId(s, year)), now);
  }

  lemma NotHex(s: Snapshot, year: nat)
    ensures !IsHex24(NextId(s, year))
  {
    assert NextId(s, year)[1] == 'P';
  }

  /** A created appointment is stored under `oid` and can then be fetched
      by its generated identifier. */
  lemma CreatedIsFindable(s: Snapshot, body: Fields, now: int, year: nat, oid: ObjectId)
    requires Inv(s) && HumanIdField(s.kind) == "appointmentId"
    ensures var (t, r) := Create(s, body, now, year, oid);
      r.Created? ==>
        && oid in t.docs && t.order == s.order + [oid]
        && Handlers.Show(t, NextId(s, year), HumanThenId, 500) == Ok(Obj(t.docs[oid]))
  {
    NotHex(s, year);
    NewAppointmentShape(body, NextId(s, year));
    Handlers.CreatedIsShown(s, oid, NewAppointment(body, NextId(s, year)), now, NextId(s, year), HumanThenId, 500);
  }

  /** The identifier comes from a count, so once a record has been deleted
      the next one can repeat an identifier still in use: the unique index
      then rejects the create, which answers 500 and stores nothing. */
  lemma CountedIdCollides(s: Snapshot, body: Fields, now: int, year: nat, oid: ObjectId, o: ObjectId)
    requires HumanIdField(s.kind) == "appointmentId"
    requires o in s.docs && o != oid && HumanId(s, o) == Str(NextId(s, year))
    ensures Create(s, body, now, year, oid) == (s, Failed(500))
  {
    NewAppointmentShape(body, NextId(s, year));
    TakenIdRefused(s, oid, NewAppointment(body, NextId(s, year)), now, 500, o);
  }

  // ---------------------------------------------------------------------
  // PATCH /:id/status
  // ---------------------------------------------------------------------

  /** The history entry of a status patch: the caller names `changedBy`
      and `notes` in the body. */
  function StatusEntry(body: Fields, now: int): Value
  {
    HistoryEntry(Get(body, "status"), Get(body, "changedBy"), now, "notes", Get(body, "notes"))
  }

  /** Set the status (unconditionally), then log it. */
  function StatusLogged(doc: Doc, body: Fields, now: int): Doc
  {
    Push(Put(doc, "status", Get(body, "status")), "statusHistory", StatusEntry(body, now))
  }

  method LogStatus(rec: Record, body: Fields, now: int)
    modifies rec
    ensures rec.fields == StatusLogged(old(rec.fields), body, now)
  {
    rec.Set("status", Get(body, "status"));
    rec.Append("statusHistory", StatusEntry(body, now));
  }

  function SetStatus(s: Snapshot, id: string, body: Fields, now: int): (Snapshot, Response)
  {
    Handlers.Patch(s, id, HumanThenId, d => StatusLogged(d, body, now), 500)
  }

  method SetStatusOn(c: Collection, id: string, body: Fields, now: int) returns (r: Response)
    modifies c
    ensures c.State() == SetStatus(old(c.State()), id, body, now).0
    ensures r == SetStatus(old(c.State()), id, body, now).1
  {
    var look := LookupBy(c.State(), id, HumanThenId);
    if !look.Found? {
      return Handlers.Refusal(look, 500);
    }
    var rec := new Record(c.docs[look.oid]);
    LogStatus(rec, body, now);
    r := Handlers.Save(c, look.oid, rec.fields, Full, 500, Obj(rec.fields));
  }

  /** Every status patch logs one entry, whether or not the status
      changed, and touches nothing else. */
  lemma StatusLoggedShape(doc: Doc, body: Fields, now: int)
    ensures var r := StatusLogged(doc, body, now);
      && Get(r, "status") == Get(body, "status")
      && Entries(Get(r, "statusHistory")) == Entries(Get(doc, "statusHistory")) + [StatusEntry(body, now)]
      && forall k :: k != "status" && k != "statusHistory" ==> Get(r, k) == Get(doc, k)
  {
  }

  lemma SetStatusKeepsInv(s: Snapshot, id: string, body: Fields, now: int)
    requires Inv(s)
    ensures Inv(SetStatus(s, id, body, now).0)
  {
    Handlers.PatchKeepsInv(s, id, HumanThenId, d => StatusLogged(d, body, now), 500);
  }

  /** The status is required on appointments: a patch without one (or with
      null or "") is rejected by the save and changes nothing. */
  lemma StatusRequired(s: Snapshot, id: string, body: Fields, now: int)
    requires s.kind == Appointment && !Present(Get(body, "status"))
    ensures SetStatus(s, id, body, now).0 == s && !SetStatus(s, id, body, now).1.Ok?
  {
    var look := LookupBy(s, id, HumanThenId);
    Handlers.PatchOutcome(s, id, HumanThenId, d => StatusLogged(d, body, now), 500);
    if look.Found? {
      StatusLoggedShape(s.docs[look.oid], body, now);
      UnsetStatusFails(StatusLogged(s.docs[look.oid], body, now));
    }
  }

  lemma UnsetStatusFails(d: Doc)
    requires !Present(Get(d, "status"))
    ensures !Conforms(Appointment, d)
  {
    assert Rules(Appointment)[4] == Required("status", []);
  }

  // ---------------------------------------------------------------------
  // PATCH /:id/assign
  // ---------------------------------------------------------------------

  /** A truthy `assignedTo` is set with the assignment date; a truthy
      `coordinator` is set. */
  function Assigned(doc: Doc, body: Fields, now: int): Doc
  {
    var assignee := Get(body, "assignedTo");
    var coordinator := Get(body, "coordinator");
    var d := if Truthy(assignee) then Put(Put(doc, "assignedTo", assignee), "assignedDate", Num(now as real)) else doc;
    if Truthy(coordinator) then Put(d, "coordinator", coordinator) else d
  }

  method Assign(rec: Record, body: Fields, now: int)
    modifies rec
    ensures rec.fields == Assigned(old(rec.fields), body, now)
  {
    if Truthy(Get(body, "assignedTo")) {
      rec.Set("assignedTo", Get(body, "assignedTo"));
      rec.Set("assignedDate", Num(now as real));
    }
    if Truthy(Get(body, "coordinator")) {
      rec.Set("coordinator", Get(body, "coordinator"));
    }
  }

  function AssignTo(s: Snapshot, id: string, body: Fields, now: int): (Snapshot, Response)
  {
    Handlers.Patch(s, id, HumanThenId, d => Assigned(d, body, now), 500)
  }

  method AssignToOn(c: Collection, id: string, body: Fields, now: int) returns (r: Response)
    modifies c
    ensures c.State() == AssignTo(old(c.State()), id, body, now).0
    ensures r == AssignTo(old(c.State()), id, body, now).1
  {
    var look := LookupBy(c.State(), id, HumanThenId);
    if !look.Found? {
      return Handlers.Refusal(look, 500);
    }
    var rec := new Record(c.docs[look.oid]);
    Assign(rec, body, now);
    r := Handlers.Save(c, look.oid, rec.fields, Full, 500, Obj(rec.fields));
  }

  /** Falsy values leave the assignment as it was; the assignment date
      moves exactly when a new assignee is given. */
  lemma AssignedShape(doc: Doc, body: Fields, now: int)
    ensures var r := Assigned(doc, body, now);
      && Get(r, "assignedTo") == Or(Get(body, "assignedTo"), Get(doc, "assignedTo"))
      && Get(r, "coordinator") == Or(Get(body, "coordinator"), Get(doc, "coordinator"))
      && Get(r, "assignedDate") ==
           (if Truthy(Get(body, "assignedTo")) then Num(now as real) else Get(doc, "assignedDate"))
      && forall k :: k !in {"assignedTo", "assignedDate", "coordinator"} ==> Get(r, k) == Get(doc, k)
  {
  }

  lemma AssignToKeepsInv(s: Snapshot, id: string, body: Fields, now: int)
    requires Inv(s)
    ensures Inv(AssignTo(s, id, body, now).0)
  {
    Handlers.PatchKeepsInv(s, id, HumanThenId, d => Assigned(d, body, now), 500);
  }

  // ---------------------------------------------------------------------
  // PATCH /:id/confirm
  // ---------------------------------------------------------------------

  const HourMillis := 60 * 60 * 1000
  const MinuteMillis := 60 * 1000

  /** The text before the first `c` (all of `s` when there is none). */
  function UpTo(s: string, c: char): (r: string)
    ensures c !in r && r <= s
  {
    if s == [] || s[0] == c then [] else [s[0]] + UpTo(s[1..], c)
  }

  /** The text after the first `c`, if there is one. */
  function After(s: string, c: char): (r: Option<string>)
    ensures r.Some? ==> |r.value| < |s|
  {
    if s == [] then None else if s[0] == c then Some(s[1..]) else After(s[1..], c)
  }

  lemma {:induction false} SplitAtFirst(a: string, c: char, b: string)
    requires c !in a
    ensures UpTo(a + [c] + b, c) == a && After(a + [c] + b, c) == Some(b)
  {
    if a != [] {
      assert (a + [c] + b)[1..] == a[1..] + [c] + b;
      SplitAtFirst(a[1..], c, b);
    } else {
      assert a + [c] + b == [c] + b;
    }
  }

  /** `const [hours, minutes] = time.split(":")`, then the slot date's
      hours and minutes set to them. `when` is `new Date(confirmedDate)` as
      milliseconds, `None` for an invalid date. A time that is not a
      string throws; an invalid date or a NaN part gives an invalid slot,
      which the save rejects. */
  function Slot(when: Option<int>, time: Value): Result<Value, Fault>
  {
    if !time.Str? then Failure(TypeError)
    else
      var hours := ParseInt(UpTo(time.s, ':'));
      var rest := After(time.s, ':');
      var minutes := if rest.Some? then ParseInt(UpTo(rest.value, ':')) else None;
      if when.None? || hours.None? || minutes.None? then Failure(CastError)
      else
        var t := when.value;
        Success(Num((t - t % DayMillis + hours.value * HourMillis + minutes.value * MinuteMillis) as real))
  }

  /** `"<h>:<m>"` on a date puts the slot `h` hours and `m` minutes after
      the start of that date's day. */
  lemma SlotOfClock(t: int, h: nat, m: nat)
    ensures Slot(Some(t), Str(NatToString(h) + ":" + NatToString(m)))
         == Success(Num((t - t % DayMillis + h * HourMillis + m * MinuteMillis) as real))
  {
    ClockParts(NatToString(h), NatToString(m));
    Parsed(h);
    Parsed(m);
    SlotOfParts(t, NatToString(h) + ":" + NatToString(m), h, m);
  }

  lemma SlotOfParts(t: int, time: string, h: int, m: int)
    requires ParseInt(UpTo(time, ':')) == Some(h)
    requires After(time, ':').Some? && ParseInt(UpTo(After(time, ':').value, ':')) == Some(m)
    ensures Slot(Some(t), Str(time)) == Success(Num((t - t % DayMillis + h * HourMillis + m * MinuteMillis) as real))
  {
  }

  lemma ClockParts(hs: string, ms: string)
    requires AllDigits(hs) && AllDigits(ms)
    ensures UpTo(hs + ":" + ms, ':') == hs
    ensures After(hs + ":" + ms, ':') == Some(ms)
    ensures UpTo(ms, ':') == ms
  {
    NoColon(hs);
    NoColon(ms);
    assert hs + ":" + ms == hs + [':'] + ms;
    SplitAtFirst(hs, ':', ms);
    UpToAbsent(ms, ':');
  }

  lemma NoColon(s: string)
    requires AllDigits(s)
    ensures ':' !in s
  {
    assert forall i :: 0 <= i < |s| ==> s[i] != ':';
  }

  lemma {:induction false} UpToAbsent(s: string, c: char)
    requires c !in s
    ensures UpTo(s, c) == s
  {
    if s != [] {
      UpToAbsent(s[1..], c);
    }
  }

  lemma Parsed(n: nat)
    ensures ParseInt(NatToString(n)) == Some(n)
  {
    ParseDigitRun(NatToString(n));
    NatToStringRoundTrip(n);
  }

  /** The four body paths set as given (`undefined` unsets them). */
  function Arranged(doc: Doc, body: Fields): Doc
  {
    var d := Put(Put(doc, "confirmedDate", Get(body, "confirmedDate")), "confirmedTime", Get(body, "confirmedTime"));
    Put(Put(d, "meetingPlace", Get(body, "meetingPlace")), "specificLocation", Get(body, "specificLocation"))
  }

  /** Status CONFIRMED with the confirmation flag and date. */
  function Notified(doc: Doc, now: int): Doc
  {
    Put(Put(Put(doc, "status", Str("CONFIRMED")), "confirmationSent", Bool(true)), "confirmationSentDate", Num(now as real))
  }

  /** The arrangement and the confirmation; then the slot when both the
      date and the time are truthy. */
  function Confirmed(doc: Doc, body: Fields, when: Option<int>, now: int): Result<Doc, Fault>
  {
    var d := Notified(Arranged(doc, body), now);
    if Truthy(Get(body, "confirmedDate")) && Truthy(Get(body, "confirmedTime")) then
      match Slot(when, Get(body, "confirmedTime"))
      case Failure(e) => Failure(e)
      case Success(slot) => Success(Put(d, "confirmedSlot", slot))
    else Success(d)
  }

  method Confirming(doc: Doc, body: Fields, when: Option<int>, now: int) returns (r: Result<Doc, Fault>)
    ensures r == Confirmed(doc, body, when, now)
  {
    var rec := new Record(doc);
    rec.Set("confirmedDate", Get(body, "confirmedDate"));
    rec.Set("confirmedTime", Get(body, "confirmedTime"));
    rec.Set("meetingPlace", Get(body, "meetingPlace"));
    rec.Set("specificLocation", Get(body, "specificLocation"));
    assert rec.fields == Arranged(doc, body);
    rec.Set("status", Str("CONFIRMED"));
    rec.Set("confirmationSent", Bool(true));
    rec.Set("confirmationSentDate", Num(now as real));
    assert rec.fields == Notified(Arranged(doc, body), now);
    if Truthy(Get(body, "confirmedDate")) && Truthy(Get(body, "confirmedTime")) {
      var slot := Slot(when, Get(body, "confirmedTime"));
      if slot.Failure? {
        return Failure(slot.error);
      }
      rec.Set("confirmedSlot", slot.value);
    }
    r := Success(rec.fields);
  }

  function Confirm(s: Snapshot, id: string, body: Fields, when: Option<int>, now: int): (Snapshot, Response)
  {
    var look := LookupBy(s, id, HumanThenId);
    if !look.Found? then (s, Handlers.Refusal(look, 500))
    else
      match Confirmed(s.docs[look.oid], body, when, now)
      case Failure(_) => (s, Failed(500))
      case Success(d) => SaveStep(s, look.oid, d, Full, 500, Obj(d))
  }

  method ConfirmOn(c: Collection, id: string, body: Fields, when: Option<int>, now: int) returns (r: Response)
    modifies c
    ensures c.State() == Confirm(old(c.State()), id, body, when, now).0
    ensures r == Confirm(old(c.State()), id, body, when, now).1
  {
    var look := LookupBy(c.State(), id, HumanThenId);
    if !look.Found? {
      return Handlers.Refusal(look, 500);
    }
    var edited := Confirming(c.docs[look.oid], body, when, now);
    if edited.Failure? {
      return Failed(500);
    }
    r := Handlers.Save(c, look.oid, edited.value, Full, 500, Obj(edited.value));
  }

  lemma ArrangedShape(doc: Doc, body: Fields)
    ensures var r := Arranged(doc, body);
      && Get(r, "confirmedDate") == Get(body, "confirmedDate")
      && Get(r, "confirmedTime") == Get(body, "confirmedTime")
      && Get(r, "meetingPlace") == Get(body, "meetingPlace")
      && Get(r, "specificLocation") == Get(body, "specificLocation")
      && Get(r, "confirmedSlot") == Get(doc, "confirmedSlot")
  {
  }

  lemma NotifiedShape(doc: Doc, now: int)
    ensures var r := Notified(doc, now);
      && Get(r, "status") == Str("CONFIRMED")
      && Get(r, "confirmationSent") == Bool(true)
      && Get(r, "confirmationSentDate") == Num(now as real)
      && forall k :: k !in {"status", "confirmationSent", "confirmationSentDate"} ==> Get(r, k) == Get(doc, k)
  {
  }

  /** A confirmation fails only for a truthy date and time that make no
      slot; otherwise the record is CONFIRMED with the flag and date set,
      the four paths as the body gives them, and the slot set exactly when
      both the date and the time are truthy. */
  lemma ConfirmedShape(doc: Doc, body: Fields, when: Option<int>, now: int)
    ensures var r := Confirmed(doc, body, when, now);
      var both := Truthy(Get(body, "confirmedDate")) && Truthy(Get(body, "confirmedTime"));
      var slot := Slot(when, Get(body, "confirmedTime"));
      && (r.Failure? <==> both && slot.Failure?)
      && (r.Success? ==>
            && Get(r.value, "status") == Str("CONFIRMED")
            && Get(r.value, "confirmationSent") == Bool(true)
            && Get(r.value, "confirmationSentDate") == Num(now as real)
            && Get(r.value, "confirmedDate") == Get(body, "confirmedDate")
            && Get(r.value, "confirmedTime") == Get(body, "confirmedTime")
            && Get(r.value, "meetingPlace") == Get(body, "meetingPlace")
            && Get(r.value, "specificLocation") == Get(body, "specificLocation")
            && Get(r.value, "confirmedSlot") == (if both then slot.value else Get(doc, "confirmedSlot")))
  {
    ArrangedShape(doc, body);
    NotifiedShape(Arranged(doc, body), now);
  }

  lemma ConfirmKeepsInv(s: Snapshot, id: string, body: Fields, when: Option<int>, now: int)
    requires Inv(s)
    ensures Inv(Confirm(s, id, body, when, now).0)
  {
    var look := LookupBy(s, id, HumanThenId);
    if look.Found? {
      var r := Confirmed(s.docs[look.oid], body, when, now);
      if r.Success? {
        Handlers.SaveKeepsInv(s, look.oid, r.value, 500, Obj(r.value));
      }
    }
  }

  // ---------------------------------------------------------------------
  // PATCH /:id/checkin
  // ---------------------------------------------------------------------

  function CheckedIn(doc: Doc, now: int): Doc
  {
    Put(Put(doc, "checkInTime", Num(now as real)), "status", Str("CHECKED_IN"))
  }

  function CheckIn(s: Snapshot, id: string, now: int): (Snapshot, Response)
  {
    Handlers.Patch(s, id, HumanThenId, d => CheckedIn(d, now), 500)
  }

  method CheckInOn(c: Collection, id: string, now: int) returns (r: Response)
    modifies c
    ensures c.State() == CheckIn(old(c.State()), id, now).0
    ensures r == CheckIn(old(c.State()), id, now).1
  {
    var look := LookupBy(c.State(), id, HumanThenId);
    if !look.Found? {
      return Handlers.Refusal(look, 500);
    }
    var rec := new Record(c.docs[look.oid]);
    rec.Set("checkInTime", Num(now as real));
    rec.Set("status", Str("CHECKED_IN"));
    r := Handlers.Save(c, look.oid, rec.fields, Full, 500, Obj(rec.fields));
  }

  /** A successful check-in stores the record CHECKED_IN at `now` with
      every other path as it was, whatever its earlier status. */
  lemma CheckInStamps(s: Snapshot, id: string, now: int)
    ensures var (t, r) := CheckIn(s, id, now);
      var look := LookupBy(s, id, HumanThenId);
      r.Ok? ==>
        && look.Found? && look.oid in t.docs
        && Get(t.docs[look.oid], "status") == Str("CHECKED_IN")
        && Get(t.docs[look.oid], "checkInTime") == Num(now as real)
        && forall k :: k != "status" && k != "checkInTime" ==> Get(t.docs[look.oid], k) == Get(s.docs[look.oid], k)
  {
    Handlers.PatchOutcome(s, id, HumanThenId, d => CheckedIn(d, now), 500);
  }

  lemma CheckInKeepsInv(s: Snapshot, id: string, now: int)
    requires Inv(s)
    ensures Inv(CheckIn(s, id, now).0)
  {
    Handlers.PatchKeepsInv(s, id, HumanThenId, d => CheckedIn(d, now), 500);
  }

  // ---------------------------------------------------------------------
  // POST /:id/comments
  // ---------------------------------------------------------------------

  /** `{user, text, createdAt}`: the body names the commenting user. */
  function Remark(body: Fields, now: int): Value
  {
    CommentEntry("user", Get(body, "user"), Get(body, "text"), now)
  }

  function Comment(s: Snapshot, id: string, body: Fields, now: int): (Snapshot, Response)
  {
    Handlers.Append(s, id, HumanThenId, "comments", Remark(body, now), 500, Handlers.WholeRecord)
  }

  // ---------------------------------------------------------------------
  // GET / and GET /stats/overview
  // ---------------------------------------------------------------------

  const ListKeys := ["status", "category", "meetingPlace", "district", "assignedTo", "priority"]

  /** The query's truthy keys, `isVIP: true` when the parameter is the
      text "true", and the day of `confirmedDate` when given. */
  function ListFilter(query: Fields, day: Option<int>): seq<Cond>
  {
    FilterOf(query, ListKeys)
    + (if Get(query, "isVIP") == Str("true") then [Equal(["isVIP"], Bool(true))] else [])
    + (if day.Some? then DayOf("confirmedDate", day.value) else [])
  }

  function ListAppointments(s: Snapshot, query: Fields, day: Option<int>, page: int, limit: int): ListReply
  {
    List(s, ListFilter(query, day), page, limit)
  }

  /** An appointment is listed exactly when it agrees with every truthy
      parameter, is a VIP one when `isVIP=true` is asked, and is confirmed
      for the given day. */
  lemma ListFilterMeans(d: Doc, query: Fields, day: Option<int>)
    ensures Matches(d, ListFilter(query, day)) <==>
      && (forall i :: 0 <= i < |ListKeys| ==> Agrees(d, query, ListKeys[i]))
      && (Get(query, "isVIP") == Str("true") ==> Get(d, "isVIP") == Bool(true))
      && (day.Some? ==>
            && Get(d, "confirmedDate").Num?
            && day.value as real <= Get(d, "confirmedDate").n < (day.value + DayMillis) as real)
  {
    var keys := FilterOf(query, ListKeys);
    var vip := if Get(query, "isVIP") == Str("true") then [Equal(["isVIP"], Bool(true))] else [];
    var days := if day.Some? then DayOf("confirmedDate", day.value) else [];
    AppendMatches(d, keys + vip, days);
    AppendMatches(d, keys, vip);
    FilterOfMatches(d, query, ListKeys);
    if vip != [] {
      PathOfOne(d, "isVIP");
      assert Matches(d, vip) <==> Holds(d, vip[0]);
    }
    if day.Some? {
      DayOfMatches(d, "confirmedDate", day.value);
    }
  }

  datatype AppointmentStats = AppointmentStats(
    total: nat, confirmed: nat, completed: nat, pending: nat, today: nat,
    byStatus: map<Value, nat>, byCategory: map<Value, nat>)

  /** `today` is the start of the current day. */
  function Stats(s: Snapshot, today: int): AppointmentStats
  {
    var all := Selected(s, []);
    AppointmentStats(
      Count(s, []),
      Count(s, [Equal(["status"], Str("CONFIRMED"))]),
      Count(s, [Equal(["status"], Str("COMPLETED"))]),
      Count(s, [In(["status"], [Str("REQUESTED"), Str("UNDER_REVIEW")])]),
      Count(s, DayOf("confirmedDate", today)),
      Tally(all, "status"), Tally(all, "category"))
  }

  /** Pending is REQUESTED plus UNDER_REVIEW, every figure is at most the
      total, and each status group counts the records with that status. */
  lemma StatsAddUp(s: Snapshot, today: int)
    ensures var r := Stats(s, today);
      && r.pending == Count(s, [Equal(["status"], Str("REQUESTED"))]) + Count(s, [Equal(["status"], Str("UNDER_REVIEW"))])
      && r.confirmed <= r.total && r.completed <= r.total && r.pending <= r.total
      && (if Str("CONFIRMED") in r.byStatus then r.byStatus[Str("CONFIRMED")] else 0) == r.confirmed
  {
    var none: seq<Cond> := [];
    CountInTwo(s.order, Stamped(s), none, ["status"], Str("REQUESTED"), Str("UNDER_REVIEW"));
    NarrowerCountsLess(s.order, Stamped(s), none, Equal(["status"], Str("CONFIRMED")));
    NarrowerCountsLess(s.order, Stamped(s), none, Equal(["status"], Str("COMPLETED")));
    NarrowerCountsLess(s.order, Stamped(s), none, In(["status"], [Str("REQUESTED"), Str("UNDER_REVIEW")]));
    TallyCounts(s.order, Stamped(s), none, "status", Str("CONFIRMED"));
    assert none + [Equal(["status"], Str("REQUESTED"))] == [Equal(["status"], Str("REQUESTED"))];
    assert none + [Equal(["status"], Str("UNDER_REVIEW"))] == [Equal(["status"], Str("UNDER_REVIEW"))];
    assert none + [Equal(["status"], Str("CONFIRMED"))] == [Equal(["status"], Str("CONFIRMED"))];
    assert none + [Equal(["status"], Str("COMPLETED"))] == [Equal(["status"], Str("COMPLETED"))];
    assert none + [In(["status"], [Str("REQUESTED"), Str("UNDER_REVIEW")])]
        == [In(["status"], [Str("REQUESTED"), Str("UNDER_REVIEW")])];
  }
}
