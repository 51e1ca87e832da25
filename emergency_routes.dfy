/** The emergency router. Records are found by `_id` alone. A new record is
    the body as given; the pre-save hook numbers it when it carries no
    `emergencyId`. Every other write is a `findByIdAndUpdate` of a small
    update object: the PUT runs the validators on the paths it sets, the
    assign, status and escalate patches run none. The writes answer 400 on
    any error (a malformed id included), the reads and the delete 500. */
module EmergencyRoutes {
  import opened Wrappers
  import opened Text
  import opened Json
  import opened Schema
  import opened Store
  import opened Records
  import opened Listing
  import Ids
  import Models
  import Handlers

  // ---------------------------------------------------------------------
  // POST /
  // ---------------------------------------------------------------------

  /** `new Emergency(req.body)`, then the pre-save hook with `count`
      records stored. */
  function NewEmergency(body: Fields, count: nat, now: int): Doc
  {
    Models.WithEmergencyId(Construct(Emergency, body), count, now)
  }

  function Create(s: Snapshot, body: Fields, now: int, oid: ObjectId): (Snapshot, Response)
  {
    CreateStep(s, oid, NewEmergency(body, |s.docs|, now), now, 400)
  }

  method CreateOn(c: Collection, body: Fields, now: int, oid: ObjectId) returns (r: Response)
    modifies c
    ensures c.State() == Create(old(c.State()), body, now, oid).0
    ensures r == Create(old(c.State()), body, now, oid).1
  {
    var rec := new Record(Construct(Emergency, body));
    Models.PreSave(rec, |c.docs|, now);
    r := Handlers.Create(c, oid, rec.fields, now, 400);
  }

  /** A truthy `emergencyId` in the body is kept, otherwise the hook's
      `EMR-<now>-<count + 1>` is set; the defaults fill status LOGGED,
      urgency and priority HIGH, not escalated. */
  lemma NewEmergencyShape(body: Fields, count: nat, now: int)
    ensures var d := NewEmergency(body, count, now);
      && Get(d, "emergencyId") ==
           (if Truthy(Get(body, "emergencyId")) then Get(body, "emergencyId") else Str(Ids.EmergencyId(now, count)))
      && Get(d, "status") == (if Get(body, "status") == Undefined then Str("LOGGED") else Get(body, "status"))
      && Get(d, "escalated") == (if Get(body, "escalated") == Undefined then Bool(false) else Get(body, "escalated"))
  {
    ConstructTopLevel(Emergency, body, "emergencyId");
    ConstructTopLevel(Emergency, body, "status");
    ConstructTopLevel(Emergency, body, "escalated");
  }

  lemma CreateKeepsInv(s: Snapshot, body: Fields, now: int, oid: ObjectId)
    requires Inv(s)
    ensures Inv(Create(s, body, now, oid).0)
  {
    InsertKeepsInv(s, oid, NewEmergency(body, |s.docs|, now), now);
  }

  /** A created record is then found by its `_id`. */
  lemma CreatedIsFoundById(s: Snapshot, body: Fields, now: int, oid: ObjectId)
    ensures var (t, r) := Create(s, body, now, oid);
      r.Created? ==> oid in t.docs && Show(t, oid) == Ok(Obj(t.docs[oid]))
  {
    StoredIsFoundById(s, NewEmergency(body, |s.docs|, now), now, oid);
  }

  lemma StoredIsFoundById(s: Snapshot, d: Doc, now: int, oid: ObjectId)
    ensures var (t, r) := CreateStep(s, oid, d, now, 400);
      r.Created? ==> oid in t.docs && Show(t, oid) == Ok(Obj(t.docs[oid]))
  {
    SurrogateCast(oid);
  }

  // ---------------------------------------------------------------------
  // GET /:id and DELETE /:id
  // ---------------------------------------------------------------------

  function Show(s: Snapshot, id: string): Response
  {
    Handlers.Show(s, id, IdOnly, 500)
  }

  function Delete(s: Snapshot, id: string): (Snapshot, Response)
  {
    Handlers.Delete(s, id, IdOnly, 500)
  }

  // ---------------------------------------------------------------------
  // findByIdAndUpdate
  // ---------------------------------------------------------------------

  /** `findByIdAndUpdate(id, update, {new: true})` */
  function UpdateById(s: Snapshot, id: string, update: Fields, check: Check, errCode: nat): (Snapshot, Response)
  {
    Handlers.FindAndUpdate(s, id, IdOnly, update, check, errCode)
  }

  /** A write that keeps the `_id` and the `emergencyId` of a stored
      record cannot clash with the unique indexes. */
  lemma KeptIdsCannotClash(s: Snapshot, oid: ObjectId, d: Doc)
    requires Inv(s) && s.kind == Emergency && oid in s.docs
    requires Get(d, "emergencyId") == Get(s.docs[oid], "emergencyId")
    ensures !Clash(s, oid, d)
  {
    forall o | o in s.docs && o != oid
      ensures IndexKey(Get(s.docs[o], HumanIdField(s.kind))) != IndexKey(Get(d, HumanIdField(s.kind)))
    {
      assert IndexKey(HumanId(s, o)) != IndexKey(HumanId(s, oid));
    }
  }

  /** Without validators, an update that sets neither `_id` nor
      `emergencyId` succeeds on every record found by its `_id`. */
  lemma UncheckedUpdateSucceeds(s: Snapshot, id: string, update: Fields, errCode: nat)
    requires Inv(s) && s.kind == Emergency && LookupBy(s, id, IdOnly).Found?
    requires Get(update, "_id") == Undefined && Get(update, "emergencyId") == Undefined
    ensures var (t, r) := UpdateById(s, id, update, Unchecked, errCode);
      var oid := LookupBy(s, id, IdOnly).oid;
      && r.Ok? && oid in t.docs
      && forall k :: Get(update, k) != Undefined ==> Get(t.docs[oid], k) == Get(update, k)
  {
    var oid := LookupBy(s, id, IdOnly).oid;
    var d := Handlers.Applied(s.docs[oid], update);
    assert Get(d, "emergencyId") == Get(s.docs[oid], "emergencyId");
    assert Get(d, "_id") == Get(s.docs[oid], "_id");
    KeptIdsCannotClash(s, oid, d);
    Handlers.FindAndUpdateOutcome(s, id, IdOnly, update, Unchecked, errCode);
  }

  // ---------------------------------------------------------------------
  // PUT /:id
  // ---------------------------------------------------------------------

  /** The body as the update, with the validators of the paths it sets. */
  function Update(s: Snapshot, id: string, body: Fields): (Snapshot, Response)
  {
    UpdateById(s, id, body, OnKeys(Defined(body).Keys), 400)
  }

  /** The PUT validates what it sets: an unknown status is refused with
      400 and changes nothing. */
  lemma UpdateValidatesStatus(s: Snapshot, id: string, body: Fields)
    requires s.kind == Emergency
    requires Get(body, "status").Str? && Get(body, "status").s !in StatusValues(Emergency)
    ensures Update(s, id, body) == (s, if LookupBy(s, id, IdOnly).Found? then Failed(400) else Update(s, id, body).1)
  {
    var look := LookupBy(s, id, IdOnly);
    if look.Found? {
      var d := Handlers.Applied(s.docs[look.oid], body);
      assert Get(d, "status") == Get(body, "status");
      assert "status" in Defined(body).Keys;
      UnknownStatusRefused(Emergency, d, Defined(body).Keys);
    }
  }

  // ---------------------------------------------------------------------
  // PATCH /:id/assign, /:id/status and /:id/escalate
  // ---------------------------------------------------------------------

  /** `{assignedTo, priority, status: "DISPATCHED"}` */
  function AssignUpdate(body: Fields): Fields
  {
    map["assignedTo" := Get(body, "assignedTo"), "priority" := Get(body, "priority"), "status" := Str("DISPATCHED")]
  }

  function Assign(s: Snapshot, id: string, body: Fields): (Snapshot, Response)
  {
    UpdateById(s, id, AssignUpdate(body), Unchecked, 400)
  }

  /** The status, the action taken when given; on RESOLVED or CLOSED also
      the resolution time, the closure notes when given, and the closer
      with the closing time when given. */
  function StatusUpdate(body: Fields, now: int): Fields
  {
    var status := Get(body, "status");
    var u := map["status" := status];
    var u := if Truthy(Get(body, "actionTaken")) then u["actionTaken" := Get(body, "actionTaken")] else u;
    if status != Str("RESOLVED") && status != Str("CLOSED") then u
    else
      var u := u["resolutionTime" := Num(now as real)];
      var u := if Truthy(Get(body, "closureNotes")) then u["closureNotes" := Get(body, "closureNotes")] else u;
      if Truthy(Get(body, "closedBy")) then u["closedBy" := Get(body, "closedBy")]["closedAt" := Num(now as real)]
      else u
  }

  function SetStatus(s: Snapshot, id: string, body: Fields, now: int): (Snapshot, Response)
  {
    UpdateById(s, id, StatusUpdate(body, now), Unchecked, 400)
  }

  /** Only a closing status stamps the resolution time; the closing time
      is set exactly when a closing status names who closed it. */
  lemma StatusUpdateShape(body: Fields, now: int)
    ensures var u := StatusUpdate(body, now);
      var closing := Get(body, "status") == Str("RESOLVED") || Get(body, "status") == Str("CLOSED");
      && Get(u, "status") == Get(body, "status")
      && Get(u, "actionTaken") == (if Truthy(Get(body, "actionTaken")) then Get(body, "actionTaken") else Undefined)
      && Get(u, "resolutionTime") == (if closing then Num(now as real) else Undefined)
      && Get(u, "closureNotes") == (if closing && Truthy(Get(body, "closureNotes")) then Get(body, "closureNotes") else Undefined)
      && Get(u, "closedAt") == (if closing && Truthy(Get(body, "closedBy")) then Num(now as real) else Undefined)
      && Get(u, "closedBy") == (if closing && Truthy(Get(body, "closedBy")) then Get(body, "closedBy") else Undefined)
  {
  }

  lemma StatusUpdateKeepsIds(body: Fields, now: int)
    ensures var u := StatusUpdate(body, now);
      Get(u, "_id") == Undefined && Get(u, "emergencyId") == Undefined && Get(u, "status") == Get(body, "status")
  {
  }

  /** The status patch runs no validators: any status string is stored on
      a record found by its `_id`. */
  lemma StatusIsNotValidated(s: Snapshot, id: string, body: Fields, now: int)
    requires Inv(s) && s.kind == Emergency && LookupBy(s, id, IdOnly).Found?
    requires Get(body, "status").Str?
    ensures var (t, r) := SetStatus(s, id, body, now);
      var oid := LookupBy(s, id, IdOnly).oid;
      r.Ok? && oid in t.docs && Get(t.docs[oid], "status") == Get(body, "status")
  {
    StatusUpdateKeepsIds(body, now);
    UncheckedUpdateSucceeds(s, id, StatusUpdate(body, now), 400);
  }

  /** `{escalated: true, escalatedTo, escalationReason, escalationDate,
      priority: "CRITICAL"}` */
  function EscalateUpdate(body: Fields, now: int): Fields
  {
    map["escalated" := Bool(true), "escalatedTo" := Get(body, "escalatedTo"),
        "escalationReason" := Get(body, "escalationReason"), "escalationDate" := Num(now as real),
        "priority" := Str("CRITICAL")]
  }

  function Escalate(s: Snapshot, id: string, body: Fields, now: int): (Snapshot, Response)
  {
    UpdateById(s, id, EscalateUpdate(body, now), Unchecked, 400)
  }

  /** An escalation of a record found by its `_id` always succeeds and
      leaves it escalated, CRITICAL, dated `now`. */
  lemma EscalateStamps(s: Snapshot, id: string, body: Fields, now: int)
    requires Inv(s) && s.kind == Emergency && LookupBy(s, id, IdOnly).Found?
    ensures var (t, r) := Escalate(s, id, body, now);
      var oid := LookupBy(s, id, IdOnly).oid;
      && r.Ok? && oid in t.docs
      && Get(t.docs[oid], "escalated") == Bool(true)
      && Get(t.docs[oid], "priority") == Str("CRITICAL")
      && Get(t.docs[oid], "escalationDate") == Num(now as real)
  {
    EscalateUpdateFields(body, now);
    UncheckedUpdateSucceeds(s, id, EscalateUpdate(body, now), 400);
  }

  lemma EscalateUpdateFields(body: Fields, now: int)
    ensures var u := EscalateUpdate(body, now);
      && Get(u, "_id") == Undefined && Get(u, "emergencyId") == Undefined
      && Get(u, "escalated") == Bool(true) && Get(u, "priority") == Str("CRITICAL")
      && Get(u, "escalationDate") == Num(now as real)
  {
  }

  /** An assignment of a record found by its `_id` always succeeds and
      leaves it DISPATCHED. */
  lemma AssignDispatches(s: Snapshot, id: string, body: Fields)
    requires Inv(s) && s.kind == Emergency && LookupBy(s, id, IdOnly).Found?
    ensures var (t, r) := Assign(s, id, body);
      var oid := LookupBy(s, id, IdOnly).oid;
      r.Ok? && oid in t.docs && Get(t.docs[oid], "status") == Str("DISPATCHED")
  {
    AssignUpdateFields(body);
    UncheckedUpdateSucceeds(s, id, AssignUpdate(body), 400);
  }

  lemma AssignUpdateFields(body: Fields)
    ensures var u := AssignUpdate(body);
      Get(u, "_id") == Undefined && Get(u, "emergencyId") == Undefined && Get(u, "status") == Str("DISPATCHED")
  {
  }

  /** The four update routes keep the invariant: the PUT validates what it
      sets, and emergencies are the one kind the invariant lets go
      unvalidated. */
  lemma WritesKeepInv(s: Snapshot, id: string, body: Fields, now: int)
    requires Inv(s) && s.kind == Emergency
    ensures Inv(Update(s, id, body).0)
    ensures Inv(Assign(s, id, body).0)
    ensures Inv(SetStatus(s, id, body, now).0)
    ensures Inv(Escalate(s, id, body, now).0)
  {
    Handlers.FindAndUpdateKeepsInv(s, id, IdOnly, body, OnKeys(Defined(body).Keys), 400);
    Handlers.FindAndUpdateKeepsInv(s, id, IdOnly, AssignUpdate(body), Unchecked, 400);
    Handlers.FindAndUpdateKeepsInv(s, id, IdOnly, StatusUpdate(body, now), Unchecked, 400);
    Handlers.FindAndUpdateKeepsInv(s, id, IdOnly, EscalateUpdate(body, now), Unchecked, 400);
  }

  method UpdateOn(c: Collection, id: string, body: Fields) returns (r: Response)
    modifies c
    ensures (c.State(), r) == Update(old(c.State()), id, body)
  {
    r := Handlers.FindAndUpdateOn(c, id, IdOnly, body, OnKeys(Defined(body).Keys), 400);
  }

  method AssignOn(c: Collection, id: string, body: Fields) returns (r: Response)
    modifies c
    ensures (c.State(), r) == Assign(old(c.State()), id, body)
  {
    r := Handlers.FindAndUpdateOn(c, id, IdOnly, AssignUpdate(body), Unchecked, 400);
  }

  method SetStatusOn(c: Collection, id: string, body: Fields, now: int) returns (r: Response)
    modifies c
    ensures (c.State(), r) == SetStatus(old(c.State()), id, body, now)
  {
    r := Handlers.FindAndUpdateOn(c, id, IdOnly, StatusUpdate(body, now), Unchecked, 400);
  }

  method EscalateOn(c: Collection, id: string, body: Fields, now: int) returns (r: Response)
    modifies c
    ensures (c.State(), r) == Escalate(old(c.State()), id, body, now)
  {
    r := Handlers.FindAndUpdateOn(c, id, IdOnly, EscalateUpdate(body, now), Unchecked, 400);
  }

  // ---------------------------------------------------------------------
  // GET / and GET /stats/overview
  // ---------------------------------------------------------------------

  const ListKeys := ["status", "emergencyType", "urgency", "assignedTo"]

  function ListEmergencies(s: Snapshot, query: Fields, page: int, limit: int): ListReply
  {
    List(s, FilterOf(query, ListKeys), page, limit)
  }

  datatype EmergencyStats = EmergencyStats(
    byStatus: map<Value, nat>, byType: map<Value, nat>, byUrgency: map<Value, nat>)

  function Stats(s: Snapshot): EmergencyStats
  {
    var all := Selected(s, []);
    EmergencyStats(Tally(all, "status"), Tally(all, "emergencyType"), Tally(all, "urgency"))
  }

  /** Each group counts exactly the records holding that value. */
  lemma GroupsCount(s: Snapshot, g: Value)
    requires g != Undefined
    ensures (if g in Stats(s).byStatus then Stats(s).byStatus[g] else 0) == Count(s, [Equal(["status"], g)])
    ensures (if g in Stats(s).byType then Stats(s).byType[g] else 0) == Count(s, [Equal(["emergencyType"], g)])
    ensures (if g in Stats(s).byUrgency then Stats(s).byUrgency[g] else 0) == Count(s, [Equal(["urgency"], g)])
  {
    var none: seq<Cond> := [];
    TallyCounts(s.order, Stamped(s), none, "status", g);
    TallyCounts(s.order, Stamped(s), none, "emergencyType", g);
    TallyCounts(s.order, Stamped(s), none, "urgency", g);
    assert none + [Equal(["status"], g)] == [Equal(["status"], g)];
    assert none + [Equal(["emergencyType"], g)] == [Equal(["emergencyType"], g)];
    assert none + [Equal(["urgency"], g)] == [Equal(["urgency"], g)];
  }
}
