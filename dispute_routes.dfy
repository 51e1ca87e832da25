/** The body keys of the dispute create handler. */
module DisputeFields {
  import opened Schema

  /** The body keys the create handler passes to the model as given. */
  const Picked := {"category", "description", "incidentDate", "incidentPlace", "district", "mandal", "ward",
                   "pincode", "assignedTo", "mediator", "hearingDate", "hearingTime", "hearingPlace"}

  /** The keys the create handler's object literal sets itself. */
  const Own := {"disputeId", "partyA", "partyB", "attachments", "priority", "tags", "createdBy", "status"}

  lemma PickedApart()
    ensures forall k :: k in Picked ==> k !in Own
    ensures "statusHistory" !in Picked && "statusHistory" !in Own && "sla" !in Picked
    ensures TopDefaults(Dispute).Keys <= Own && NestedDefaults(Dispute).Keys == {"sla"}
    ensures ElementDefaults(Dispute) == map[]
  {
  }
}

/** The dispute mediation router. Every handler authenticates first and
    reads the caller as `req.user.id`. A record is looked up with one `$or`
    over `_id` and `disputeId`, so an id that is not 24 hex digits fails
    the `_id` cast and answers 500. A new dispute copies the two parties,
    starts NEW with a 7-day SLA and one history entry; the PUT logs a
    status change, schedules a hearing, then copies an allow-list. */
module DisputeRoutes {
  import opened Wrappers
  import opened Text
  import opened Json
  import opened Schema
  import opened Store
  import opened Records
  import opened Listing
  import Models
  import Ids
  import Handlers
  import opened DisputeFields

  /** `{name, contact, email, address}` read off a party. */
  function Party(v: Value): Value
  {
    Obj(Defined(map["name" := Prop(v, "name"), "contact" := Prop(v, "contact"),
                    "email" := Prop(v, "email"), "address" := Prop(v, "address")]))
  }

  /** The keys the object literal given to `new Dispute(...)` sets
      itself; an `undefined` caller leaves `createdBy` unset. */
  function OwnValues(id: Value, a: Value, b: Value, attachments: Value, priority: Value, tags: Value, actor: Value)
    : Fields
  {
    Defined(map["disputeId" := id, "partyA" := a, "partyB" := b, "attachments" := attachments,
                "priority" := priority, "tags" := tags, "createdBy" := actor, "status" := Str("NEW")])
  }

  /** The object literal given to `new Dispute(...)`. */
  function Given(body: Fields, disputeId: string, actor: Value): Fields
  {
    Restrict(body, Picked) + OwnValues(
      Str(disputeId), Party(Get(body, "partyA")), Party(Get(body, "partyB")),
      Or(Get(body, "attachments"), Arr([])), Or(Get(body, "priority"), Str("MEDIUM")),
      Or(Get(body, "tags"), Arr([])), actor)
  }

  /** Seven days from now, within the SLA. */
  function Sla(now: int): Value
  {
    Obj(map["duration" := Str("7d"), "dueDate" := Num((now + 7 * DayMillis) as real), "status" := Str("within-sla")])
  }

  /** The history entry a new dispute starts with. */
  function Opening(actor: Value, now: int): Value
  {
    HistoryEntry(Str("NEW"), actor, now, "comments", Str("Dispute created"))
  }

  /** The dispute the create handler saves. */
  function NewDispute(body: Fields, disputeId: string, actor: Value, now: int): Doc
  {
    Push(Construct(Dispute, Given(body, disputeId, actor))["sla" := Sla(now)], "statusHistory", Opening(actor, now))
  }

  /** Reading `partyA.name` or `partyB.name` throws when the party is
      missing or null. */
  predicate PartiesReadable(body: Fields)
  {
    Member(Get(body, "partyA"), "name").Some? && Member(Get(body, "partyB"), "name").Some?
  }

  /** `POST /`: generate the id from `body.district`, build, set the SLA,
      log, save. */
  function Create(s: Snapshot, body: Fields, user: Value, now: int, year: nat, oid: ObjectId)
    : (Snapshot, Response)
  {
    match Ids.GenerateDisputeId(s, Get(body, "district"), year)
    case Failure(_) => (s, Failed(500))
    case Success(disputeId) =>
      if !PartiesReadable(body) then (s, Failed(500))
      else CreateStep(s, oid, NewDispute(body, disputeId, Prop(user, "id"), now), now, 500)
  }

  method CreateOn(c: Collection, body: Fields, user: Value, now: int, year: nat, oid: ObjectId)
    returns (r: Response)
    modifies c
    ensures c.State() == Create(old(c.State()), body, user, now, year, oid).0
    ensures r == Create(old(c.State()), body, user, now, year, oid).1
  {
    var generated := Ids.GenerateDisputeId(c.State(), Get(body, "district"), year);
    if generated.Failure? || !PartiesReadable(body) {
      return Failed(500);
    }
    var d := Build(body, generated.value, Prop(user, "id"), now);
    r := Handlers.Create(c, oid, d, now, 500);
  }

  /** `new Dispute({...})`, the SLA set, the opening entry pushed. */
  method Build(body: Fields, disputeId: string, actor: Value, now: int) returns (d: Doc)
    ensures d == NewDispute(body, disputeId, actor, now)
  {
    var c := Construct(Dispute, Given(body, disputeId, actor));
    var rec := new Record(c);
    rec.Set("sla", Sla(now));
    assert rec.fields == c["sla" := Sla(now)];
    rec.Append("statusHistory", Opening(actor, now));
    d := rec.fields;
  }

  /** A new dispute is NEW with a history of exactly the opening entry, the
      generated id, the parties' four fields, `priority || "MEDIUM"`, a
      7-day SLA, and every picked body value as given. */
  lemma NewDisputeShape(body: Fields, disputeId: string, actor: Value, now: int)
    ensures var d := NewDispute(body, disputeId, actor, now);
      && Get(d, "status") == Str("NEW")
      && Entries(Get(d, "statusHistory")) == [Opening(actor, now)]
      && Get(d, "disputeId") == Str(disputeId)
      && Get(d, "partyA") == Party(Get(body, "partyA")) && Get(d, "partyB") == Party(Get(body, "partyB"))
      && Get(d, "priority") == Or(Get(body, "priority"), Str("MEDIUM"))
      && Get(d, "createdBy") == actor
      && Get(d, "sla") == Sla(now)
      && forall k :: k in Picked ==> Get(d, k) == Get(body, k)
  {
    var g := Given(body, disputeId, actor);
    GivenFixed(body, disputeId, actor);
    GivenPicked(body, disputeId, actor);
    var c := Construct(Dispute, g);
    ConstructedFixed(g, Str(disputeId), Party(Get(body, "partyA")), Party(Get(body, "partyB")),
                     Or(Get(body, "priority"), Str("MEDIUM")), actor);
    ConstructedPicked(g, body);
    OpenedFixed(c, Str(disputeId), Party(Get(body, "partyA")), Party(Get(body, "partyB")),
                Or(Get(body, "priority"), Str("MEDIUM")), actor, now);
    OpenedPicked(c, body, actor, now);
  }

  lemma OwnKeys(id: Value, a: Value, b: Value, attachments: Value, priority: Value, tags: Value, actor: Value)
    ensures OwnValues(id, a, b, attachments, priority, tags, actor).Keys <= Own
  {
  }

  lemma OwnFacts(id: Value, a: Value, b: Value, attachments: Value, priority: Value, tags: Value, actor: Value)
    ensures var o := OwnValues(id, a, b, attachments, priority, tags, actor);
      && Get(o, "status") == Str("NEW") && Get(o, "disputeId") == id
      && Get(o, "partyA") == a && Get(o, "partyB") == b
      && Get(o, "priority") == priority && Get(o, "createdBy") == actor
  {
  }

  lemma UnionOwn(r: Fields, o: Fields, k: string)
    requires Get(r, k) == Undefined
    ensures Get(r + o, k) == Get(o, k)
  {
  }

  lemma GivenFixed(body: Fields, disputeId: string, actor: Value)
    ensures var g := Given(body, disputeId, actor);
      && Get(g, "status") == Str("NEW")
      && Get(g, "disputeId") == Str(disputeId)
      && Get(g, "partyA") == Party(Get(body, "partyA")) && Get(g, "partyB") == Party(Get(body, "partyB"))
      && Get(g, "priority") == Or(Get(body, "priority"), Str("MEDIUM"))
      && Get(g, "createdBy") == actor
  {
    var r := Restrict(body, Picked);
    var id, a, b := Str(disputeId), Party(Get(body, "partyA")), Party(Get(body, "partyB"));
    var att, pr, tags := Or(Get(body, "attachments"), Arr([])), Or(Get(body, "priority"), Str("MEDIUM")),
      Or(Get(body, "tags"), Arr([]));
    var o := OwnValues(id, a, b, att, pr, tags, actor);
    OwnFacts(id, a, b, att, pr, tags, actor);
    PickedApart();
    forall k | k in Own
      ensures Get(r + o, k) == Get(o, k)
    {
      UnionOwn(r, o, k);
    }
  }

  lemma GivenPicked(body: Fields, disputeId: string, actor: Value)
    ensures var g := Given(body, disputeId, actor);
      && Get(g, "statusHistory") == Undefined
      && forall k :: k in Picked ==> Get(g, k) == Get(body, k)
  {
    PickedApart();
    OwnKeys(Str(disputeId), Party(Get(body, "partyA")), Party(Get(body, "partyB")),
      Or(Get(body, "attachments"), Arr([])), Or(Get(body, "priority"), Str("MEDIUM")),
      Or(Get(body, "tags"), Arr([])), actor);
  }

  lemma ConstructedFixed(g: Fields, id: Value, a: Value, b: Value, priority: Value, actor: Value)
    requires Get(g, "status") == Str("NEW") && Get(g, "disputeId") == id
    requires Get(g, "partyA") == a && Get(g, "partyB") == b
    requires Get(g, "priority") == priority && priority != Undefined && Get(g, "createdBy") == actor
    ensures var c := Construct(Dispute, g);
      && Get(c, "status") == Str("NEW") && Get(c, "disputeId") == id
      && Get(c, "partyA") == a && Get(c, "partyB") == b
      && Get(c, "priority") == priority && Get(c, "createdBy") == actor
  {
    ConstructedDefaulted(g, priority);
    ConstructedPlain(g, "disputeId");
    ConstructedPlain(g, "partyA");
    ConstructedPlain(g, "partyB");
    ConstructedPlain(g, "createdBy");
  }

  lemma ConstructedPlain(g: Fields, k: string)
    requires k in Own - {"status", "priority"}
    ensures Get(Construct(Dispute, g), k) == Get(g, k)
  {
    PickedApart();
    ConstructKeepsPlain(Dispute, g, {k});
  }

  lemma ConstructedDefaulted(g: Fields, priority: Value)
    requires Get(g, "status") == Str("NEW") && Get(g, "priority") == priority && priority != Undefined
    ensures var c := Construct(Dispute, g);
      Get(c, "status") == Str("NEW") && Get(c, "priority") == priority
  {
    ConstructTopLevel(Dispute, g, "status");
    ConstructTopLevel(Dispute, g, "priority");
  }

  lemma ConstructedPicked(g: Fields, body: Fields)
    requires Get(g, "statusHistory") == Undefined
    requires forall k :: k in Picked ==> Get(g, k) == Get(body, k)
    ensures var c := Construct(Dispute, g);
      Get(c, "statusHistory") == Undefined && forall k :: k in Picked ==> Get(c, k) == Get(body, k)
  {
    PickedApart();
    ConstructKeepsPlain(Dispute, g, Picked + {"statusHistory"});
  }

  lemma OpenedFixed(c: Fields, id: Value, a: Value, b: Value, priority: Value, actor: Value, now: int)
    requires Get(c, "status") == Str("NEW") && Get(c, "disputeId") == id
    requires Get(c, "partyA") == a && Get(c, "partyB") == b
    requires Get(c, "priority") == priority && Get(c, "createdBy") == actor
    ensures var d := Push(c["sla" := Sla(now)], "statusHistory", Opening(actor, now));
      && Get(d, "status") == Str("NEW") && Get(d, "disputeId") == id
      && Get(d, "partyA") == a && Get(d, "partyB") == b
      && Get(d, "priority") == priority && Get(d, "createdBy") == actor
      && Get(d, "sla") == Sla(now)
  {
  }

  lemma OpenedPicked(c: Fields, body: Fields, actor: Value, now: int)
    requires Get(c, "statusHistory") == Undefined
    requires forall k :: k in Picked ==> Get(c, k) == Get(body, k)
    ensures var d := Push(c["sla" := Sla(now)], "statusHistory", Opening(actor, now));
      Entries(Get(d, "statusHistory")) == [Opening(actor, now)]
      && forall k :: k in Picked ==> Get(d, k) == Get(body, k)
  {
    PickedApart();
  }

  lemma CreateKeepsInv(s: Snapshot, body: Fields, user: Value, now: int, year: nat, oid: ObjectId)
    requires Inv(s)
    ensures Inv(Create(s, body, user, now, year, oid).0)
  {
    var generated := Ids.GenerateDisputeId(s, Get(body, "district"), year);
    if generated.Success? && PartiesReadable(body) {
      InsertKeepsInv(s, oid, NewDispute(body, generated.value, Prop(user, "id"), now), now);
    }
  }

  lemma CreateSaves(s: Snapshot, body: Fields, user: Value, now: int, year: nat, oid: ObjectId, disputeId: string)
    requires Ids.GenerateDisputeId(s, Get(body, "district"), year) == Success(disputeId)
    requires PartiesReadable(body)
    ensures Create(s, body, user, now, year, oid)
         == CreateStep(s, oid, NewDispute(body, disputeId, Prop(user, "id"), now), now, 500)
    ensures !IsHex24(disputeId)
  {
    NotHex(s, body, year, disputeId);
  }

  lemma NotHex(s: Snapshot, body: Fields, year: nat, disputeId: string)
    requires Ids.GenerateDisputeId(s, Get(body, "district"), year) == Success(disputeId)
    ensures !IsHex24(disputeId)
  {
    assert disputeId[1] == 'S';
  }

  /** A body without both parties, or an id that cannot be generated, or a
      save that fails, changes nothing and answers 500. */
  lemma CreateRefused(s: Snapshot, body: Fields, user: Value, now: int, year: nat, oid: ObjectId)
    ensures var (t, r) := Create(s, body, user, now, year, oid);
      && (r.Created? || r == Failed(500)) && (!r.Created? ==> t == s)
      && (!PartiesReadable(body) ==> r == Failed(500))
  {
  }

  /** A created dispute is stored under `oid` and the `$or` lookup finds it
      by `oid`; by its own `disputeId` the same lookup fails the `_id` cast
      and answers 500. */
  lemma CreatedIsFoundByOidOnly(s: Snapshot, body: Fields, user: Value, now: int, year: nat, oid: ObjectId,
                                disputeId: string)
    requires Inv(s) && HumanIdField(s.kind) == "disputeId"
    requires Ids.GenerateDisputeId(s, Get(body, "district"), year) == Success(disputeId)
    ensures var (t, r) := Create(s, body, user, now, year, oid);
      r.Created? ==>
        && oid in t.docs && t.order == s.order + [oid]
        && LookupBy(t, oid, HumanOrId).Found?
        && Handlers.Show(t, disputeId, HumanOrId, 500) == Failed(500)
  {
    if PartiesReadable(body) {
      CreateSaves(s, body, user, now, year, oid, disputeId);
      var d := NewDispute(body, disputeId, Prop(user, "id"), now);
      NewDisputeShape(body, disputeId, Prop(user, "id"), now);
      Handlers.CreatedIsRefusedByHumanId(s, oid, d, now, disputeId, 500);
    }
  }

  // ---------------------------------------------------------------------
  // PUT /:id
  // ---------------------------------------------------------------------

  /** The keys the PUT copies when defined. */
  const Updatable := ["partyA", "partyB", "category", "description", "incidentDate", "incidentPlace", "district",
                      "mandal", "ward", "pincode", "assignedTo", "mediator", "priority", "tags", "mediationNotes",
                      "settlementTerms", "settlementDate", "attachments"]

  /** The paths a status change and a hearing set. */
  const Scheduling := {"status", "statusHistory", "hearingDate", "hearingTime", "hearingPlace", "hearingNotes"}

  /** `updateStatus` when `updates.status` is truthy and changed. */
  function Logged(doc: Doc, updates: Fields, actor: Value, now: int): (r: Doc)
    ensures forall k :: k !in Scheduling ==> Get(r, k) == Get(doc, k)
  {
    var status := Get(updates, "status");
    if Truthy(status) && status != Get(doc, "status")
    then Models.StatusChanged(doc, status, Models.LogEntry(status, actor, Get(updates, "statusComment"), now))
    else doc
  }

  /** `scheduleHearing` when `updates.hearingDate` is truthy. */
  function Scheduled(doc: Doc, updates: Fields): (r: Doc)
    ensures forall k :: k !in Scheduling ==> Get(r, k) == Get(doc, k)
  {
    if Truthy(Get(updates, "hearingDate"))
    then Models.HearingScheduled(doc, Get(updates, "hearingDate"), Get(updates, "hearingTime"),
                                 Get(updates, "hearingPlace"), Get(updates, "hearingNotes"))
    else doc
  }

  /** Log a truthy changed status, schedule a truthy hearing date, then copy
      the allow-list. */
  function Edited(doc: Doc, updates: Fields, actor: Value, now: int): Doc
  {
    MergeAllowed(Scheduled(Logged(doc, updates, actor, now), updates), updates, Records.Listed(Updatable))
  }

  method Edit(rec: Record, updates: Fields, actor: Value, now: int)
    modifies rec
    ensures rec.fields == Edited(old(rec.fields), updates, actor, now)
  {
    var status := Get(updates, "status");
    if Truthy(status) && status != Get(rec.fields, "status") {
      Models.UpdateStatus(rec, status, actor, Get(updates, "statusComment"), now);
    }
    if Truthy(Get(updates, "hearingDate")) {
      Models.ScheduleHearing(rec, Get(updates, "hearingDate"), Get(updates, "hearingTime"),
                      Get(updates, "hearingPlace"), Get(updates, "hearingNotes"));
    }
    rec.AssignAllowed(updates, Updatable);
  }

  /** A scheduled hearing wins over the requested status; otherwise a
      truthy changed status is taken, else the record's stays. */
  lemma EditedStatus(doc: Doc, updates: Fields, actor: Value, now: int)
    ensures var status := Get(updates, "status");
      Get(Edited(doc, updates, actor, now), "status") ==
        if Truthy(Get(updates, "hearingDate")) then Str("MEDIATION_SCHEDULED")
        else if Truthy(status) then status
        else Get(doc, "status")
  {
    assert "status" !in Records.Listed(Updatable);
  }

  /** Exactly one entry is logged when the status is truthy and changed, and
      none otherwise; scheduling a hearing logs nothing. */
  lemma EditedHistory(doc: Doc, updates: Fields, actor: Value, now: int)
    ensures var status := Get(updates, "status");
      var before := Entries(Get(doc, "statusHistory"));
      Entries(Get(Edited(doc, updates, actor, now), "statusHistory")) ==
        if Truthy(status) && status != Get(doc, "status")
        then before + [Models.LogEntry(status, actor, Get(updates, "statusComment"), now)]
        else before
  {
    assert "statusHistory" !in Records.Listed(Updatable);
  }

  /** Every allow-listed key defined in the request is written. */
  lemma EditedWrites(doc: Doc, updates: Fields, actor: Value, now: int, k: string)
    requires k in Records.Listed(Updatable) && Get(updates, k) != Undefined
    ensures Get(Edited(doc, updates, actor, now), k) == Get(updates, k)
  {
  }

  /** The `disputeId`, and any key off the list and outside the status and
      hearing paths, stay as they were. */
  lemma EditedKeeps(doc: Doc, updates: Fields, actor: Value, now: int, k: string)
    requires k !in Records.Listed(Updatable) && k !in Scheduling
    ensures Get(Edited(doc, updates, actor, now), k) == Get(doc, k)
  {
    var scheduled := Scheduled(Logged(doc, updates, actor, now), updates);
    assert Get(scheduled, k) == Get(doc, k);
    assert k !in Allowed(updates, Records.Listed(Updatable));
  }

  function Update(s: Snapshot, id: string, updates: Fields, user: Value, now: int): (Snapshot, Response)
  {
    var look := LookupBy(s, id, HumanOrId);
    if !look.Found? then (s, Handlers.Refusal(look, 500))
    else
      var d := Edited(s.docs[look.oid], updates, Prop(user, "id"), now);
      SaveStep(s, look.oid, d, Full, 500, Obj(d))
  }

  method UpdateOn(c: Collection, id: string, updates: Fields, user: Value, now: int) returns (r: Response)
    modifies c
    ensures c.State() == Update(old(c.State()), id, updates, user, now).0
    ensures r == Update(old(c.State()), id, updates, user, now).1
  {
    var look := LookupBy(c.State(), id, HumanOrId);
    if !look.Found? {
      return Handlers.Refusal(look, 500);
    }
    var rec := new Record(c.docs[look.oid]);
    Edit(rec, updates, Prop(user, "id"), now);
    r := Handlers.Save(c, look.oid, rec.fields, Full, 500, Obj(rec.fields));
  }

  lemma UpdateKeepsInv(s: Snapshot, id: string, updates: Fields, user: Value, now: int)
    requires Inv(s)
    ensures Inv(Update(s, id, updates, user, now).0)
  {
    var look := LookupBy(s, id, HumanOrId);
    if look.Found? {
      var d := Edited(s.docs[look.oid], updates, Prop(user, "id"), now);
      Handlers.SaveKeepsInv(s, look.oid, d, 500, Obj(d));
    }
  }

  // ---------------------------------------------------------------------
  // GET /
  // ---------------------------------------------------------------------

  const ListKeys := ["status", "category", "district", "assignedTo", "mediator"]

  /** The query's truthy keys, and the day of `hearingDate` when given. */
  function ListFilter(query: Fields, day: Option<int>): seq<Cond>
  {
    FilterOf(query, ListKeys) + (if day.Some? then DayOf("hearingDate", day.value) else [])
  }

  function ListDisputes(s: Snapshot, query: Fields, day: Option<int>, page: int, limit: int): ListReply
  {
    List(s, ListFilter(query, day), page, limit)
  }

  /** A dispute is listed exactly when it agrees with every truthy parameter
      and, when a date is given, its hearing date lies in that day. */
  lemma ListFilterMeans(d: Doc, query: Fields, day: Option<int>)
    ensures Matches(d, ListFilter(query, day)) <==>
      && (forall i :: 0 <= i < |ListKeys| ==> Agrees(d, query, ListKeys[i]))
      && (day.Some? ==>
            && Get(d, "hearingDate").Num?
            && day.value as real <= Get(d, "hearingDate").n < (day.value + DayMillis) as real)
  {
    AppendMatches(d, FilterOf(query, ListKeys), if day.Some? then DayOf("hearingDate", day.value) else []);
    FilterOfMatches(d, query, ListKeys);
    if day.Some? {
      DayOfMatches(d, "hearingDate", day.value);
    }
  }
}
