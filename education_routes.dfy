/** The education support router. A new request is the generated
    `educationId` overridden by whatever the body holds, with the creator
    forced; the PUT copies every key but `_id` and `educationId` and only
    then compares statuses, so its history entry is never written. GET,
    DELETE and comments are the shared shapes of `Handlers` with the
    `educationId`-then-`_id` lookup and 500 on any error. */
module EducationRoutes {
  import opened Wrappers
  import opened Text
  import opened Json
  import opened Schema
  import opened Store
  import opened Records
  import opened Listing
  import Ids
  import Handlers

  /** `{educationId, ...body, createdBy}`: the body comes after the id. */
  function Given(body: Fields, educationId: string, actor: Value): Fields
  {
    Put(map["educationId" := Str(educationId)] + body, "createdBy", actor)
  }

  function NewRequest(body: Fields, educationId: string, actor: Value): Doc
  {
    Construct(Education, Given(body, educationId, actor))
  }

  /** `POST /`: the id is generated from `body.district || "GEN"`. */
  function Create(s: Snapshot, body: Fields, actor: Value, now: int, year: nat, oid: ObjectId)
    : (Snapshot, Response)
  {
    match Ids.GenerateEducationId(s, Or(Get(body, "district"), Str("GEN")), year)
    case Failure(_) => (s, Failed(500))
    case Success(educationId) => CreateStep(s, oid, NewRequest(body, educationId, actor), now, 500)
  }

  method CreateOn(c: Collection, body: Fields, actor: Value, now: int, year: nat, oid: ObjectId)
    returns (r: Response)
    modifies c
    ensures c.State() == Create(old(c.State()), body, actor, now, year, oid).0
    ensures r == Create(old(c.State()), body, actor, now, year, oid).1
  {
    var generated := Ids.GenerateEducationId(c.State(), Or(Get(body, "district"), Str("GEN")), year);
    if generated.Failure? {
      return Failed(500);
    }
    var rec := new Record(Construct(Education, Given(body, generated.value, actor)));
    r := Handlers.Create(c, oid, rec.fields, now, 500);
  }

  lemma GivenFacts(body: Fields, educationId: string, actor: Value, k: string)
    ensures var g := Given(body, educationId, actor);
      && Get(g, "createdBy") == actor
      && (k != "createdBy" && k != "educationId" ==> Get(g, k) == Get(body, k))
  {
  }

  /** A body's own `educationId` replaces the generated one; the creator is
      always the caller (unset when there is none); no history entry is
      written; the defaults fill what the body leaves out. */
  lemma NewRequestShape(body: Fields, educationId: string, actor: Value)
    ensures var d := NewRequest(body, educationId, actor);
      && Get(d, "educationId") == (if "educationId" in body then body["educationId"] else Str(educationId))
      && Get(d, "createdBy") == actor
      && Get(d, "statusHistory") == Get(body, "statusHistory")
      && Get(d, "status") == (if Get(body, "status") == Undefined then Str("REQUESTED") else Get(body, "status"))
  {
    var g := Given(body, educationId, actor);
    IdGiven(body, educationId, actor);
    GivenFacts(body, educationId, actor, "statusHistory");
    GivenFacts(body, educationId, actor, "status");
    ConstructedIds(g, Get(g, "educationId"), actor);
    ConstructedState(g, Get(body, "statusHistory"), Get(body, "status"));
  }

  lemma IdGiven(body: Fields, educationId: string, actor: Value)
    ensures Get(Given(body, educationId, actor), "educationId") ==
      (if "educationId" in body then body["educationId"] else Str(educationId))
  {
  }

  lemma ConstructedIds(g: Fields, id: Value, actor: Value)
    requires Get(g, "educationId") == id && Get(g, "createdBy") == actor
    ensures var d := Construct(Education, g);
      Get(d, "educationId") == id && Get(d, "createdBy") == actor
  {
    ConstructKeepsPlain(Education, g, {"educationId", "createdBy"});
  }

  lemma ConstructedState(g: Fields, history: Value, status: Value)
    requires Get(g, "statusHistory") == history && Get(g, "status") == status
    ensures var d := Construct(Education, g);
      && Get(d, "statusHistory") == history
      && Get(d, "status") == (if status == Undefined then Str("REQUESTED") else status)
  {
    ConstructTopLevel(Education, g, "statusHistory");
    ConstructTopLevel(Education, g, "status");
  }

  lemma CreateKeepsInv(s: Snapshot, body: Fields, actor: Value, now: int, year: nat, oid: ObjectId)
    requires Inv(s)
    ensures Inv(Create(s, body, actor, now, year, oid).0)
  {
    var generated := Ids.GenerateEducationId(s, Or(Get(body, "district"), Str("GEN")), year);
    if generated.Success? {
      InsertKeepsInv(s, oid, NewRequest(body, generated.value, actor), now);
    }
  }

  lemma CreateSaves(s: Snapshot, body: Fields, actor: Value, now: int, year: nat, oid: ObjectId, educationId: string)
    requires Ids.GenerateEducationId(s, Or(Get(body, "district"), Str("GEN")), year) == Success(educationId)
    ensures Create(s, body, actor, now, year, oid) == CreateStep(s, oid, NewRequest(body, educationId, actor), now, 500)
    ensures !IsHex24(educationId)
  {
    NotHex(s, body, year, educationId);
  }

  lemma NotHex(s: Snapshot, body: Fields, year: nat, educationId: string)
    requires Ids.GenerateEducationId(s, Or(Get(body, "district"), Str("GEN")), year) == Success(educationId)
    ensures !IsHex24(educationId)
  {
    assert educationId[2] == 'U';
  }

  /** A created request whose body named no `educationId` is stored under
      `oid` and can then be fetched by the generated one. */
  lemma CreatedIsFindable(s: Snapshot, body: Fields, actor: Value, now: int, year: nat, oid: ObjectId, educationId: string)
    requires Inv(s) && HumanIdField(s.kind) == "educationId" && "educationId" !in body
    requires Ids.GenerateEducationId(s, Or(Get(body, "district"), Str("GEN")), year) == Success(educationId)
    ensures var (t, r) := Create(s, body, actor, now, year, oid);
      r.Created? ==>
        && oid in t.docs && t.order == s.order + [oid]
        && Handlers.Show(t, educationId, HumanThenId, 500) == Ok(Obj(t.docs[oid]))
  {
    CreateSaves(s, body, actor, now, year, oid, educationId);
    NewRequestShape(body, educationId, actor);
    Handlers.CreatedIsShown(s, oid, NewRequest(body, educationId, actor), now, educationId, HumanThenId, 500);
  }

  /** A refused create (no id could be generated, or the save failed)
      changes nothing and answers 500. */
  lemma CreateRefused(s: Snapshot, body: Fields, actor: Value, now: int, year: nat, oid: ObjectId)
    ensures var (t, r) := Create(s, body, actor, now, year, oid);
      (r.Created? || r == Failed(500)) && (!r.Created? ==> t == s)
  {
  }

  // ---------------------------------------------------------------------
  // PUT /:id
  // ---------------------------------------------------------------------

  /** Copy every key but `_id` and `educationId`; then, when
      `updates.status` is truthy and differs from the record's (already
      overwritten) status, log the change. */
  function Edited(doc: Doc, updates: Fields, actor: Value, now: int): Doc
  {
    var copied := MergeExcept(doc, updates, {"_id", "educationId"}, false);
    var status := Get(updates, "status");
    if Truthy(status) && status != Get(copied, "status") then
      Push(copied, "statusHistory",
        HistoryEntry(status, actor, now, "comments",
          Or(Get(updates, "statusComment"), Str("Status changed to " + JsString(status)))))
    else copied
  }

  method Edit(rec: Record, updates: Fields, actor: Value, now: int)
    modifies rec
    ensures rec.fields == Edited(old(rec.fields), updates, actor, now)
  {
    rec.AssignExcept(updates, {"_id", "educationId"}, false);
    var status := Get(updates, "status");
    if Truthy(status) && status != Get(rec.fields, "status") {
      rec.Append("statusHistory",
        HistoryEntry(status, actor, now, "comments",
          Or(Get(updates, "statusComment"), Str("Status changed to " + JsString(status)))));
    }
  }

  /** The comparison runs after the copy, so a truthy new status always
      equals the record's: the PUT is a plain copy and never logs. */
  lemma EditedNeverLogs(doc: Doc, updates: Fields, actor: Value, now: int)
    ensures Edited(doc, updates, actor, now) == MergeExcept(doc, updates, {"_id", "educationId"}, false)
    ensures Get(Edited(doc, updates, actor, now), "statusHistory") ==
      (if "statusHistory" in updates then Get(updates, "statusHistory") else Get(doc, "statusHistory"))
  {
  }

  function Update(s: Snapshot, id: string, updates: Fields, actor: Value, now: int): (Snapshot, Response)
  {
    var look := LookupBy(s, id, HumanThenId);
    if !look.Found? then (s, Handlers.Refusal(look, 500))
    else
      var d := Edited(s.docs[look.oid], updates, actor, now);
      SaveStep(s, look.oid, d, Full, 500, Obj(d))
  }

  method UpdateOn(c: Collection, id: string, updates: Fields, actor: Value, now: int) returns (r: Response)
    modifies c
    ensures c.State() == Update(old(c.State()), id, updates, actor, now).0
    ensures r == Update(old(c.State()), id, updates, actor, now).1
  {
    var look := LookupBy(c.State(), id, HumanThenId);
    if !look.Found? {
      return Handlers.Refusal(look, 500);
    }
    var rec := new Record(c.docs[look.oid]);
    Edit(rec, updates, actor, now);
    r := Handlers.Save(c, look.oid, rec.fields, Full, 500, Obj(rec.fields));
  }

  /** On the education store the PUT is exactly the shared blacklist
      update. */
  lemma UpdateIsCopy(s: Snapshot, id: string, updates: Fields, actor: Value, now: int)
    requires s.kind == Education
    ensures Update(s, id, updates, actor, now) == Handlers.CopyUpdate(s, id, updates)
  {
    var look := LookupBy(s, id, HumanThenId);
    if look.Found? {
      EditedNeverLogs(s.docs[look.oid], updates, actor, now);
      assert Handlers.Protected(s.kind) == {"_id", "educationId"};
    }
  }

  lemma UpdateKeepsInv(s: Snapshot, id: string, updates: Fields, actor: Value, now: int)
    requires Inv(s)
    ensures Inv(Update(s, id, updates, actor, now).0)
  {
    var look := LookupBy(s, id, HumanThenId);
    if look.Found? {
      var d := Edited(s.docs[look.oid], updates, actor, now);
      Handlers.SaveKeepsInv(s, look.oid, d, 500, Obj(d));
    }
  }

  // ---------------------------------------------------------------------
  // GET / and GET /stats/summary
  // ---------------------------------------------------------------------

  const ListKeys := ["status", "educationType", "supportType", "district", "urgency", "assignedTo", "verificationStatus"]

  function ListRequests(s: Snapshot, query: Fields, page: int, limit: int): ListReply
  {
    List(s, FilterOf(query, ListKeys), page, limit)
  }

  datatype EducationStats = EducationStats(
    total: nat, byStatus: map<Value, nat>, byEducationType: map<Value, nat>, bySupportType: map<Value, nat>,
    totalAmountRequested: real, totalAmountApproved: real)

  function Stats(s: Snapshot): EducationStats
  {
    var all := Selected(s, []);
    EducationStats(
      Count(s, []),
      Tally(all, "status"), Tally(all, "educationType"), Tally(all, "supportType"),
      Sum(s, [], "requestedAmount"),
      Sum(s, [HasValue(["approvedAmount"])], "approvedAmount"))
  }

  /** Both totals are 0 over an empty store, and restricting the approved
      total to records whose amount is set and not null changes nothing. */
  lemma StatsTotals(s: Snapshot)
    ensures s.order == [] ==> Stats(s).totalAmountRequested == 0.0 && Stats(s).totalAmountApproved == 0.0
    ensures Stats(s).totalAmountApproved == Sum(s, [], "approvedAmount")
  {
    SumOverSet(s.order, Stamped(s), [], "approvedAmount");
    assert [] + [HasValue(["approvedAmount"])] == [HasValue(["approvedAmount"])];
  }

  /** Each education-type group counts exactly the records of that type. */
  lemma TypeGroupsCount(s: Snapshot, g: Value)
    requires g != Undefined
    ensures (if g in Stats(s).byEducationType then Stats(s).byEducationType[g] else 0)
         == Count(s, [Equal(["educationType"], g)])
  {
    TallyCounts(s.order, Stamped(s), [], "educationType", g);
    assert [] + [Equal(["educationType"], g)] == [Equal(["educationType"], g)];
  }
}
