/** The CM relief fund router: a new request is the body as given, with the
    generated `cmrfId`, the creator and a history of one REQUESTED entry
    forced over whatever the body held; the statistics count, group and
    total the requested and approved amounts. GET, PUT, DELETE and comments
    are the shared shapes of `Handlers` with the hex-then-`cmrfId` lookup
    and 500 on any error. */
module CMReliefRoutes {
  import opened Wrappers
  import opened Text
  import opened Json
  import opened Schema
  import opened Store
  import opened Records
  import opened Listing
  import Ids
  import Handlers

  /** The history entry a new request starts with. */
  function Opening(actor: Value, now: int): Value
  {
    HistoryEntry(Str("REQUESTED"), actor, now, "comments", Str("CM Relief request created"))
  }

  /** `{...body, cmrfId, createdBy, statusHistory: [opening]}` */
  function Given(body: Fields, cmrfId: string, actor: Value, now: int): Fields
  {
    Put(body["cmrfId" := Str(cmrfId)], "createdBy", actor)["statusHistory" := Arr([Opening(actor, now)])]
  }

  function NewRequest(body: Fields, cmrfId: string, actor: Value, now: int): Doc
  {
    Construct(CMRelief, Given(body, cmrfId, actor, now))
  }

  /** `POST /`: the id is generated from `body.district`. */
  function Create(s: Snapshot, body: Fields, actor: Value, now: int, year: nat, oid: ObjectId)
    : (Snapshot, Response)
  {
    match Ids.GenerateCmrfId(s, Get(body, "district"), year)
    case Failure(_) => (s, Failed(500))
    case Success(cmrfId) => CreateStep(s, oid, NewRequest(body, cmrfId, actor, now), now, 500)
  }

  method CreateOn(c: Collection, body: Fields, actor: Value, now: int, year: nat, oid: ObjectId)
    returns (r: Response)
    modifies c
    ensures c.State() == Create(old(c.State()), body, actor, now, year, oid).0
    ensures r == Create(old(c.State()), body, actor, now, year, oid).1
  {
    var generated := Ids.GenerateCmrfId(c.State(), Get(body, "district"), year);
    if generated.Failure? {
      return Failed(500);
    }
    var rec := new Record(Construct(CMRelief, Given(body, generated.value, actor, now)));
    r := Handlers.Create(c, oid, rec.fields, now, 500);
  }

  /** The generated id, the creator and the one-entry history win over the
      body, and the defaults fill what the body leaves out (status
      REQUESTED, verification PENDING). */
  lemma NewRequestShape(body: Fields, cmrfId: string, actor: Value, now: int)
    ensures var d := NewRequest(body, cmrfId, actor, now);
      && Entries(Get(d, "statusHistory")) == [Opening(actor, now)]
      && Get(d, "cmrfId") == Str(cmrfId)
      && Get(d, "createdBy") == actor
      && Get(d, "status") == (if Get(body, "status") == Undefined then Str("REQUESTED") else Get(body, "status"))
      && Get(d, "verificationStatus") ==
           (if Get(body, "verificationStatus") == Undefined then Str("PENDING") else Get(body, "verificationStatus"))
  {
    GivenForced(body, cmrfId, actor, now);
    GivenKeeps(body, cmrfId, actor, now, "status");
    GivenKeeps(body, cmrfId, actor, now, "verificationStatus");
    Constructed(Given(body, cmrfId, actor, now), Str(cmrfId), actor, Opening(actor, now),
                Get(body, "status"), Get(body, "verificationStatus"));
  }

  lemma GivenForced(body: Fields, cmrfId: string, actor: Value, now: int)
    ensures var g := Given(body, cmrfId, actor, now);
      && Get(g, "statusHistory") == Arr([Opening(actor, now)])
      && Get(g, "cmrfId") == Str(cmrfId)
      && Get(g, "createdBy") == actor
  {
  }

  lemma GivenKeeps(body: Fields, cmrfId: string, actor: Value, now: int, k: string)
    requires k !in {"cmrfId", "createdBy", "statusHistory"}
    ensures Get(Given(body, cmrfId, actor, now), k) == Get(body, k)
  {
  }

  lemma Constructed(g: Fields, id: Value, actor: Value, opening: Value, status: Value, verification: Value)
    requires Get(g, "statusHistory") == Arr([opening]) && Get(g, "cmrfId") == id && id != Undefined
    requires Get(g, "createdBy") == actor
    requires Get(g, "status") == status && Get(g, "verificationStatus") == verification
    ensures var d := Construct(CMRelief, g);
      && Entries(Get(d, "statusHistory")) == [opening]
      && Get(d, "cmrfId") == id
      && Get(d, "createdBy") == actor
      && Get(d, "status") == (if status == Undefined then Str("REQUESTED") else status)
      && Get(d, "verificationStatus") == (if verification == Undefined then Str("PENDING") else verification)
  {
    ConstructTopLevel(CMRelief, g, "statusHistory");
    ConstructTopLevel(CMRelief, g, "cmrfId");
    ConstructTopLevel(CMRelief, g, "createdBy");
    ConstructTopLevel(CMRelief, g, "status");
    ConstructTopLevel(CMRelief, g, "verificationStatus");
  }

  /** Every other defined body value is stored as given. */
  lemma NewRequestKeepsBody(body: Fields, cmrfId: string, actor: Value, now: int, k: string)
    requires k !in {"cmrfId", "createdBy", "statusHistory"} && Get(body, k) != Undefined
    ensures Get(NewRequest(body, cmrfId, actor, now), k) == Get(body, k)
  {
    GivenKeeps(body, cmrfId, actor, now, k);
    ConstructTopLevel(CMRelief, Given(body, cmrfId, actor, now), k);
  }

  lemma CreateKeepsInv(s: Snapshot, body: Fields, actor: Value, now: int, year: nat, oid: ObjectId)
    requires Inv(s)
    ensures Inv(Create(s, body, actor, now, year, oid).0)
  {
    var generated := Ids.GenerateCmrfId(s, Get(body, "district"), year);
    if generated.Success? {
      InsertKeepsInv(s, oid, NewRequest(body, generated.value, actor, now), now);
    }
  }

  lemma CreateSaves(s: Snapshot, body: Fields, actor: Value, now: int, year: nat, oid: ObjectId, cmrfId: string)
    requires Ids.GenerateCmrfId(s, Get(body, "district"), year) == Success(cmrfId)
    ensures Create(s, body, actor, now, year, oid) == CreateStep(s, oid, NewRequest(body, cmrfId, actor, now), now, 500)
    ensures !IsHex24(cmrfId)
  {
    NotHex(s, body, year, cmrfId);
  }

  lemma NotHex(s: Snapshot, body: Fields, year: nat, cmrfId: string)
    requires Ids.GenerateCmrfId(s, Get(body, "district"), year) == Success(cmrfId)
    ensures !IsHex24(cmrfId)
  {
    assert cmrfId[1] == 'M';
  }

  /** A refused create (no id could be generated, or the save failed)
      changes nothing and answers 500. */
  lemma CreateRefused(s: Snapshot, body: Fields, actor: Value, now: int, year: nat, oid: ObjectId)
    ensures var (t, r) := Create(s, body, actor, now, year, oid);
      (r.Created? || r == Failed(500)) && (!r.Created? ==> t == s)
  {
  }

  /** A created request is stored under `oid` and can then be fetched by its
      `cmrfId`, whatever `cmrfId` the body carried. */
  lemma CreatedIsFindable(s: Snapshot, body: Fields, actor: Value, now: int, year: nat, oid: ObjectId, cmrfId: string)
    requires Inv(s) && HumanIdField(s.kind) == "cmrfId"
    requires Ids.GenerateCmrfId(s, Get(body, "district"), year) == Success(cmrfId)
    ensures var (t, r) := Create(s, body, actor, now, year, oid);
      r.Created? ==>
        && oid in t.docs && t.order == s.order + [oid]
        && Handlers.Show(t, cmrfId, HexThenHuman, 500) == Ok(Obj(t.docs[oid]))
  {
    CreateSaves(s, body, actor, now, year, oid, cmrfId);
    NewRequestShape(body, cmrfId, actor, now);
    Handlers.CreatedIsShown(s, oid, NewRequest(body, cmrfId, actor, now), now, cmrfId, HexThenHuman, 500);
  }

  // ---------------------------------------------------------------------
  // GET / and GET /stats/summary
  // ---------------------------------------------------------------------

  const ListKeys := ["status", "reliefType", "district", "assignedTo", "verificationStatus", "urgency"]

  function ListRequests(s: Snapshot, query: Fields, page: int, limit: int): ListReply
  {
    List(s, FilterOf(query, ListKeys), page, limit)
  }

  datatype ReliefStats = ReliefStats(
    total: nat, byStatus: map<Value, nat>, byReliefType: map<Value, nat>, byUrgency: map<Value, nat>,
    totalAmountRequested: real, totalAmountApproved: real)

  function Stats(s: Snapshot): ReliefStats
  {
    var all := Selected(s, []);
    ReliefStats(
      Count(s, []),
      Tally(all, "status"), Tally(all, "reliefType"), Tally(all, "urgency"),
      Sum(s, [], "requestedAmount"),
      Sum(s, [HasValue(["approvedAmount"])], "approvedAmount"))
  }

  /** Both totals are 0 over an empty store, and restricting the approved
      total to records whose amount is set and not null changes nothing. */
  lemma StatsTotals(s: Snapshot)
    ensures s.order == [] ==> Stats(s).totalAmountRequested == 0.0 && Stats(s).totalAmountApproved == 0.0
    ensures Stats(s).totalAmountApproved == Sum(s, [], "approvedAmount")
  {
    SumOverSet(s.order, Stamped(s), [], "approvedAmount");
    assert [] + [HasValue(["approvedAmount"])] == [HasValue(["approvedAmount"])];
  }

  /** Each status group counts exactly the records holding that status. */
  lemma StatusGroupsCount(s: Snapshot, g: Value)
    requires g != Undefined
    ensures (if g in Stats(s).byStatus then Stats(s).byStatus[g] else 0) == Count(s, [Equal(["status"], g)])
  {
    TallyCounts(s.order, Stamped(s), [], "status", g);
    assert [] + [Equal(["status"], g)] == [Equal(["status"], g)];
  }
}
