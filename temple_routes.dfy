/** The body keys of the temple create handler. */
module TempleFields {
  import opened Schema

  /** The body keys the create handler passes to the model as given. */
  const Picked := {"applicantName", "mobile", "email", "address", "aadhaarNumber", "templeName",
                   "darshanType", "preferredDate", "district", "mandal", "ward", "pincode",
                   "purpose", "remarks", "assignedTo"}

  /** The paths the create handler sets itself. */
  const Fixed := {"templeId", "numberOfPeople", "attachments", "tags", "createdBy", "status", "statusHistory"}

  lemma PickedApart()
    ensures forall k :: k in Picked ==> k !in Fixed
    ensures TopDefaults(Temple).Keys <= Fixed
    ensures NestedDefaults(Temple) == map[] && ElementDefaults(Temple) == map[]
  {
  }
}

/** The temple darshan letter router: a new letter gets a generated
    `templeId`, status REQUESTED and one opening history entry; the list and
    the statistics filter on the query string. The GET, PUT, DELETE and
    comment handlers are the shared shapes of `Handlers` with the
    hex-then-`templeId` lookup and 500 on any error. */
module TempleRoutes {
  import opened Wrappers
  import opened Text
  import opened Json
  import opened Schema
  import opened Store
  import opened Records
  import opened Listing
  import Ids
  import Handlers
  import Auth
  import opened TempleFields

  /** The object literal given to `new Temple(...)`. */
  function Given(body: Fields, templeId: string, actor: Value): Fields
  {
    var d := Restrict(body, Picked)[
      "templeId" := Str(templeId)][
      "numberOfPeople" := Or(Get(body, "numberOfPeople"), Num(1.0))][
      "attachments" := Or(Get(body, "attachments"), Arr([]))][
      "tags" := Or(Get(body, "tags"), Arr([]))];
    Put(d, "createdBy", actor)["status" := Str("REQUESTED")]
  }

  /** The history entry a new letter starts with. */
  function Opening(actor: Value, now: int): Value
  {
    HistoryEntry(Str("REQUESTED"), actor, now, "comments", Str("Temple letter request created"))
  }

  /** The letter the create handler saves. */
  function NewTemple(body: Fields, templeId: string, actor: Value, now: int): Doc
  {
    Push(Construct(Temple, Given(body, templeId, actor)), "statusHistory", Opening(actor, now))
  }

  /** `POST /`: generate the id from `body.district`, build, log, save. The
      new record's `_id` is `oid`. */
  function Create(s: Snapshot, body: Fields, actor: Value, now: int, year: nat, oid: ObjectId)
    : (Snapshot, Response)
  {
    match Ids.GenerateTempleId(s, Get(body, "district"), year)
    case Failure(_) => (s, Failed(500))
    case Success(templeId) => CreateStep(s, oid, NewTemple(body, templeId, actor, now), now, 500)
  }

  method CreateOn(c: Collection, body: Fields, actor: Value, now: int, year: nat, oid: ObjectId)
    returns (r: Response)
    modifies c
    ensures c.State() == Create(old(c.State()), body, actor, now, year, oid).0
    ensures r == Create(old(c.State()), body, actor, now, year, oid).1
  {
    var generated := Ids.GenerateTempleId(c.State(), Get(body, "district"), year);
    if generated.Failure? {
      return Failed(500);
    }
    var d := Build(body, generated.value, actor, now);
    r := Handlers.Create(c, oid, d, now, 500);
  }

  /** `new Temple({...})`, then the opening entry pushed. */
  method Build(body: Fields, templeId: string, actor: Value, now: int) returns (d: Doc)
    ensures d == NewTemple(body, templeId, actor, now)
  {
    var rec := new Record(Construct(Temple, Given(body, templeId, actor)));
    rec.Append("statusHistory", Opening(actor, now));
    d := rec.fields;
  }

  /** A new letter has status REQUESTED, a history of exactly the opening
      entry, the generated id, `numberOfPeople || 1`, and every picked
      body value as given. */
  lemma NewTempleShape(body: Fields, templeId: string, actor: Value, now: int)
    ensures var d := NewTemple(body, templeId, actor, now);
      && Get(d, "status") == Str("REQUESTED")
      && Entries(Get(d, "statusHistory")) == [Opening(actor, now)]
      && Get(d, "templeId") == Str(templeId)
      && Get(d, "numberOfPeople") == Or(Get(body, "numberOfPeople"), Num(1.0))
      && Get(d, "createdBy") == actor
      && forall k :: k in Picked ==> Get(d, k) == Get(body, k)
  {
    var g := Given(body, templeId, actor);
    GivenFixed(body, templeId, actor);
    GivenPicked(body, templeId, actor);
    var c := Construct(Temple, g);
    ConstructedFixed(g, Str(templeId), Or(Get(body, "numberOfPeople"), Num(1.0)), actor);
    ConstructedPicked(g, body);
    OpenedFixed(c, Str(templeId), Or(Get(body, "numberOfPeople"), Num(1.0)), actor, now);
    OpenedPicked(c, body, actor, now);
  }

  /** The handler records `req.user.id` as the creator, but `authenticate`
      attaches `{userId, role}`: a letter created behind it has no creator,
      and its opening entry no author. */
  lemma AuthenticatedCreatorUnset(body: Fields, templeId: string, header: Option<string>,
                                  verify: string -> Auth.Verdict, now: int)
    requires Auth.Authenticated(header, verify).Success?
    ensures var actor := Prop(Auth.Authenticated(header, verify).value, "id");
      var d := NewTemple(body, templeId, actor, now);
      && Get(d, "createdBy") == Undefined
      && Entries(Get(d, "statusHistory")) == [Opening(Undefined, now)]
  {
    Auth.AuthenticatedHasNoId(header, verify);
    NewTempleShape(body, templeId, Prop(Auth.Authenticated(header, verify).value, "id"), now);
  }

  lemma GivenFixed(body: Fields, templeId: string, actor: Value)
    ensures var g := Given(body, templeId, actor);
      && Get(g, "status") == Str("REQUESTED")
      && Get(g, "templeId") == Str(templeId)
      && Get(g, "numberOfPeople") == Or(Get(body, "numberOfPeople"), Num(1.0))
      && Get(g, "createdBy") == actor
  {
  }

  lemma GivenPicked(body: Fields, templeId: string, actor: Value)
    ensures var g := Given(body, templeId, actor);
      && Get(g, "statusHistory") == Undefined
      && forall k :: k in Picked ==> Get(g, k) == Get(body, k)
  {
    PickedApart();
  }

  lemma ConstructedFixed(g: Fields, id: Value, people: Value, actor: Value)
    requires Get(g, "status") == Str("REQUESTED") && Get(g, "templeId") == id
    requires Get(g, "numberOfPeople") == people && people != Undefined && Get(g, "createdBy") == actor
    ensures var c := Construct(Temple, g);
      Get(c, "status") == Str("REQUESTED") && Get(c, "templeId") == id
      && Get(c, "numberOfPeople") == people && Get(c, "createdBy") == actor
  {
    ConstructTopLevel(Temple, g, "status");
    ConstructTopLevel(Temple, g, "numberOfPeople");
    ConstructKeepsPlain(Temple, g, {"templeId", "createdBy"});
  }

  lemma ConstructedPicked(g: Fields, body: Fields)
    requires Get(g, "statusHistory") == Undefined
    requires forall k :: k in Picked ==> Get(g, k) == Get(body, k)
    ensures var c := Construct(Temple, g);
      Get(c, "statusHistory") == Undefined && forall k :: k in Picked ==> Get(c, k) == Get(body, k)
  {
    PickedApart();
    ConstructKeepsPlain(Temple, g, Picked + {"statusHistory"});
  }

  lemma OpenedFixed(c: Fields, id: Value, people: Value, actor: Value, now: int)
    requires Get(c, "status") == Str("REQUESTED") && Get(c, "templeId") == id
    requires Get(c, "numberOfPeople") == people && Get(c, "createdBy") == actor
    ensures var d := Push(c, "statusHistory", Opening(actor, now));
      Get(d, "status") == Str("REQUESTED") && Get(d, "templeId") == id
      && Get(d, "numberOfPeople") == people && Get(d, "createdBy") == actor
  {
  }

  lemma OpenedPicked(c: Fields, body: Fields, actor: Value, now: int)
    requires Get(c, "statusHistory") == Undefined
    requires forall k :: k in Picked ==> Get(c, k) == Get(body, k)
    ensures var d := Push(c, "statusHistory", Opening(actor, now));
      Entries(Get(d, "statusHistory")) == [Opening(actor, now)]
      && forall k :: k in Picked ==> Get(d, k) == Get(body, k)
  {
    PickedApart();
  }

  lemma CreateKeepsInv(s: Snapshot, body: Fields, actor: Value, now: int, year: nat, oid: ObjectId)
    requires Inv(s)
    ensures Inv(Create(s, body, actor, now, year, oid).0)
  {
    var generated := Ids.GenerateTempleId(s, Get(body, "district"), year);
    if generated.Success? {
      InsertKeepsInv(s, oid, NewTemple(body, generated.value, actor, now), now);
    }
  }

  /** A letter created with the generated `templeId` is stored under `oid`,
      last in insertion order, and can then be fetched by that `templeId`. */
  lemma CreatedIsFindable(s: Snapshot, body: Fields, actor: Value, now: int, year: nat, oid: ObjectId, templeId: string)
    requires Inv(s) && HumanIdField(s.kind) == "templeId"
    requires Ids.GenerateTempleId(s, Get(body, "district"), year) == Success(templeId)
    ensures var (t, r) := Create(s, body, actor, now, year, oid);
      r.Created? ==>
        && oid in t.docs && t.order == s.order + [oid]
        && Handlers.Show(t, templeId, HexThenHuman, 500) == Ok(Obj(t.docs[oid]))
  {
    CreateSaves(s, body, actor, now, year, oid, templeId);
    NewTempleShape(body, templeId, actor, now);
    Handlers.CreatedIsShown(s, oid, NewTemple(body, templeId, actor, now), now, templeId, HexThenHuman, 500);
  }

  lemma CreateSaves(s: Snapshot, body: Fields, actor: Value, now: int, year: nat, oid: ObjectId, templeId: string)
    requires Ids.GenerateTempleId(s, Get(body, "district"), year) == Success(templeId)
    ensures Create(s, body, actor, now, year, oid) == CreateStep(s, oid, NewTemple(body, templeId, actor, now), now, 500)
    ensures !IsHex24(templeId)
  {
    NotHex(s, body, year, templeId);
  }

  lemma NotHex(s: Snapshot, body: Fields, year: nat, templeId: string)
    requires Ids.GenerateTempleId(s, Get(body, "district"), year) == Success(templeId)
    ensures !IsHex24(templeId)
  {
    assert templeId[0] == 'T';
  }

  /** A refused create (no id could be generated, or the save failed)
      changes nothing and answers 500. */
  lemma CreateRefused(s: Snapshot, body: Fields, actor: Value, now: int, year: nat, oid: ObjectId)
    ensures var (t, r) := Create(s, body, actor, now, year, oid);
      (r.Created? || r == Failed(500)) && (!r.Created? ==> t == s)
  {
  }

  // ---------------------------------------------------------------------
  // GET / and GET /stats/summary
  // ---------------------------------------------------------------------

  const ListKeys := ["status", "templeName", "darshanType", "district", "assignedTo"]

  /** The list filter; `day` is the parsed `preferredDate` parameter, when
      one is given. */
  function ListFilter(query: Fields, day: Option<int>): seq<Cond>
  {
    FilterOf(query, ListKeys) + (if day.Some? then DayOf("preferredDate", day.value) else [])
  }

  function ListTemples(s: Snapshot, query: Fields, day: Option<int>, page: int, limit: int): ListReply
  {
    List(s, ListFilter(query, day), page, limit)
  }

  /** A letter is listed exactly when it agrees with every truthy parameter
      and, when a date is given, its preferred date lies in that day. */
  lemma ListFilterMeans(d: Doc, query: Fields, day: Option<int>)
    ensures Matches(d, ListFilter(query, day)) <==>
      && (forall i :: 0 <= i < |ListKeys| ==> Agrees(d, query, ListKeys[i]))
      && (day.Some? ==>
            && Get(d, "preferredDate").Num?
            && day.value as real <= Get(d, "preferredDate").n < (day.value + DayMillis) as real)
  {
    AppendMatches(d, FilterOf(query, ListKeys), if day.Some? then DayOf("preferredDate", day.value) else []);
    FilterOfMatches(d, query, ListKeys);
    if day.Some? {
      DayOfMatches(d, "preferredDate", day.value);
    }
  }

  datatype TempleStats = TempleStats(
    totalRequests: nat, approved: nat, rejected: nat, pending: nat,
    byDarshanType: map<Value, nat>, byTemple: map<Value, nat>)

  /** The statistics filter: `templeName` when truthy, and the creation
      time between the parsed `startDate` and `endDate`, both inclusive. */
  function StatsFilter(templeName: Value, start: Option<int>, end: Option<int>): seq<Cond>
  {
    (if Truthy(templeName) then [Equal(["templeName"], templeName)] else [])
    + (if start.Some? then [AtLeast(["createdAt"], start.value as real)] else [])
    + (if end.Some? then [AtMost(["createdAt"], end.value as real)] else [])
  }

  function Stats(s: Snapshot, templeName: Value, start: Option<int>, end: Option<int>): TempleStats
  {
    var f := StatsFilter(templeName, start, end);
    TempleStats(
      Count(s, f),
      Count(s, f + [Equal(["status"], Str("APPROVED"))]),
      Count(s, f + [Equal(["status"], Str("REJECTED"))]),
      Count(s, f + [In(["status"], [Str("REQUESTED"), Str("UNDER_REVIEW")])]),
      Tally(Selected(s, f), "darshanType"),
      Tally(Selected(s, f), "templeName"))
  }

  /** Pending is REQUESTED plus UNDER_REVIEW, and no figure exceeds the
      total. */
  lemma StatsAddUp(s: Snapshot, templeName: Value, start: Option<int>, end: Option<int>)
    ensures var r := Stats(s, templeName, start, end);
      var f := StatsFilter(templeName, start, end);
      && r.pending == Count(s, f + [Equal(["status"], Str("REQUESTED"))])
                    + Count(s, f + [Equal(["status"], Str("UNDER_REVIEW"))])
      && r.approved <= r.totalRequests && r.rejected <= r.totalRequests && r.pending <= r.totalRequests
  {
    var f := StatsFilter(templeName, start, end);
    CountInTwo(s.order, Stamped(s), f, ["status"], Str("REQUESTED"), Str("UNDER_REVIEW"));
    NarrowerCountsLess(s.order, Stamped(s), f, Equal(["status"], Str("APPROVED")));
    NarrowerCountsLess(s.order, Stamped(s), f, Equal(["status"], Str("REJECTED")));
    NarrowerCountsLess(s.order, Stamped(s), f, In(["status"], [Str("REQUESTED"), Str("UNDER_REVIEW")]));
  }
}
