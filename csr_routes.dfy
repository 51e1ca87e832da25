/** The CSR industrial project router. A new project is the body with the
    `CSR-AP-<year>-<count + 1>` identifier forced over it. The status patch
    sets the status without any history; milestones are pushed as
    sub-documents with their own `_id` and edited in place by it. Every
    lookup tries `csrId` first, then `_id`, and any error answers 500. */
module CSRRoutes {
  import opened Wrappers
  import opened Text
  import opened Json
  import opened Schema
  import opened Store
  import opened Records
  import opened Listing
  import Ids
  import Handlers

  // ---------------------------------------------------------------------
  // POST /
  // ---------------------------------------------------------------------

  function NextId(s: Snapshot, year: nat): string
  {
    Ids.CountId("CSR-AP-", year, |s.docs|)
  }

  /** `new CSRIndustrial({...req.body, csrId})` */
  function NewProject(body: Fields, csrId: string): Doc
  {
    Construct(CSRIndustrial, body["csrId" := Str(csrId)])
  }

  function Create(s: Snapshot, body: Fields, now: int, year: nat, oid: ObjectId): (Snapshot, Response)
  {
    CreateStep(s, oid, NewProject(body, NextId(s, year)), now, 500)
  }

  method CreateOn(c: Collection, body: Fields, now: int, year: nat, oid: ObjectId) returns (r: Response)
    modifies c
    ensures c.State() == Create(old(c.State()), body, now, year, oid).0
    ensures r == Create(old(c.State()), body, now, year, oid).1
  {
    var csrId := Ids.CountId("CSR-AP-", year, |c.docs|);
    var rec := new Record(Construct(CSRIndustrial, body["csrId" := Str(csrId)]));
    r := Handlers.Create(c, oid, rec.fields, now, 500);
  }

  /** The generated identifier wins over the body's; an unset status is
      LEAD and an unset progress 0. */
  lemma NewProjectShape(body: Fields, csrId: string)
    ensures var d := NewProject(body, csrId);
      && Get(d, "csrId") == Str(csrId)
      && Get(d, "status") == (if Get(body, "status") == Undefined then Str("LEAD") else Get(body, "status"))
      && Get(d, "progressPercentage") ==
           (if Get(body, "progressPercentage") == Undefined then Num(0.0) else Get(body, "progressPercentage"))
  {
    var g := body["csrId" := Str(csrId)];
    ConstructedKey(g, "csrId");
    ConstructedKey(g, "status");
    ConstructedKey(g, "progressPercentage");
  }

  lemma ConstructedKey(g: Fields, k: string)
    requires k in {"csrId", "status", "progressPercentage"}
    ensures Get(Construct(CSRIndustrial, g), k) ==
      if Get(g, k) != Undefined then Get(g, k)
      else if k == "status" then Str("LEAD")
      else if k == "progressPercentage" then Num(0.0)
      else Undefined
  {
    ConstructTopLevel(CSRIndustrial, g, k);
  }

  lemma CreateKeepsInv(s: Snapshot, body: Fields, now: int, year: nat, oid: ObjectId)
    requires Inv(s)
    ensures Inv(Create(s, body, now, year, oid).0)
  {
    InsertKeepsInv(s, oid, NewProject(body, NextId(s, year)), now);
  }

  lemma NotHex(s: Snapshot, year: nat)
    ensures !IsHex24(NextId(s, year))
  {
    assert NextId(s, year)[1] == 'S';
  }

  /** A created project is stored under `oid` and can then be fetched by
      its generated identifier. */
  lemma CreatedIsFindable(s: Snapshot, body: Fields, now: int, year: nat, oid: ObjectId)
    requires Inv(s) && HumanIdField(s.kind) == "csrId"
    ensures var (t, r) := Create(s, body, now, year, oid);
      r.Created? ==>
        && oid in t.docs && t.order == s.order + [oid]
        && Handlers.Show(t, NextId(s, year), HumanThenId, 500) == Ok(Obj(t.docs[oid]))
  {
    NotHex(s, year);
    NewProjectShape(body, NextId(s, year));
    Handlers.CreatedIsShown(s, oid, NewProject(body, NextId(s, year)), now, NextId(s, year), HumanThenId, 500);
  }

  // ---------------------------------------------------------------------
  // PATCH /:id/status and PATCH /:id/assign
  // ---------------------------------------------------------------------

  /** The status as given (no history is kept); truthy notes replace the
      progress notes. */
  function StatusSet(doc: Doc, body: Fields): Doc
  {
    var d := Put(doc, "status", Get(body, "status"));
    if Truthy(Get(body, "notes")) then Put(d, "progressNotes", Get(body, "notes")) else d
  }

  function SetStatus(s: Snapshot, id: string, body: Fields): (Snapshot, Response)
  {
    Handlers.Patch(s, id, HumanThenId, d => StatusSet(d, body), 500)
  }

  method SetStatusOn(c: Collection, id: string, body: Fields) returns (r: Response)
    modifies c
    ensures c.State() == SetStatus(old(c.State()), id, body).0
    ensures r == SetStatus(old(c.State()), id, body).1
  {
    var look := LookupBy(c.State(), id, HumanThenId);
    if !look.Found? {
      return Handlers.Refusal(look, 500);
    }
    var rec := new Record(c.docs[look.oid]);
    rec.Set("status", Get(body, "status"));
    if Truthy(Get(body, "notes")) {
      rec.Set("progressNotes", Get(body, "notes"));
    }
    r := Handlers.Save(c, look.oid, rec.fields, Full, 500, Obj(rec.fields));
  }

  /** The status patch keeps no history: the status history, like every
      path but the status and the progress notes, is as it was. */
  lemma StatusSetShape(doc: Doc, body: Fields)
    ensures var r := StatusSet(doc, body);
      && Get(r, "status") == Get(body, "status")
      && Get(r, "progressNotes") == Or(Get(body, "notes"), Get(doc, "progressNotes"))
      && forall k :: k != "status" && k != "progressNotes" ==> Get(r, k) == Get(doc, k)
  {
  }

  lemma SetStatusKeepsInv(s: Snapshot, id: string, body: Fields)
    requires Inv(s)
    ensures Inv(SetStatus(s, id, body).0)
  {
    Handlers.PatchKeepsInv(s, id, HumanThenId, d => StatusSet(d, body), 500);
  }

  /** The status is required on projects: a patch without one is rejected
      by the save and changes nothing. */
  lemma StatusRequired(s: Snapshot, id: string, body: Fields)
    requires s.kind == CSRIndustrial && !Present(Get(body, "status"))
    ensures SetStatus(s, id, body).0 == s && !SetStatus(s, id, body).1.Ok?
  {
    var look := LookupBy(s, id, HumanThenId);
    Handlers.PatchOutcome(s, id, HumanThenId, d => StatusSet(d, body), 500);
    if look.Found? {
      StatusSetShape(s.docs[look.oid], body);
      UnsetStatusFails(StatusSet(s.docs[look.oid], body));
    }
  }

  lemma UnsetStatusFails(d: Doc)
    requires !Present(Get(d, "status"))
    ensures !Conforms(CSRIndustrial, d)
  {
    assert Rules(CSRIndustrial)[9] == Required("status", []);
  }

  /** The assignee as given (`undefined` unassigns) and the date. */
  function Assigned(doc: Doc, body: Fields, now: int): Doc
  {
    Put(Put(doc, "assignedTo", Get(body, "assignedTo")), "assignedDate", Num(now as real))
  }

  function AssignTo(s: Snapshot, id: string, body: Fields, now: int): (Snapshot, Response)
  {
    Handlers.Patch(s, id, HumanThenId, d => Assigned(d, body, now), 500)
  }

  method AssignToOn(c: Collection, id: string, body: Fields, now: int) returns (r: Response)
    modifies c
    ensures c.State() == AssignTo(old(c.State()), id, body, now).0
    ensures r == AssignTo(old(c.State()), id, body, now).1
  {
    var look := LookupBy(c.State(), id, HumanThenId);
    if !look.Found? {
      return Handlers.Refusal(look, 500);
    }
    var rec := new Record(c.docs[look.oid]);
    rec.Set("assignedTo", Get(body, "assignedTo"));
    rec.Set("assignedDate", Num(now as real));
    r := Handlers.Save(c, look.oid, rec.fields, Full, 500, Obj(rec.fields));
  }

  /** A successful assignment stores the assignee and `now`, and nothing
      else changes. */
  lemma AssignToStamps(s: Snapshot, id: string, body: Fields, now: int)
    ensures var (t, r) := AssignTo(s, id, body, now);
      var look := LookupBy(s, id, HumanThenId);
      r.Ok? ==>
        && look.Found? && look.oid in t.docs
        && Get(t.docs[look.oid], "assignedTo") == Get(body, "assignedTo")
        && Get(t.docs[look.oid], "assignedDate") == Num(now as real)
        && forall k :: k != "assignedTo" && k != "assignedDate" ==> Get(t.docs[look.oid], k) == Get(s.docs[look.oid], k)
  {
    Handlers.PatchOutcome(s, id, HumanThenId, d => Assigned(d, body, now), 500);
  }

  lemma AssignToKeepsInv(s: Snapshot, id: string, body: Fields, now: int)
    requires Inv(s)
    ensures Inv(AssignTo(s, id, body, now).0)
  {
    Handlers.PatchKeepsInv(s, id, HumanThenId, d => Assigned(d, body, now), 500);
  }

  // ---------------------------------------------------------------------
  // POST /:id/comments and POST /:id/milestones
  // ---------------------------------------------------------------------

  function Comment(s: Snapshot, id: string, body: Fields, now: int): (Snapshot, Response)
  {
    Handlers.Append(s, id, HumanThenId, "comments",
                    CommentEntry("user", Get(body, "user"), Get(body, "text"), now), 500, Handlers.WholeRecord)
  }

  /** The pushed milestone: the body, with its own `_id` unless the body
      names one, and status PENDING unless the body sets one. */
  function NewMilestone(body: Fields, mid: ObjectId): Value
  {
    var given := if Get(body, "_id") == Undefined then body["_id" := Str(mid)] else body;
    ElementWithDefaults(CSRIndustrial, "milestones", Obj(given))
  }

  function AddMilestone(s: Snapshot, id: string, body: Fields, mid: ObjectId): (Snapshot, Response)
  {
    Handlers.Append(s, id, HumanThenId, "milestones", NewMilestone(body, mid), 500, Handlers.WholeRecord)
  }

  /** `e` is the milestone that `mid` names once cast to an ObjectId; a
      string that does not cast names no milestone. */
  predicate IsMilestone(e: Value, mid: string)
  {
    e.Obj? && CastId(mid).Some? && Get(e.fields, "_id") == Str(CastId(mid).value)
  }

  /** `milestones.id(mid)`: the first milestone whose `_id` is `mid` cast
      to an ObjectId. */
  function FindMilestone(items: seq<Value>, mid: string): (r: Option<nat>)
    ensures !IsHex24(mid) ==> r.None?
    ensures r.Some? ==>
      && r.value < |items| && IsMilestone(items[r.value], mid)
      && forall j :: 0 <= j < r.value ==> !IsMilestone(items[j], mid)
    ensures r.None? ==> forall j :: 0 <= j < |items| ==> !IsMilestone(items[j], mid)
  {
    if items == [] then None
    else if IsMilestone(items[0], mid) then Some(0)
    else
      match FindMilestone(items[1..], mid)
      case None => None
      case Some(i) => Some(i + 1)
  }

  /** Two strings that cast to the same ObjectId (the same hex digits in
      either case) find the same milestone. */
  lemma {:induction false} MilestoneIdsCastAlike(items: seq<Value>, a: string, b: string)
    requires CastId(a) == CastId(b)
    ensures FindMilestone(items, a) == FindMilestone(items, b)
  {
    if items != [] {
      MilestoneIdsCastAlike(items[1..], a, b);
    }
  }

  /** A milestone added with a fresh `_id` is the one found by that id. */
  lemma AddedMilestoneIsFound(doc: Doc, body: Fields, mid: ObjectId)
    requires Get(body, "_id") == Undefined
    requires FindMilestone(Entries(Get(doc, "milestones")), mid).None?
    ensures var items := Entries(Get(Push(doc, "milestones", NewMilestone(body, mid)), "milestones"));
      FindMilestone(items, mid) == Some(|Entries(Get(doc, "milestones"))|)
  {
    var before := Entries(Get(doc, "milestones"));
    var items := Entries(Get(Push(doc, "milestones", NewMilestone(body, mid)), "milestones"));
    var e := NewMilestone(body, mid);
    SurrogateCast(mid);
    assert e.Obj? && Get(e.fields, "_id") == Pick(body["_id" := Str(mid)], map["status" := Str("PENDING")], "_id");
    assert items == before + [e];
    assert forall j :: 0 <= j < |before| ==> items[j] == before[j];
    MilestoneUnique(items, mid, |before|);
  }

  /** The only match is the first one. */
  lemma MilestoneUnique(items: seq<Value>, mid: string, i: nat)
    requires i < |items| && IsMilestone(items[i], mid)
    requires forall j :: 0 <= j < i ==> !IsMilestone(items[j], mid)
    ensures FindMilestone(items, mid) == Some(i)
  {
  }

  /** `Object.keys(updates).forEach(key => milestone[key] = updates[key])`
      on the milestone found; `None` when there is none. */
  function MilestoneEdited(doc: Doc, mid: string, updates: Fields): Option<Doc>
  {
    var items := Entries(Get(doc, "milestones"));
    match FindMilestone(items, mid)
    case None => None
    case Some(i) =>
      Some(doc["milestones" := Arr(items[i := Obj(MergeExcept(items[i].fields, updates, {}, false))])])
  }

  /** `PATCH /:id/milestones/:milestoneId`: 404 for an unknown project or
      milestone. */
  function UpdateMilestone(s: Snapshot, id: string, mid: string, updates: Fields): (Snapshot, Response)
  {
    var look := LookupBy(s, id, HumanThenId);
    if !look.Found? then (s, Handlers.Refusal(look, 500))
    else
      match MilestoneEdited(s.docs[look.oid], mid, updates)
      case None => (s, NotFound)
      case Some(d) => SaveStep(s, look.oid, d, Full, 500, Obj(d))
  }

  method UpdateMilestoneOn(c: Collection, id: string, mid: string, updates: Fields) returns (r: Response)
    modifies c
    ensures c.State() == UpdateMilestone(old(c.State()), id, mid, updates).0
    ensures r == UpdateMilestone(old(c.State()), id, mid, updates).1
  {
    var look := LookupBy(c.State(), id, HumanThenId);
    if !look.Found? {
      return Handlers.Refusal(look, 500);
    }
    var doc := c.docs[look.oid];
    var items := Entries(Get(doc, "milestones"));
    var found := FindMilestone(items, mid);
    if found.None? {
      return NotFound;
    }
    var milestone := new Record(items[found.value].fields);
    milestone.AssignExcept(updates, {}, false);
    var d := doc["milestones" := Arr(items[found.value := Obj(milestone.fields)])];
    r := Handlers.Save(c, look.oid, d, Full, 500, Obj(d));
  }

  /** A milestone update that succeeds writes every key of the body onto
      the milestone found and changes no other milestone and no other
      path; an unknown milestone answers 404 and changes nothing. */
  lemma UpdateMilestoneOutcome(s: Snapshot, id: string, mid: string, updates: Fields)
    ensures var (t, r) := UpdateMilestone(s, id, mid, updates);
      var look := LookupBy(s, id, HumanThenId);
      && (!r.Ok? ==> t == s)
      && (look.Found? && FindMilestone(Entries(Get(s.docs[look.oid], "milestones")), mid).None? ==> r == NotFound)
      && (r.Ok? ==>
            var before := Entries(Get(s.docs[look.oid], "milestones"));
            var i := FindMilestone(before, mid).value;
            && look.Found? && look.oid in t.docs
            && var after := Entries(Get(t.docs[look.oid], "milestones"));
            && |after| == |before| && after[i].Obj?
            && (forall k :: k in updates ==> Get(after[i].fields, k) == updates[k])
            && (forall k :: k !in updates ==> Get(after[i].fields, k) == Get(before[i].fields, k))
            && (forall j :: 0 <= j < |before| && j != i ==> after[j] == before[j])
            && (forall k :: k != "milestones" ==> Get(t.docs[look.oid], k) == Get(s.docs[look.oid], k)))
  {
    var look := LookupBy(s, id, HumanThenId);
    if look.Found? {
      var doc := s.docs[look.oid];
      var e := MilestoneEdited(doc, mid, updates);
      if e.Some? {
        MilestoneEditedShape(doc, mid, updates);
        Handlers.SaveOutcome(s, look.oid, e.value, Full, 500, Obj(e.value));
      }
    }
  }

  /** The edit touches the found milestone's fields named in `updates`
      and nothing else. */
  lemma MilestoneEditedShape(doc: Doc, mid: string, updates: Fields)
    requires MilestoneEdited(doc, mid, updates).Some?
    ensures var before := Entries(Get(doc, "milestones"));
      var i := FindMilestone(before, mid).value;
      var d := MilestoneEdited(doc, mid, updates).value;
      var after := Entries(Get(d, "milestones"));
      && |after| == |before| && after[i].Obj?
      && (forall k :: k in updates ==> Get(after[i].fields, k) == updates[k])
      && (forall k :: k !in updates ==> Get(after[i].fields, k) == Get(before[i].fields, k))
      && (forall j :: 0 <= j < |before| && j != i ==> after[j] == before[j])
      && (forall k :: k != "milestones" ==> Get(d, k) == Get(doc, k))
  {
    var before := Entries(Get(doc, "milestones"));
    var i := FindMilestone(before, mid).value;
    assert Copied(updates, {}, false) == updates.Keys;
  }

  lemma UpdateMilestoneKeepsInv(s: Snapshot, id: string, mid: string, updates: Fields)
    requires Inv(s)
    ensures Inv(UpdateMilestone(s, id, mid, updates).0)
  {
    var look := LookupBy(s, id, HumanThenId);
    if look.Found? {
      var e := MilestoneEdited(s.docs[look.oid], mid, updates);
      if e.Some? {
        Handlers.SaveKeepsInv(s, look.oid, e.value, 500, Obj(e.value));
      }
    }
  }

  // ---------------------------------------------------------------------
  // GET / and GET /stats/overview
  // ---------------------------------------------------------------------

  /** The exact-match parameters (`companyName` is a regular expression,
      which is not part of this model). */
  const ListKeys := ["status", "projectCategory", "district", "assignedTo", "dueDiligenceStatus", "priority"]

  function ListProjects(s: Snapshot, query: Fields, page: int, limit: int): ListReply
  {
    List(s, FilterOf(query, ListKeys), page, limit)
  }

  datatype CSRStats = CSRStats(
    total: nat, active: nat, completed: nat, totalBudget: real, approvedBudget: real,
    byStatus: map<Value, nat>, byCategory: map<Value, nat>)

  function Stats(s: Snapshot): CSRStats
  {
    var all := Selected(s, []);
    CSRStats(
      Count(s, []),
      Count(s, [In(["status"], [Str("IN_EXECUTION"), Str("MOU_SIGNED")])]),
      Count(s, [Equal(["status"], Str("COMPLETED"))]),
      Sum(s, [NotIn(["status"], [Str("REJECTED")])], "proposedBudget"),
      Sum(s, [HasValue(["approvedBudget"])], "approvedBudget"),
      Tally(all, "status"), Tally(all, "projectCategory"))
  }

  /** Active is IN_EXECUTION plus MOU_SIGNED; the budget total and the
      rejected projects' budgets make up all proposed budgets; the approved
      total is the plain sum of approved budgets. */
  lemma StatsAddUp(s: Snapshot)
    ensures var r := Stats(s);
      && r.active == Count(s, [Equal(["status"], Str("IN_EXECUTION"))]) + Count(s, [Equal(["status"], Str("MOU_SIGNED"))])
      && r.active <= r.total && r.completed <= r.total
      && r.totalBudget + Sum(s, [In(["status"], [Str("REJECTED")])], "proposedBudget") == Sum(s, [], "proposedBudget")
      && r.approvedBudget == Sum(s, [], "approvedBudget")
  {
    var none: seq<Cond> := [];
    CountInTwo(s.order, Stamped(s), none, ["status"], Str("IN_EXECUTION"), Str("MOU_SIGNED"));
    NarrowerCountsLess(s.order, Stamped(s), none, In(["status"], [Str("IN_EXECUTION"), Str("MOU_SIGNED")]));
    NarrowerCountsLess(s.order, Stamped(s), none, Equal(["status"], Str("COMPLETED")));
    SumSplits(s.order, Stamped(s), none, ["status"], [Str("REJECTED")], "proposedBudget");
    SumOverSet(s.order, Stamped(s), none, "approvedBudget");
    assert none + [Equal(["status"], Str("IN_EXECUTION"))] == [Equal(["status"], Str("IN_EXECUTION"))];
    assert none + [Equal(["status"], Str("MOU_SIGNED"))] == [Equal(["status"], Str("MOU_SIGNED"))];
    assert none + [Equal(["status"], Str("COMPLETED"))] == [Equal(["status"], Str("COMPLETED"))];
    assert none + [In(["status"], [Str("IN_EXECUTION"), Str("MOU_SIGNED")])]
        == [In(["status"], [Str("IN_EXECUTION"), Str("MOU_SIGNED")])];
    assert none + [In(["status"], [Str("REJECTED")])] == [In(["status"], [Str("REJECTED")])];
    assert none + [NotIn(["status"], [Str("REJECTED")])] == [NotIn(["status"], [Str("REJECTED")])];
    assert none + [HasValue(["approvedBudget"])] == [HasValue(["approvedBudget"])];
  }
}
