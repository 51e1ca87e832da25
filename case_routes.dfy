/** The generic case router. A case is looked up by `_id` when the id is 24
    hex digits and by `caseId` otherwise for the GET and the PUT, and by
    `findById` alone for the status patch, the comment and the soft delete.
    A new case is numbered `CASE-<year>-<count + 1>` and assembled from the
    request by the intake rules; every write answers 400 on an error, the
    reads and the soft delete 500. */
module CaseRoutes {
  import opened Wrappers
  import opened Text
  import opened Json
  import opened Schema
  import opened Store
  import opened Records
  import opened Listing
  import Ids
  import Models
  import Handlers
  import Intake

  // ---------------------------------------------------------------------
  // POST /
  // ---------------------------------------------------------------------

  /** `CASE-<year>-<pad6(count + 1)>` with `count` the stored cases. */
  function NextId(s: Snapshot, year: nat): string
  {
    Ids.CountId("CASE-", year, |s.docs|)
  }

  /** `new Case(caseData)` */
  function NewCase(data: Fields): Doc
  {
    Construct(Case, data)
  }

  /** Build the case data (which throws on a duration that is not a
      string), construct, save; any failure answers 400. */
  function Create(s: Snapshot, body: Fields, user: Value, now: int, year: nat, oid: ObjectId): (Snapshot, Response)
  {
    match Intake.CaseData(body, NextId(s, year), user, now)
    case Failure(_) => (s, Failed(400))
    case Success(data) => CreateStep(s, oid, NewCase(data), now, 400)
  }

  method CreateOn(c: Collection, body: Fields, user: Value, now: int, year: nat, oid: ObjectId) returns (r: Response)
    modifies c
    ensures (c.State(), r) == Create(old(c.State()), body, user, now, year, oid)
  {
    var data := Intake.CaseData(body, NextId(c.State(), year), user, now);
    if data.Failure? {
      return Failed(400);
    }
    var rec := new Record(NewCase(data.value));
    r := Handlers.Create(c, oid, rec.fields, now, 400);
  }

  lemma CreateKeepsInv(s: Snapshot, body: Fields, user: Value, now: int, year: nat, oid: ObjectId)
    requires Inv(s)
    ensures Inv(Create(s, body, user, now, year, oid).0)
  {
    var data := Intake.CaseData(body, NextId(s, year), user, now);
    if data.Success? {
      InsertKeepsInv(s, oid, NewCase(data.value), now);
    }
  }

  /** The top-level paths of the case data that `new Case` keeps as given
      when they are defined: none of them has a nested default. */
  lemma ConstructedKey(data: Fields, k: string)
    requires k in {"caseId", "caseType", "citizenName", "subject", "description", "department", "priority", "status"}
    ensures Get(data, k) != Undefined ==> Get(NewCase(data), k) == Get(data, k)
  {
    ConstructTopLevel(Case, data, k);
  }

  /** `sla.status` of the case data survives the nested default. */
  lemma ConstructedSla(data: Fields)
    requires GetPath(Get(data, "sla"), ["status"]) == Str("within-sla")
    ensures GetPath(Get(NewCase(data), "sla"), ["status"]) == Str("within-sla")
  {
    ConstructNested(Case, data, "sla", "status");
  }

  /** What the intake guarantees of the case data. */
  predicate Assembled(data: Fields, body: Fields, caseId: string)
  {
    var f := Intake.FormOf(body);
    && Get(data, "caseId") == Str(caseId)
    && Get(data, "caseType") == f.caseType
    && Get(data, "citizenName") == Intake.CitizenName(f.details) && Truthy(Get(data, "citizenName"))
    && Get(data, "subject") == Intake.Subject(f.details) && Truthy(Get(data, "subject"))
    && Get(data, "description") == Or(Prop(f.details, "description"), Str(""))
    && Get(data, "department") == Intake.Department(f.details, f.assignment)
    && Get(data, "priority") == Intake.Priority(f.details, f.assignment)
    && Truthy(Get(data, "status"))
    && GetPath(Get(data, "sla"), ["status"]) == Str("within-sla")
  }

  /** What `new Case` keeps of it. */
  predicate Constructed(d: Doc, body: Fields, caseId: string)
  {
    var f := Intake.FormOf(body);
    && Get(d, "caseId") == Str(caseId)
    && (f.caseType != Undefined ==> Get(d, "caseType") == f.caseType)
    && Get(d, "citizenName") == Intake.CitizenName(f.details) && Truthy(Get(d, "citizenName"))
    && Get(d, "subject") == Intake.Subject(f.details) && Truthy(Get(d, "subject"))
    && Get(d, "description") == Or(Prop(f.details, "description"), Str(""))
    && Get(d, "department") == Intake.Department(f.details, f.assignment)
    && Get(d, "priority") == Intake.Priority(f.details, f.assignment)
    && Truthy(Get(d, "status"))
    && GetPath(Get(d, "sla"), ["status"]) == Str("within-sla")
  }

  lemma IntakeAssembles(body: Fields, caseId: string, user: Value, now: int)
    ensures var r := Intake.CaseData(body, caseId, user, now);
      r.Success? ==> Assembled(r.value, body, caseId)
  {
    Intake.CaseDataShape(body, caseId, user, now);
  }

  lemma ConstructKeeps(data: Fields, body: Fields, caseId: string)
    requires Assembled(data, body, caseId)
    ensures Constructed(NewCase(data), body, caseId)
  {
    var f := Intake.FormOf(body);
    Intake.ChainIsTruthy([Prop(f.details, "department"), Prop(f.assignment, "department")], Str("General"));
    Intake.ChainIsTruthy([Prop(f.details, "priority"), Prop(f.assignment, "priority")], Str("P3"));
    ConstructedKey(data, "caseId");
    ConstructedKey(data, "caseType");
    ConstructedKey(data, "citizenName");
    ConstructedKey(data, "subject");
    ConstructedKey(data, "description");
    ConstructedKey(data, "department");
    ConstructedKey(data, "priority");
    ConstructedKey(data, "status");
    ConstructedSla(data);
  }

  /** A new case carries its generated identifier, its module, a citizen
      name and a subject that are never empty, the description or "", the
      department and priority the intake chose, a status, and an SLA marked
      within time. */
  lemma NewCaseShape(body: Fields, caseId: string, user: Value, now: int)
    ensures var r := Intake.CaseData(body, caseId, user, now);
      r.Success? ==> Constructed(NewCase(r.value), body, caseId)
  {
    var r := Intake.CaseData(body, caseId, user, now);
    IntakeAssembles(body, caseId, user, now);
    if r.Success? {
      ConstructKeeps(r.value, body, caseId);
    }
  }

  lemma NotHex(s: Snapshot, year: nat)
    ensures !IsHex24(NextId(s, year))
  {
    assert StartsWith(NextId(s, year), "CASE-");
    assert NextId(s, year)[2] == "CASE-"[2] == 'S';
  }

  /** Once saved, a case is found by its `caseId` and by its `_id`. */
  lemma SavedIsFindable(s: Snapshot, d: Doc, oid: ObjectId, now: int, caseId: string)
    requires Inv(s) && s.kind == Case && Get(d, "caseId") == Str(caseId) && !IsHex24(caseId)
    ensures var (t, r) := CreateStep(s, oid, d, now, 400);
      r.Created? ==>
        && oid in t.docs && t.order == s.order + [oid]
        && Show(t, caseId) == Ok(Obj(t.docs[oid]))
        && Show(t, oid) == Ok(Obj(t.docs[oid]))
  {
    Handlers.CreatedIsShown(s, oid, d, now, caseId, HexOrHuman, 500);
    SurrogateCast(oid);
  }

  /** A created case is stored under `oid` and can then be fetched by its
      generated `caseId` as well as by its `_id`. */
  lemma CreatedIsFindable(s: Snapshot, body: Fields, user: Value, now: int, year: nat, oid: ObjectId)
    requires Inv(s) && s.kind == Case
    ensures var (t, r) := Create(s, body, user, now, year, oid);
      r.Created? ==>
        && oid in t.docs && t.order == s.order + [oid]
        && Show(t, NextId(s, year)) == Ok(Obj(t.docs[oid]))
        && Show(t, oid) == Ok(Obj(t.docs[oid]))
  {
    var caseId := NextId(s, year);
    var data := Intake.CaseData(body, caseId, user, now);
    NewCaseShape(body, caseId, user, now);
    if data.Success? {
      NotHex(s, year);
      SavedIsFindable(s, NewCase(data.value), oid, now, caseId);
    }
  }

  /** A case that breaks rule `i` of the schema is refused with 400 and
      changes nothing. */
  lemma BrokenRuleRefused(s: Snapshot, oid: ObjectId, d: Doc, now: int, i: nat)
    requires i < |Rules(s.kind)| && Rules(s.kind)[i].key != "_id"
    requires !Passes(Rules(s.kind)[i], Get(d, Rules(s.kind)[i].key))
    ensures CreateStep(s, oid, d, now, 400) == (s, Failed(400))
  {
    assert Get(d["_id" := Str(oid)], Rules(s.kind)[i].key) == Get(d, Rules(s.kind)[i].key);
  }

  lemma UnknownModuleBreaksRule(s: Snapshot, oid: ObjectId, d: Doc, now: int)
    requires s.kind == Case && Get(d, "caseType").Str? && Get(d, "caseType").s !in CaseTypes
    ensures CreateStep(s, oid, d, now, 400) == (s, Failed(400))
  {
    assert Rules(Case)[2] == OneOf("caseType", [], CaseTypes);
    BrokenRuleRefused(s, oid, d, now, 2);
  }

  lemma EmptyDescriptionBreaksRule(s: Snapshot, oid: ObjectId, d: Doc, now: int)
    requires s.kind == Case && Get(d, "description") == Str("")
    ensures CreateStep(s, oid, d, now, 400) == (s, Failed(400))
  {
    assert Rules(Case)[5] == Required("description", []);
    BrokenRuleRefused(s, oid, d, now, 5);
  }

  /** A module outside the eight fails the `caseType` enumeration: the
      create answers 400 and stores nothing. */
  lemma UnknownModuleRefused(s: Snapshot, body: Fields, user: Value, now: int, year: nat, oid: ObjectId)
    requires s.kind == Case
    requires Intake.FormOf(body).caseType.Str? && Intake.FormOf(body).caseType.s !in CaseTypes
    ensures Create(s, body, user, now, year, oid) == (s, Failed(400))
  {
    var data := Intake.CaseData(body, NextId(s, year), user, now);
    NewCaseShape(body, NextId(s, year), user, now);
    if data.Success? {
      UnknownModuleBreaksRule(s, oid, NewCase(data.value), now);
    }
  }

  /** The intake falls back to an empty description, but the schema
      requires one and the required validator refuses "": a case whose
      details carry no description is never stored. */
  lemma MissingDescriptionRefused(s: Snapshot, body: Fields, user: Value, now: int, year: nat, oid: ObjectId)
    requires s.kind == Case
    requires !Truthy(Prop(Intake.FormOf(body).details, "description"))
    ensures Create(s, body, user, now, year, oid) == (s, Failed(400))
  {
    var data := Intake.CaseData(body, NextId(s, year), user, now);
    NewCaseShape(body, NextId(s, year), user, now);
    if data.Success? {
      EmptyDescriptionBreaksRule(s, oid, NewCase(data.value), now);
    }
  }

  // ---------------------------------------------------------------------
  // GET /:id and PUT /:id
  // ---------------------------------------------------------------------

  function Show(s: Snapshot, id: string): Response
  {
    Handlers.Show(s, id, HexOrHuman, 500)
  }

  /** `$set: req.body` with the validators of the paths set. */
  function Update(s: Snapshot, id: string, body: Fields): (Snapshot, Response)
  {
    Handlers.FindAndUpdate(s, id, HexOrHuman, body, OnKeys(Defined(body).Keys), 400)
  }

  method UpdateOn(c: Collection, id: string, body: Fields) returns (r: Response)
    modifies c
    ensures (c.State(), r) == Update(old(c.State()), id, body)
  {
    r := Handlers.FindAndUpdateOn(c, id, HexOrHuman, body, OnKeys(Defined(body).Keys), 400);
  }

  lemma UpdateKeepsInv(s: Snapshot, id: string, body: Fields)
    requires Inv(s)
    ensures Inv(Update(s, id, body).0)
  {
    Handlers.FindAndUpdateKeepsInv(s, id, HexOrHuman, body, OnKeys(Defined(body).Keys), 400);
  }

  /** The PUT answers 404, never the catch block, for an id that names
      nothing; and it validates what it sets: an unknown status is refused
      with 400 and changes nothing. */
  lemma UpdateRefusals(s: Snapshot, id: string, body: Fields)
    requires s.kind == Case
    ensures !LookupBy(s, id, HexOrHuman).Found? ==> Update(s, id, body) == (s, NotFound)
    ensures LookupBy(s, id, HexOrHuman).Found? && Get(body, "status").Str? && Get(body, "status").s !in StatusValues(Case)
      ==> Update(s, id, body) == (s, Failed(400))
  {
    var look := LookupBy(s, id, HexOrHuman);
    if look.Found? && Get(body, "status").Str? && Get(body, "status").s !in StatusValues(Case) {
      var d := Handlers.Applied(s.docs[look.oid], body);
      assert Get(d, "status") == Get(body, "status");
      assert "status" in Defined(body).Keys;
      UnknownStatusRefused(Case, d, Defined(body).Keys);
    }
  }

  // ---------------------------------------------------------------------
  // PATCH /:id/status and POST /:id/comments
  // ---------------------------------------------------------------------

  /** `caseData.updateStatus(status, userId, comments)` */
  function StatusLogged(doc: Doc, body: Fields, now: int): Doc
  {
    var status := Get(body, "status");
    Models.StatusChanged(doc, status, Models.LogEntry(status, Get(body, "userId"), Get(body, "comments"), now))
  }

  function SetStatus(s: Snapshot, id: string, body: Fields, now: int): (Snapshot, Response)
  {
    Handlers.Patch(s, id, IdOnly, d => StatusLogged(d, body, now), 400)
  }

  method SetStatusOn(c: Collection, id: string, body: Fields, now: int) returns (r: Response)
    modifies c
    ensures (c.State(), r) == SetStatus(old(c.State()), id, body, now)
  {
    var look := LookupBy(c.State(), id, IdOnly);
    if !look.Found? {
      return Handlers.Refusal(look, 400);
    }
    var rec := new Record(c.docs[look.oid]);
    Models.UpdateStatus(rec, Get(body, "status"), Get(body, "userId"), Get(body, "comments"), now);
    r := Handlers.Save(c, look.oid, rec.fields, Full, 400, Obj(rec.fields));
  }

  lemma SetStatusKeepsInv(s: Snapshot, id: string, body: Fields, now: int)
    requires Inv(s)
    ensures Inv(SetStatus(s, id, body, now).0)
  {
    Handlers.PatchKeepsInv(s, id, IdOnly, d => StatusLogged(d, body, now), 400);
  }

  /** A status patch that succeeds sets the status and logs exactly one
      entry naming it, the user and the comments; a status outside the
      enumeration is refused with 400 and changes nothing. */
  lemma SetStatusLogs(s: Snapshot, id: string, body: Fields, now: int)
    requires s.kind == Case
    ensures var (t, r) := SetStatus(s, id, body, now);
      var look := LookupBy(s, id, IdOnly);
      var status := Get(body, "status");
      && (r.Ok? ==>
            && look.Found? && look.oid in t.docs
            && Get(t.docs[look.oid], "status") == status
            && Entries(Get(t.docs[look.oid], "statusHistory"))
               == Entries(Get(s.docs[look.oid], "statusHistory"))
                  + [Models.LogEntry(status, Get(body, "userId"), Get(body, "comments"), now)])
      && (!r.Ok? ==> t == s)
      && (look.Found? && status.Str? && status.s !in StatusValues(Case) ==> r == Failed(400))
  {
    var look := LookupBy(s, id, IdOnly);
    Handlers.PatchOutcome(s, id, IdOnly, d => StatusLogged(d, body, now), 400);
    if look.Found? && Get(body, "status").Str? && Get(body, "status").s !in StatusValues(Case) {
      UnknownStatusRefused(Case, StatusLogged(s.docs[look.oid], body, now), {"status"});
    }
  }

  /** `caseData.addComment(userId, text)` */
  function Comment(s: Snapshot, id: string, body: Fields, now: int): (Snapshot, Response)
  {
    Handlers.Append(s, id, IdOnly, "comments", Models.NoteEntry(Get(body, "userId"), Get(body, "text"), now),
                    400, Handlers.WholeRecord)
  }

  method CommentOn(c: Collection, id: string, body: Fields, now: int) returns (r: Response)
    modifies c
    ensures (c.State(), r) == Comment(old(c.State()), id, body, now)
  {
    r := Handlers.AppendOn(c, id, IdOnly, "comments", Models.NoteEntry(Get(body, "userId"), Get(body, "text"), now),
                           400, Handlers.WholeRecord);
  }

  lemma CommentKeepsInv(s: Snapshot, id: string, body: Fields, now: int)
    requires Inv(s)
    ensures Inv(Comment(s, id, body, now).0)
  {
    Handlers.AppendKeepsInv(s, id, IdOnly, "comments", Models.NoteEntry(Get(body, "userId"), Get(body, "text"), now),
                            400, Handlers.WholeRecord);
  }

  // ---------------------------------------------------------------------
  // DELETE /:id (soft delete)
  // ---------------------------------------------------------------------

  const Closed: Fields := map["status" := Str("closed")]

  /** `findByIdAndUpdate(id, {status: "closed"}, {new: true})`, without
      validators, replying with a message only. */
  function Close(s: Snapshot, id: string): (Snapshot, Response)
  {
    var (t, r) := Handlers.FindAndUpdate(s, id, IdOnly, Closed, Unchecked, 500);
    (t, if r.Ok? then Deleted else r)
  }

  method CloseOn(c: Collection, id: string) returns (r: Response)
    modifies c
    ensures (c.State(), r) == Close(old(c.State()), id)
  {
    r := Handlers.FindAndUpdateOn(c, id, IdOnly, Closed, Unchecked, 500);
    if r.Ok? {
      r := Deleted;
    }
  }

  /** Closing changes the status alone. */
  lemma ClosedOnlyStatus(doc: Doc)
    ensures var d := Handlers.Applied(doc, Closed);
      && Get(d, "status") == Str("closed")
      && forall k :: k != "status" ==> Get(d, k) == Get(doc, k)
  {
    assert Defined(Closed).Keys == {"status"};
  }

  /** "closed" is one of the statuses a case may have, so a conforming case
      whose status alone becomes "closed" still conforms. */
  lemma ClosedStillConforms(before: Doc, after: Doc)
    requires Conforms(Case, before)
    requires Get(after, "status") == Str("closed")
    requires forall k :: k != "status" ==> Get(after, k) == Get(before, k)
    ensures Conforms(Case, after)
  {
    var rs := Rules(Case);
    forall i | 0 <= i < |rs|
      ensures Passes(rs[i], Get(after, rs[i].key))
    {
      if rs[i].key != "status" {
        assert Get(after, rs[i].key) == Get(before, rs[i].key);
      }
    }
  }

  /** A write that keeps a stored case's `caseId` cannot clash with the
      unique index. */
  lemma KeptIdCannotClash(s: Snapshot, oid: ObjectId, d: Doc)
    requires Inv(s) && s.kind == Case && oid in s.docs
    requires Get(d, "caseId") == Get(s.docs[oid], "caseId")
    ensures !Clash(s, oid, d)
  {
    forall o | o in s.docs && o != oid
      ensures IndexKey(Get(s.docs[o], HumanIdField(s.kind))) != IndexKey(Get(d, HumanIdField(s.kind)))
    {
      assert IndexKey(HumanId(s, o)) != IndexKey(HumanId(s, oid));
    }
  }

  /** Closing a stored case keeps its `_id` and `caseId` and leaves it
      conforming, so the write cannot fail. */
  lemma ClosedConforms(s: Snapshot, oid: ObjectId)
    requires Inv(s) && s.kind == Case && oid in s.docs
    ensures var d := Handlers.Applied(s.docs[oid], Closed);
      && Conforms(Case, d)
      && Get(d, "_id") == Str(oid)
      && !Clash(s, oid, d)
  {
    var d := Handlers.Applied(s.docs[oid], Closed);
    ClosedOnlyStatus(s.docs[oid]);
    ClosedStillConforms(s.docs[oid], d);
    KeptIdCannotClash(s, oid, d);
  }

  lemma CloseKeepsInv(s: Snapshot, id: string)
    requires Inv(s) && s.kind == Case
    ensures Inv(Close(s, id).0)
  {
    var look := LookupBy(s, id, IdOnly);
    if look.Found? {
      ClosedConforms(s, look.oid);
      CommitKeepsInv(s, look.oid, Handlers.Applied(s.docs[look.oid], Closed), Unchecked);
    }
  }

  /** The soft delete keeps the case: one found by its `_id` is always
      closed, with every other path kept, and the reply carries no record;
      an unknown id answers 404 and a malformed one 500. */
  lemma CloseOutcome(s: Snapshot, id: string)
    requires Inv(s) && s.kind == Case
    ensures var (t, r) := Close(s, id);
      var look := LookupBy(s, id, IdOnly);
      && (look.Found? ==>
            && r == Deleted && t.docs.Keys == s.docs.Keys
            && t.docs == s.docs[look.oid := t.docs[look.oid]]
            && Get(t.docs[look.oid], "status") == Str("closed")
            && forall k :: k != "status" ==> Get(t.docs[look.oid], k) == Get(s.docs[look.oid], k))
      && (look.Missing? ==> t == s && r == NotFound)
      && (look.Unparsable? ==> t == s && r == Failed(500))
  {
    var look := LookupBy(s, id, IdOnly);
    if look.Found? {
      var d := Handlers.Applied(s.docs[look.oid], Closed);
      ClosedConforms(s, look.oid);
      ClosedOnlyStatus(s.docs[look.oid]);
      assert Commit(s, look.oid, d, Unchecked) == Success(s.(docs := s.docs[look.oid := d]));
    }
  }

  // ---------------------------------------------------------------------
  // GET / and GET /stats/dashboard
  // ---------------------------------------------------------------------

  const ListKeys := ["status", "department", "district", "priority", "caseType"]

  function ListCases(s: Snapshot, query: Fields, page: int, limit: int): ListReply
  {
    List(s, FilterOf(query, ListKeys), page, limit)
  }

  /** A case is listed exactly when it agrees with every truthy filter
      parameter. */
  lemma ListedMatch(d: Doc, query: Fields)
    ensures Matches(d, FilterOf(query, ListKeys)) <==> forall i :: 0 <= i < |ListKeys| ==> Agrees(d, query, ListKeys[i])
  {
    FilterOfMatches(d, query, ListKeys);
  }

  const StatsKeys := ["department", "district"]

  datatype CaseStats = CaseStats(
    total: nat, pending: nat, inProgress: nat, completed: nat, breached: nat, compliance: real)

  /** The share of cases within their SLA, in percent; 100 when there are
      none. */
  function Compliance(total: nat, breached: nat): real
  {
    if total > 0 then ((total - breached) as real / total as real) * 100.0 else 100.0
  }

  function Stats(s: Snapshot, query: Fields): CaseStats
  {
    var f := FilterOf(query, StatsKeys);
    var total := Count(s, f);
    var breached := Count(s, f + [Equal(["sla", "status"], Str("breached"))]);
    CaseStats(
      total,
      Count(s, f + [Equal(["status"], Str("pending"))]),
      Count(s, f + [Equal(["status"], Str("in-progress"))]),
      Count(s, f + [Equal(["status"], Str("completed"))]),
      breached,
      Compliance(total, breached))
  }

  /** The compliance lies between 0 and 100, is 100 exactly when no case
      breached its SLA, and 0 exactly when every case did. */
  lemma ComplianceBounds(total: nat, breached: nat)
    requires breached <= total
    ensures 0.0 <= Compliance(total, breached) <= 100.0
    ensures Compliance(total, breached) == 100.0 <==> breached == 0
    ensures total > 0 ==> (Compliance(total, breached) == 0.0 <==> breached == total)
  {
    if total > 0 {
      var t := total as real;
      var q := (total - breached) as real / t;
      assert q * t == (total - breached) as real;
    }
  }

  /** Every figure counts cases within the query, so none exceeds the
      total; pending and in progress are disjoint; the compliance is a
      percentage. */
  lemma StatsBounded(s: Snapshot, query: Fields)
    ensures var r := Stats(s, query);
      && r.pending <= r.total && r.inProgress <= r.total && r.completed <= r.total && r.breached <= r.total
      && r.pending + r.inProgress <= r.total
      && 0.0 <= r.compliance <= 100.0
      && (r.compliance == 100.0 <==> r.breached == 0)
  {
    var f := FilterOf(query, StatsKeys);
    var docs := Stamped(s);
    NarrowerCountsLess(s.order, docs, f, Equal(["status"], Str("pending")));
    NarrowerCountsLess(s.order, docs, f, Equal(["status"], Str("in-progress")));
    NarrowerCountsLess(s.order, docs, f, Equal(["status"], Str("completed")));
    NarrowerCountsLess(s.order, docs, f, Equal(["sla", "status"], Str("breached")));
    NarrowerCountsLess(s.order, docs, f, In(["status"], [Str("pending"), Str("in-progress")]));
    CountInTwo(s.order, docs, f, ["status"], Str("pending"), Str("in-progress"));
    ComplianceBounds(Count(s, f), Count(s, f + [Equal(["sla", "status"], Str("breached"))]));
  }
}
