/** The handler shapes several routers share. Every handler that changes a
    record finds it by the `:id` parameter, edits it in place and saves it;
    the save runs the validators and the unique index, and the catch block
    turns any rejection into the router's error code. Each shape is a
    function over a `Snapshot` that says what the handler does, a method on
    a `Collection` that does it step by step, and lemmas about the
    function. */
module Handlers {
  import opened Wrappers
  import opened Text
  import opened Json
  import opened Schema
  import opened Store
  import opened Records

  /** What a handler sends after a successful save: the whole record, or
      one array path of it (`data: temple.comments`). */
  datatype Reply = WholeRecord | PathOf(key: string)

  function Payload(d: Doc, reply: Reply): Value
  {
    match reply
    case WholeRecord => Obj(d)
    case PathOf(key) => Get(d, key)
  }

  /** The reply when the lookup found nothing: 404, or the catch block's
      code when the id could not be cast. */
  function Refusal(look: Lookup, errCode: nat): Response
  {
    if look.Unparsable? then Failed(errCode) else NotFound
  }

  /** `await doc.save()` of an edited record, then the reply. */
  method Save(c: Collection, oid: ObjectId, d: Doc, check: Check, errCode: nat, data: Value)
    returns (r: Response)
    requires oid in c.docs
    modifies c
    ensures c.State() == SaveStep(old(c.State()), oid, d, check, errCode, data).0
    ensures r == SaveStep(old(c.State()), oid, d, check, errCode, data).1
  {
    var fault := c.Write(oid, d, check);
    r := if fault.None? then Ok(data) else Failed(errCode);
  }

  /** `await doc.save()` of a new record, then the 201 reply. */
  method Create(c: Collection, oid: ObjectId, d: Doc, now: int, errCode: nat) returns (r: Response)
    modifies c
    ensures c.State() == CreateStep(old(c.State()), oid, d, now, errCode).0
    ensures r == CreateStep(old(c.State()), oid, d, now, errCode).1
  {
    var fault := c.Add(oid, d, now);
    r := if fault.None? then Created(Obj(d["_id" := Str(oid)])) else Failed(errCode);
  }

  /** A save over a conforming store keeps the invariant. */
  lemma SaveKeepsInv(s: Snapshot, oid: ObjectId, d: Doc, errCode: nat, data: Value)
    requires Inv(s) && oid in s.docs
    ensures Inv(SaveStep(s, oid, d, Full, errCode, data).0)
  {
    CommitKeepsInv(s, oid, d, Full);
  }

  /** A save either stores exactly `d` at `oid` and replies 200, or changes
      nothing and replies with the error code. */
  lemma SaveOutcome(s: Snapshot, oid: ObjectId, d: Doc, check: Check, errCode: nat, data: Value)
    requires oid in s.docs
    ensures var (t, r) := SaveStep(s, oid, d, check, errCode, data);
      && (r == Ok(data) || r == Failed(errCode))
      && (r.Ok? ==> t.docs == s.docs[oid := d] && t.order == s.order && Validates(s.kind, d, check))
      && (r.Failed? ==> t == s)
  {
  }

  // ---------------------------------------------------------------------
  // GET /:id
  // ---------------------------------------------------------------------

  /** `GET /:id`: the record the lookup finds, 404, or the error code when
      the id cannot be cast. */
  function Show(s: Snapshot, id: string, how: Strategy, errCode: nat): Response
  {
    GetStep(s, LookupBy(s, id, how), errCode)
  }

  /** A GET by a record's human identifier returns that record under every
      strategy except the `$or` query and `findById`. */
  lemma ShowByHumanId(s: Snapshot, o: ObjectId, h: string, how: Strategy, errCode: nat)
    requires Inv(s) && o in s.docs && HumanId(s, o) == Str(h) && !IsHex24(h)
    requires how == HexThenHuman || how == HumanThenId || how == HexOrHuman
    ensures Show(s, h, how, errCode) == Ok(Obj(s.docs[o]))
  {
    FindByHumanUnique(s, o, h);
  }

  /** A record just created can be fetched by its human identifier under
      every strategy but the `$or` query and `findById`. */
  lemma CreatedIsShown(s: Snapshot, oid: ObjectId, d: Doc, now: int, h: string, how: Strategy, errCode: nat)
    requires Inv(s) && Get(d, HumanIdField(s.kind)) == Str(h) && !IsHex24(h)
    requires how == HexThenHuman || how == HumanThenId || how == HexOrHuman
    ensures var (t, r) := CreateStep(s, oid, d, now, errCode);
      r.Created? ==>
        && oid in t.docs && t.order == s.order + [oid]
        && Show(t, h, how, errCode) == Ok(Obj(t.docs[oid]))
  {
    var w := Insert(s, oid, d, now);
    InsertKeepsInv(s, oid, d, now);
    if w.Success? {
      assert HumanId(w.value, oid) == Str(h);
      ShowByHumanId(w.value, oid, h, how, errCode);
    }
  }

  /** Under the `$or` query a record just created is found by its `_id`,
      while its own human identifier fails the `_id` cast and answers the
      error code. */
  lemma CreatedIsRefusedByHumanId(s: Snapshot, oid: ObjectId, d: Doc, now: int, h: string, errCode: nat)
    requires Inv(s) && Get(d, HumanIdField(s.kind)) == Str(h) && !IsHex24(h)
    ensures var (t, r) := CreateStep(s, oid, d, now, errCode);
      r.Created? ==>
        && oid in t.docs && t.order == s.order + [oid]
        && LookupBy(t, oid, HumanOrId).Found?
        && Show(t, h, HumanOrId, errCode) == Failed(errCode)
  {
    var w := Insert(s, oid, d, now);
    InsertKeepsInv(s, oid, d, now);
    if w.Success? {
      assert HumanId(w.value, oid) == Str(h);
      HumanOrIdRejectsHumanIds(w.value, oid, h);
    }
  }

  /** A GET never answers with another record than the one the lookup
      names, and answers 404 exactly when the lookup finds nothing. */
  lemma ShowAnswers(s: Snapshot, id: string, how: Strategy, errCode: nat)
    ensures var look := LookupBy(s, id, how);
      && (look.Found? <==> Show(s, id, how, errCode).Ok?)
      && (look.Found? ==> Show(s, id, how, errCode) == Ok(Obj(s.docs[look.oid])))
      && (look.Missing? <==> Show(s, id, how, errCode) == NotFound)
  {
  }

  // ---------------------------------------------------------------------
  // DELETE /:id (hard delete)
  // ---------------------------------------------------------------------

  function Delete(s: Snapshot, id: string, how: Strategy, errCode: nat): (Snapshot, Response)
  {
    DeleteStep(s, LookupBy(s, id, how), errCode)
  }

  /** `findByIdAndDelete`, `findOneAndDelete` or `doc.deleteOne()` of the
      record the lookup finds. */
  method DeleteOn(c: Collection, id: string, how: Strategy, errCode: nat) returns (r: Response)
    modifies c
    ensures c.State() == Delete(old(c.State()), id, how, errCode).0
    ensures r == Delete(old(c.State()), id, how, errCode).1
  {
    var look := LookupBy(c.State(), id, how);
    if !look.Found? {
      return Refusal(look, errCode);
    }
    c.Erase(look.oid);
    r := Deleted;
  }

  lemma DeleteKeepsInv(s: Snapshot, id: string, how: Strategy, errCode: nat)
    requires Inv(s)
    ensures Inv(Delete(s, id, how, errCode).0)
  {
    var look := LookupBy(s, id, how);
    if look.Found? {
      RemoveKeepsInv(s, look.oid);
    }
  }

  /** A delete removes exactly the record the lookup names and keeps every
      other; when the lookup finds nothing the store is unchanged. */
  lemma DeleteRemovesOne(s: Snapshot, id: string, how: Strategy, errCode: nat)
    ensures var (t, r) := Delete(s, id, how, errCode);
      var look := LookupBy(s, id, how);
      && (r == Deleted <==> look.Found?)
      && (look.Found? ==> t.docs == s.docs - {look.oid} && look.oid in s.docs)
      && (!look.Found? ==> t == s)
  {
  }

  // ---------------------------------------------------------------------
  // Appending one entry to an array path
  // ---------------------------------------------------------------------

  /** Find the record, push `entry` onto its array path `key`, save. The
      comment, team-member and milestone handlers have this shape. */
  function Append(s: Snapshot, id: string, how: Strategy, key: string, entry: Value, errCode: nat, reply: Reply)
    : (Snapshot, Response)
  {
    var look := LookupBy(s, id, how);
    if !look.Found? then (s, Refusal(look, errCode))
    else
      var d := Push(s.docs[look.oid], key, entry);
      SaveStep(s, look.oid, d, Full, errCode, Payload(d, reply))
  }

  method AppendOn(c: Collection, id: string, how: Strategy, key: string, entry: Value, errCode: nat, reply: Reply)
    returns (r: Response)
    modifies c
    ensures c.State() == Append(old(c.State()), id, how, key, entry, errCode, reply).0
    ensures r == Append(old(c.State()), id, how, key, entry, errCode, reply).1
  {
    var look := LookupBy(c.State(), id, how);
    if !look.Found? {
      return Refusal(look, errCode);
    }
    var rec := new Record(c.docs[look.oid]);
    rec.Append(key, entry);
    r := Save(c, look.oid, rec.fields, Full, errCode, Payload(rec.fields, reply));
  }

  lemma AppendKeepsInv(s: Snapshot, id: string, how: Strategy, key: string, entry: Value, errCode: nat, reply: Reply)
    requires Inv(s)
    ensures Inv(Append(s, id, how, key, entry, errCode, reply).0)
  {
    var look := LookupBy(s, id, how);
    if look.Found? {
      var d := Push(s.docs[look.oid], key, entry);
      SaveKeepsInv(s, look.oid, d, errCode, Payload(d, reply));
    }
  }

  /** An append that succeeds adds exactly `entry` at the end of path `key`
      of the record found, keeps the earlier entries and every other path;
      any other outcome changes nothing. */
  lemma AppendAddsOne(s: Snapshot, id: string, how: Strategy, key: string, entry: Value, errCode: nat, reply: Reply)
    ensures var (t, r) := Append(s, id, how, key, entry, errCode, reply);
      var look := LookupBy(s, id, how);
      && (r.Ok? ==>
            && look.Found? && look.oid in t.docs
            && t.docs == s.docs[look.oid := t.docs[look.oid]]
            && Entries(Get(t.docs[look.oid], key)) == Entries(Get(s.docs[look.oid], key)) + [entry]
            && forall k :: k != key ==> Get(t.docs[look.oid], k) == Get(s.docs[look.oid], k))
      && (!r.Ok? ==> t == s)
  {
  }

  // ---------------------------------------------------------------------
  // PATCH handlers that edit fixed paths
  // ---------------------------------------------------------------------

  /** Find the record, apply `edit`, save, send the saved record: the shape
      of the status, assign, check-in and escalate handlers. */
  function Patch(s: Snapshot, id: string, how: Strategy, edit: Doc -> Doc, errCode: nat): (Snapshot, Response)
  {
    var look := LookupBy(s, id, how);
    if !look.Found? then (s, Refusal(look, errCode))
    else
      var d := edit(s.docs[look.oid]);
      SaveStep(s, look.oid, d, Full, errCode, Obj(d))
  }

  lemma PatchKeepsInv(s: Snapshot, id: string, how: Strategy, edit: Doc -> Doc, errCode: nat)
    requires Inv(s)
    ensures Inv(Patch(s, id, how, edit, errCode).0)
  {
    var look := LookupBy(s, id, how);
    if look.Found? {
      var d := edit(s.docs[look.oid]);
      SaveKeepsInv(s, look.oid, d, errCode, Obj(d));
    }
  }

  /** A patch that succeeds stores exactly the edited record and sends it;
      a record that is not found, or an edit the validators reject, changes
      nothing. */
  lemma PatchOutcome(s: Snapshot, id: string, how: Strategy, edit: Doc -> Doc, errCode: nat)
    ensures var (t, r) := Patch(s, id, how, edit, errCode);
      var look := LookupBy(s, id, how);
      && (r.Ok? ==> look.Found? && t.docs == s.docs[look.oid := edit(s.docs[look.oid])]
                    && r == Ok(Obj(edit(s.docs[look.oid]))))
      && (!r.Ok? ==> t == s)
      && (look.Found? && !Conforms(s.kind, edit(s.docs[look.oid])) ==> r == Failed(errCode))
  {
  }

  // ---------------------------------------------------------------------
  // PUT /:id of temples and CM relief requests
  // ---------------------------------------------------------------------

  /** Log a status change when `updates.status` is truthy and differs from
      the record's, with `updates.statusComment || "Status updated"`; then
      copy every key except `statusComment` whose value is defined. */
  function LoggedCopy(doc: Doc, updates: Fields, actor: Value, now: int): Doc
  {
    var status := Get(updates, "status");
    var logged :=
      if Truthy(status) && status != Get(doc, "status") then
        Push(doc, "statusHistory",
          HistoryEntry(status, actor, now, "comments", Or(Get(updates, "statusComment"), Str("Status updated"))))
      else doc;
    MergeExcept(logged, updates, {"statusComment"}, true)
  }

  /** The edits of the PUT, on the fetched document. */
  method LogAndCopy(rec: Record, updates: Fields, actor: Value, now: int)
    modifies rec
    ensures rec.fields == LoggedCopy(old(rec.fields), updates, actor, now)
  {
    var status := Get(updates, "status");
    if Truthy(status) && status != Get(rec.fields, "status") {
      rec.Append("statusHistory",
        HistoryEntry(status, actor, now, "comments", Or(Get(updates, "statusComment"), Str("Status updated"))));
    }
    rec.AssignExcept(updates, {"statusComment"}, true);
  }

  /** Unless the request sets `statusHistory` itself, the PUT appends one
      entry exactly when the status is truthy and changed, and that entry
      carries the new status. */
  lemma LoggedCopyHistory(doc: Doc, updates: Fields, actor: Value, now: int)
    requires Get(updates, "statusHistory") == Undefined
    ensures var r := LoggedCopy(doc, updates, actor, now);
      var status := Get(updates, "status");
      var before := Entries(Get(doc, "statusHistory"));
      var after := Entries(Get(r, "statusHistory"));
      && (Truthy(status) && status != Get(doc, "status") ==>
            after == before + [HistoryEntry(status, actor, now, "comments",
                                 Or(Get(updates, "statusComment"), Str("Status updated")))])
      && (!(Truthy(status) && status != Get(doc, "status")) ==> after == before)
  {
  }

  /** Every key of the request but `statusComment` is copied when defined,
      the human identifier included: nothing protects it. */
  lemma LoggedCopyFields(doc: Doc, updates: Fields, actor: Value, now: int, k: string)
    requires k != "statusComment" && k != "statusHistory"
    ensures var r := LoggedCopy(doc, updates, actor, now);
      && (Get(updates, k) != Undefined ==> Get(r, k) == Get(updates, k))
      && (Get(updates, k) == Undefined ==> Get(r, k) == Get(doc, k))
  {
  }

  function LoggedUpdate(s: Snapshot, id: string, updates: Fields, actor: Value, now: int): (Snapshot, Response)
  {
    var look := LookupBy(s, id, HexThenHuman);
    if !look.Found? then (s, Refusal(look, 500))
    else
      var d := LoggedCopy(s.docs[look.oid], updates, actor, now);
      SaveStep(s, look.oid, d, Full, 500, Obj(d))
  }

  method LoggedUpdateOn(c: Collection, id: string, updates: Fields, actor: Value, now: int) returns (r: Response)
    modifies c
    ensures c.State() == LoggedUpdate(old(c.State()), id, updates, actor, now).0
    ensures r == LoggedUpdate(old(c.State()), id, updates, actor, now).1
  {
    var look := LookupBy(c.State(), id, HexThenHuman);
    if !look.Found? {
      return Refusal(look, 500);
    }
    var rec := new Record(c.docs[look.oid]);
    LogAndCopy(rec, updates, actor, now);
    r := Save(c, look.oid, rec.fields, Full, 500, Obj(rec.fields));
  }

  lemma LoggedUpdateKeepsInv(s: Snapshot, id: string, updates: Fields, actor: Value, now: int)
    requires Inv(s)
    ensures Inv(LoggedUpdate(s, id, updates, actor, now).0)
  {
    var look := LookupBy(s, id, HexThenHuman);
    if look.Found? {
      var d := LoggedCopy(s.docs[look.oid], updates, actor, now);
      SaveKeepsInv(s, look.oid, d, 500, Obj(d));
    }
  }

  // ---------------------------------------------------------------------
  // PUT /:id of appointments, CSR projects and programs
  // ---------------------------------------------------------------------

  /** The keys a blacklist PUT never copies: `_id` and the human
      identifier. */
  function Protected(k: Kind): set<string>
  {
    {"_id", HumanIdField(k)}
  }

  /** Find by human identifier then `_id`, copy every key of the request
      but the protected ones (an `undefined` value unsets), save. */
  function CopyUpdate(s: Snapshot, id: string, updates: Fields): (Snapshot, Response)
  {
    var look := LookupBy(s, id, HumanThenId);
    if !look.Found? then (s, Refusal(look, 500))
    else
      var d := MergeExcept(s.docs[look.oid], updates, Protected(s.kind), false);
      SaveStep(s, look.oid, d, Full, 500, Obj(d))
  }

  method CopyUpdateOn(c: Collection, id: string, updates: Fields) returns (r: Response)
    modifies c
    ensures c.State() == CopyUpdate(old(c.State()), id, updates).0
    ensures r == CopyUpdate(old(c.State()), id, updates).1
  {
    var look := LookupBy(c.State(), id, HumanThenId);
    if !look.Found? {
      return Refusal(look, 500);
    }
    var rec := new Record(c.docs[look.oid]);
    rec.AssignExcept(updates, Protected(c.kind), false);
    r := Save(c, look.oid, rec.fields, Full, 500, Obj(rec.fields));
  }

  lemma CopyUpdateKeepsInv(s: Snapshot, id: string, updates: Fields)
    requires Inv(s)
    ensures Inv(CopyUpdate(s, id, updates).0)
  {
    var look := LookupBy(s, id, HumanThenId);
    if look.Found? {
      var d := MergeExcept(s.docs[look.oid], updates, Protected(s.kind), false);
      SaveKeepsInv(s, look.oid, d, 500, Obj(d));
    }
  }

  /** A blacklist PUT that succeeds leaves the record's `_id` and human
      identifier as they were and writes every other key of the request. */
  lemma CopyUpdateProtects(s: Snapshot, id: string, updates: Fields)
    ensures var (t, r) := CopyUpdate(s, id, updates);
      var look := LookupBy(s, id, HumanThenId);
      r.Ok? ==>
        && look.Found? && look.oid in t.docs
        && HumanId(t, look.oid) == HumanId(s, look.oid)
        && Get(t.docs[look.oid], "_id") == Get(s.docs[look.oid], "_id")
        && forall k :: k in updates && k !in Protected(s.kind) ==> Get(t.docs[look.oid], k) == updates[k]
  {
  }

  // ---------------------------------------------------------------------
  // findByIdAndUpdate / findOneAndUpdate
  // ---------------------------------------------------------------------

  /** The record with `update` applied (`$set`): keys whose value is
      `undefined` are dropped from an update, the others are set. */
  function Applied(doc: Doc, update: Fields): Doc
  {
    Overwrite(doc, Defined(update), Defined(update).Keys)
  }

  /** An atomic update with `{new: true}` of the record the lookup finds,
      replying with the updated record. */
  function FindAndUpdate(s: Snapshot, id: string, how: Strategy, update: Fields, check: Check, errCode: nat)
    : (Snapshot, Response)
  {
    var look := LookupBy(s, id, how);
    if !look.Found? then (s, Refusal(look, errCode))
    else
      var d := Applied(s.docs[look.oid], update);
      SaveStep(s, look.oid, d, check, errCode, Obj(d))
  }

  method FindAndUpdateOn(c: Collection, id: string, how: Strategy, update: Fields, check: Check, errCode: nat)
    returns (r: Response)
    modifies c
    ensures c.State() == FindAndUpdate(old(c.State()), id, how, update, check, errCode).0
    ensures r == FindAndUpdate(old(c.State()), id, how, update, check, errCode).1
  {
    var look := LookupBy(c.State(), id, how);
    if !look.Found? {
      return Refusal(look, errCode);
    }
    var d := Applied(c.docs[look.oid], update);
    r := Save(c, look.oid, d, check, errCode, Obj(d));
  }

  /** An update that succeeds stores the record with every defined key of
      the update set and every other path kept; any other outcome changes
      nothing. */
  lemma FindAndUpdateOutcome(s: Snapshot, id: string, how: Strategy, update: Fields, check: Check, errCode: nat)
    ensures var (t, r) := FindAndUpdate(s, id, how, update, check, errCode);
      var look := LookupBy(s, id, how);
      && (!r.Ok? ==> t == s)
      && (!look.Found? ==> r == Refusal(look, errCode))
      && (r.Ok? ==>
            && look.Found? && look.oid in t.docs
            && t.docs == s.docs[look.oid := t.docs[look.oid]]
            && (forall k :: Get(update, k) != Undefined ==> Get(t.docs[look.oid], k) == Get(update, k))
            && (forall k :: Get(update, k) == Undefined ==> Get(t.docs[look.oid], k) == Get(s.docs[look.oid], k)))
  {
  }

  /** An update with the validators of the paths it sets keeps the
      invariant, and so does one without validators on emergencies. */
  lemma FindAndUpdateKeepsInv(s: Snapshot, id: string, how: Strategy, update: Fields, check: Check, errCode: nat)
    requires Inv(s)
    requires check == OnKeys(Defined(update).Keys) || (check == Unchecked && s.kind == Emergency)
    ensures Inv(FindAndUpdate(s, id, how, update, check, errCode).0)
  {
    var look := LookupBy(s, id, how);
    if look.Found? {
      var d := Applied(s.docs[look.oid], update);
      CommitKeepsInv(s, look.oid, d, check);
    }
  }
}
