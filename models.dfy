/** The methods the models define on a document: a status change that
    appends to `statusHistory`, a comment appended to `comments`, scheduling
    a dispute hearing, the emergency pre-save hook, the age of a case, and
    the static `updateStatus` of CM relief and education requests, which
    looks a record up by its human identifier and saves it. */
module Models {
  import opened Wrappers
  import opened Json
  import opened Schema
  import opened Store
  import opened Records
  import Ids

  /** `doc` after its status became `status` with `entry` logged. */
  function StatusChanged(doc: Fields, status: Value, entry: Value): (r: Fields)
    ensures Get(r, "status") == status
    ensures Entries(Get(r, "statusHistory")) == Entries(Get(doc, "statusHistory")) + [entry]
    ensures forall k :: k != "status" && k != "statusHistory" ==> Get(r, k) == Get(doc, k)
  {
    Put(Push(doc, "statusHistory", entry), "status", status)
  }

  /** `doc` with `entry` appended to `comments`. */
  function Commented(doc: Fields, entry: Value): (r: Fields)
    ensures Entries(Get(r, "comments")) == Entries(Get(doc, "comments")) + [entry]
    ensures forall k :: k != "comments" ==> Get(r, k) == Get(doc, k)
  {
    Push(doc, "comments", entry)
  }

  /** The history entry `updateStatus(newStatus, userId, comments)` logs. */
  function LogEntry(status: Value, userId: Value, comments: Value, now: int): Value
  {
    HistoryEntry(status, userId, now, "comments", comments)
  }

  /** The comment `addComment(userId, text)` appends. */
  function NoteEntry(userId: Value, text: Value, now: int): Value
  {
    CommentEntry("userId", userId, text, now)
  }

  /** `doc.updateStatus(newStatus, userId, comments)` of temples, disputes
      and cases: push `{status, changedBy, changedAt, comments}`, then set
      the status. */
  method UpdateStatus(rec: Record, newStatus: Value, userId: Value, comments: Value, now: int)
    modifies rec
    ensures rec.fields == StatusChanged(old(rec.fields), newStatus, LogEntry(newStatus, userId, comments, now))
  {
    rec.Append("statusHistory", LogEntry(newStatus, userId, comments, now));
    rec.Set("status", newStatus);
  }

  /** `doc.addComment(userId, text)` of temples, CM relief, education and
      cases. */
  method AddComment(rec: Record, userId: Value, text: Value, now: int)
    modifies rec
    ensures rec.fields == Commented(old(rec.fields), NoteEntry(userId, text, now))
  {
    rec.Append("comments", NoteEntry(userId, text, now));
  }

  /** `doc` with a hearing scheduled. */
  function HearingScheduled(doc: Fields, date: Value, time: Value, place: Value, notes: Value): (r: Fields)
    ensures Get(r, "hearingDate") == date && Get(r, "hearingTime") == time
    ensures Get(r, "hearingPlace") == place && Get(r, "hearingNotes") == notes
    ensures Get(r, "status") == Str("MEDIATION_SCHEDULED")
    ensures Entries(Get(r, "statusHistory")) == Entries(Get(doc, "statusHistory"))
    ensures forall k :: k !in {"hearingDate", "hearingTime", "hearingPlace", "hearingNotes", "status"} ==>
      Get(r, k) == Get(doc, k)
  {
    var d := Put(Put(doc, "hearingDate", date), "hearingTime", time);
    Put(Put(Put(d, "hearingPlace", place), "hearingNotes", notes), "status", Str("MEDIATION_SCHEDULED"))
  }

  /** `dispute.scheduleHearing(date, time, place, notes)`: no history entry. */
  method ScheduleHearing(rec: Record, date: Value, time: Value, place: Value, notes: Value)
    modifies rec
    ensures rec.fields == HearingScheduled(old(rec.fields), date, time, place, notes)
  {
    rec.Set("hearingDate", date);
    rec.Set("hearingTime", time);
    rec.Set("hearingPlace", place);
    rec.Set("hearingNotes", notes);
    rec.Set("status", Str("MEDIATION_SCHEDULED"));
  }

  /** `doc` after the emergency pre-save hook ran with `count` records
      stored at time `now`. */
  function WithEmergencyId(doc: Fields, count: nat, now: int): (r: Fields)
    ensures Truthy(Get(doc, "emergencyId")) ==> r == doc
    ensures !Truthy(Get(doc, "emergencyId")) ==> Get(r, "emergencyId") == Str(Ids.EmergencyId(now, count))
    ensures forall k :: k != "emergencyId" ==> Get(r, k) == Get(doc, k)
  {
    if Truthy(Get(doc, "emergencyId")) then doc else Put(doc, "emergencyId", Str(Ids.EmergencyId(now, count)))
  }

  /** The emergency pre-save hook: assigns an identifier only when the
      document has none. */
  method PreSave(rec: Record, count: nat, now: int)
    modifies rec
    ensures rec.fields == WithEmergencyId(old(rec.fields), count, now)
  {
    if !Truthy(Get(rec.fields, "emergencyId")) {
      rec.Set("emergencyId", Str(Ids.EmergencyId(now, count)));
    }
  }

  /** Running the hook on a document it has already saved changes nothing. */
  lemma PreSaveIdempotent(doc: Fields, count: nat, now: int, count': nat, now': int)
    ensures WithEmergencyId(WithEmergencyId(doc, count, now), count', now') == WithEmergencyId(doc, count, now)
  {
  }

  const DayMillis := 1000 * 60 * 60 * 24

  /** The `ageInDays` virtual: whole days since creation, rounded down. */
  function AgeInDays(now: int, createdAt: int): (days: int)
    ensures days * DayMillis <= now - createdAt < (days + 1) * DayMillis
    ensures now >= createdAt ==> days >= 0
  {
    (now - createdAt) / DayMillis
  }

  // ---------------------------------------------------------------------
  // The static updateStatus of CM relief and education requests
  // ---------------------------------------------------------------------

  /** The comment a static `updateStatus` logs: the given one, or
      `Status changed to <status>`. */
  function StaticNote(status: Value, comments: Value): Value
  {
    Or(comments, StatusChangedNote(status))
  }

  /** The record `Model.updateStatus` saves: status set first, then the
      entry pushed. */
  function StaticStatusChanged(doc: Fields, status: Value, userId: Value, comments: Value, now: int): Fields
  {
    Push(Put(doc, "status", status), "statusHistory", LogEntry(status, userId, StaticNote(status, comments), now))
  }

  /** `Model.updateStatus(humanId, status, userId, comments)`: find by human
      identifier, set the status, log it, save. */
  function StaticUpdateStatus(s: Snapshot, humanId: string, status: Value, userId: Value, comments: Value, now: int)
    : (Snapshot, Result<Doc, Fault>)
  {
    match FindByHuman(s, humanId)
    case None => (s, Failure(NoSuchRecord))
    case Some(oid) =>
      var d := StaticStatusChanged(s.docs[oid], status, userId, comments, now);
      var w := Commit(s, oid, d, Full);
      (After(s, w), if w.Success? then Success(d) else Failure(w.error))
  }

  /** The body of a static `updateStatus` between finding and saving. */
  method SetStatusAndLog(rec: Record, status: Value, userId: Value, comments: Value, now: int)
    modifies rec
    ensures rec.fields == StaticStatusChanged(old(rec.fields), status, userId, comments, now)
  {
    rec.Set("status", status);
    rec.Append("statusHistory", LogEntry(status, userId, StaticNote(status, comments), now));
  }

  method StaticUpdateStatusOn(c: Collection, humanId: string, status: Value, userId: Value, comments: Value, now: int)
    returns (r: Result<Doc, Fault>)
    modifies c
    ensures c.State() == StaticUpdateStatus(old(c.State()), humanId, status, userId, comments, now).0
    ensures r == StaticUpdateStatus(old(c.State()), humanId, status, userId, comments, now).1
  {
    ghost var s := c.State();
    var found := FindByHuman(c.State(), humanId);
    if found.None? {
      return Failure(NoSuchRecord);
    }
    var oid := found.value;
    var rec := new Record(c.docs[oid]);
    SetStatusAndLog(rec, status, userId, comments, now);
    StaticUpdateStatusFound(s, humanId, oid, status, userId, comments, now);
    var fault := c.Write(oid, rec.fields, Full);
    r := if fault.None? then Success(rec.fields) else Failure(fault.value);
  }

  lemma StaticUpdateStatusFound(s: Snapshot, humanId: string, oid: ObjectId, status: Value, userId: Value,
                                comments: Value, now: int)
    requires FindByHuman(s, humanId) == Some(oid)
    ensures var d := StaticStatusChanged(s.docs[oid], status, userId, comments, now);
      var w := Commit(s, oid, d, Full);
      StaticUpdateStatus(s, humanId, status, userId, comments, now)
        == (After(s, w), if FaultOf(w).None? then Success(d) else Failure(FaultOf(w).value))
  {
  }

  /** A static `updateStatus` keeps the store invariant. */
  lemma StaticUpdateStatusKeepsInv(s: Snapshot, humanId: string, status: Value, userId: Value, comments: Value, now: int)
    requires Inv(s)
    ensures Inv(StaticUpdateStatus(s, humanId, status, userId, comments, now).0)
  {
    var found := FindByHuman(s, humanId);
    if found.Some? {
      var oid := found.value;
      CommitKeepsInv(s, oid, StaticStatusChanged(s.docs[oid], status, userId, comments, now), Full);
    }
  }

  /** `t` holds `d` in place of record `oid` of `s`, and `d` has status
      `status` and exactly one more history entry, carrying that status. */
  ghost predicate LoggedAt(s: Snapshot, t: Snapshot, oid: ObjectId, d: Doc, status: Value)
    requires oid in s.docs
  {
    var before := Entries(Get(s.docs[oid], "statusHistory"));
    var after := Entries(Get(d, "statusHistory"));
    && t.docs == s.docs[oid := d]
    && Get(d, "status") == status
    && |after| == |before| + 1
    && after[..|before|] == before
    && Prop(after[|before|], "status") == status
  }

  /** A static `updateStatus` either fails and changes nothing, or saves the
      record its human identifier names with the new status and exactly one
      more history entry. */
  lemma StaticUpdateStatusLogs(s: Snapshot, humanId: string, status: Value, userId: Value, comments: Value, now: int)
    ensures var (t, r) := StaticUpdateStatus(s, humanId, status, userId, comments, now);
      && (r.Failure? ==> t == s)
      && (FindByHuman(s, humanId).None? ==> r == Failure(NoSuchRecord))
      && (r.Success? ==> FindByHuman(s, humanId).Some? && LoggedAt(s, t, FindByHuman(s, humanId).value, r.value, status))
  {
    var (t, r) := StaticUpdateStatus(s, humanId, status, userId, comments, now);
    if r.Success? {
      var oid := FindByHuman(s, humanId).value;
      var h := Entries(Get(s.docs[oid], "statusHistory"));
      assert Get(Put(s.docs[oid], "status", status), "statusHistory") == Get(s.docs[oid], "statusHistory");
      assert Entries(Get(r.value, "statusHistory")) == h + [LogEntry(status, userId, StaticNote(status, comments), now)];
    }
  }
}
