/** The program and job-mela router. A new program is the body with the
    `PRG-AP-NLR-<year>-<count + 1>` identifier forced over it. Every status
    patch logs an entry, whether or not the status changed; feedback
    refreshes the feedback count and average rating. Every lookup tries
    `programId` first, then `_id`, and any error answers 500. */
module ProgramRoutes {
  import opened Wrappers
  import opened Text
  import opened Json
  import opened Schema
  import opened Store
  import opened Records
  import opened Listing
  import Ids
  import Handlers

  // ---------------------------------------------------------------------
  // POST /
  // ---------------------------------------------------------------------

  function NextId(s: Snapshot, year: nat): string
  {
    Ids.CountId("PRG-AP-NLR-", year, |s.docs|)
  }

  /** `new Program({...req.body, programId})` */
  function NewProgram(body: Fields, programId: string): Doc
  {
    Construct(Program, body["programId" := Str(programId)])
  }

  function Create(s: Snapshot, body: Fields, now: int, year: nat, oid: ObjectId): (Snapshot, Response)
  {
    CreateStep(s, oid, NewProgram(body, NextId(s, year)), now, 500)
  }

  method CreateOn(c: Collection, body: Fields, now: int, year: nat, oid: ObjectId) returns (r: Response)
    modifies c
    ensures c.State() == Create(old(c.State()), body, now, year, oid).0
    ensures r == Create(old(c.State()), body, now, year, oid).1
  {
    var programId := Ids.CountId("PRG-AP-NLR-", year, |c.docs|);
    var rec := new Record(Construct(Program, body["programId" := Str(programId)]));
    r := Handlers.Create(c, oid, rec.fields, now, 500);
  }

  /** The generated identifier wins over the body's; an unset type is
      PROGRAM and an unset status PLANNED. */
  lemma NewProgramShape(body: Fields, programId: string)
    ensures var d := NewProgram(body, programId);
      && Get(d, "programId") == Str(programId)
      && Get(d, "type") == (if Get(body, "type") == Undefined then Str("PROGRAM") else Get(body, "type"))
      && Get(d, "status") == (if Get(body, "status") == Undefined then Str("PLANNED") else Get(body, "status"))
  {
    var g := body["programId" := Str(programId)];
    ConstructedId(g);
    ConstructedType(g);
    ConstructedStatus(g);
  }

  lemma ConstructedId(g: Fields)
    requires Get(g, "programId").Str?
    ensures Get(Construct(Program, g), "programId") == Get(g, "programId")
  {
    ConstructTopLevel(Program, g, "programId");
  }

  lemma ConstructedType(g: Fields)
    ensures Get(Construct(Program, g), "type") == if Get(g, "type") != Undefined then Get(g, "type") else Str("PROGRAM")
  {
    assert "type" !in NestedDefaults(Program) && "type" !in ElementDefaults(Program);
    assert TopDefaults(Program)["type"] == Str("PROGRAM");
    ConstructTopLevel(Program, g, "type");
  }

  lemma ConstructedStatus(g: Fields)
    ensures Get(Construct(Program, g), "status") == if Get(g, "status") != Undefined then Get(g, "status") else Str("PLANNED")
  {
    assert "status" !in NestedDefaults(Program) && "status" !in ElementDefaults(Program);
    assert TopDefaults(Program)["status"] == Str("PLANNED");
    ConstructTopLevel(Program, g, "status");
  }

  lemma CreateKeepsInv(s: Snapshot, body: Fields, now: int, year: nat, oid: ObjectId)
    requires Inv(s)
    ensures Inv(Create(s, body, now, year, oid).0)
  {
    InsertKeepsInv(s, oid, NewProgram(body, NextId(s, year)), now);
  }

  lemma NotHex(s: Snapshot, year: nat)
    ensures !IsHex24(NextId(s, year))
  {
    assert NextId(s, year)[1] == 'R';
  }

  /** A created program is stored under `oid` and can then be fetched by
      its generated identifier. */
  lemma CreatedIsFindable(s: Snapshot, body: Fields, now: int, year: nat, oid: ObjectId)
    requires Inv(s) && HumanIdField(s.kind) == "programId"
    ensures var (t, r) := Create(s, body, now, year, oid);
      r.Created? ==>
        && oid in t.docs && t.order == s.order + [oid]
        && Handlers.Show(t, NextId(s, year), HumanThenId, 500) == Ok(Obj(t.docs[oid]))
  {
    NotHex(s, year);
    NewProgramShape(body, NextId(s, year));
    Handlers.CreatedIsShown(s, oid, NewProgram(body, NextId(s, year)), now, NextId(s, year), HumanThenId, 500);
  }

  // ---------------------------------------------------------------------
  // PATCH /:id/status and PATCH /:id/assign
  // ---------------------------------------------------------------------

  function StatusEntry(body: Fields, now: int): Value
  {
    HistoryEntry(Get(body, "status"), Get(body, "changedBy"), now, "notes", Get(body, "notes"))
  }

  /** The status as given, and one history entry for it. */
  function StatusLogged(doc: Doc, body: Fields, now: int): Doc
  {
    Push(Put(doc, "status", Get(body, "status")), "statusHistory", StatusEntry(body, now))
  }

  function SetStatus(s: Snapshot, id: string, body: Fields, now: int): (Snapshot, Response)
  {
    Handlers.Patch(s, id, HumanThenId, d => StatusLogged(d, body, now), 500)
  }

  method SetStatusOn(c: Collection, id: string, body: Fields, now: int) returns (r: Response)
    modifies c
    ensures c.State() == SetStatus(old(c.State()), id, body, now).0
    ensures r == SetStatus(old(c.State()), id, body, now).1
  {
    var look := LookupBy(c.State(), id, HumanThenId);
    if !look.Found? {
      return Handlers.Refusal(look, 500);
    }
    var rec := new Record(c.docs[look.oid]);
    rec.Set("status", Get(body, "status"));
    rec.Append("statusHistory", StatusEntry(body, now));
    r := Handlers.Save(c, look.oid, rec.fields, Full, 500, Obj(rec.fields));
  }

  /** A successful status patch grows the history by exactly one entry,
      naming the new status, even when the status is unchanged. */
  lemma SetStatusLogs(s: Snapshot, id: string, body: Fields, now: int)
    ensures var (t, r) := SetStatus(s, id, body, now);
      var look := LookupBy(s, id, HumanThenId);
      r.Ok? ==>
        && look.Found? && look.oid in t.docs
        && Get(t.docs[look.oid], "status") == Get(body, "status")
        && Entries(Get(t.docs[look.oid], "statusHistory"))
             == Entries(Get(s.docs[look.oid], "statusHistory")) + [StatusEntry(body, now)]
        && forall k :: k != "status" && k != "statusHistory" ==> Get(t.docs[look.oid], k) == Get(s.docs[look.oid], k)
  {
    Handlers.PatchOutcome(s, id, HumanThenId, d => StatusLogged(d, body, now), 500);
  }

  lemma SetStatusKeepsInv(s: Snapshot, id: string, body: Fields, now: int)
    requires Inv(s)
    ensures Inv(SetStatus(s, id, body, now).0)
  {
    Handlers.PatchKeepsInv(s, id, HumanThenId, d => StatusLogged(d, body, now), 500);
  }

  function Assigned(doc: Doc, body: Fields, now: int): Doc
  {
    Put(Put(doc, "assignedTo", Get(body, "assignedTo")), "assignedDate", Num(now as real))
  }

  function AssignTo(s: Snapshot, id: string, body: Fields, now: int): (Snapshot, Response)
  {
    Handlers.Patch(s, id, HumanThenId, d => Assigned(d, body, now), 500)
  }

  method AssignToOn(c: Collection, id: string, body: Fields, now: int) returns (r: Response)
    modifies c
    ensures c.State() == AssignTo(old(c.State()), id, body, now).0
    ensures r == AssignTo(old(c.State()), id, body, now).1
  {
    var look := LookupBy(c.State(), id, HumanThenId);
    if !look.Found? {
      return Handlers.Refusal(look, 500);
    }
    var rec := new Record(c.docs[look.oid]);
    rec.Set("assignedTo", Get(body, "assignedTo"));
    rec.Set("assignedDate", Num(now as real));
    r := Handlers.Save(c, look.oid, rec.fields, Full, 500, Obj(rec.fields));
  }

  /** A successful assignment stores the assignee and `now`, and nothing
      else changes. */
  lemma AssignToStamps(s: Snapshot, id: string, body: Fields, now: int)
    ensures var (t, r) := AssignTo(s, id, body, now);
      var look := LookupBy(s, id, HumanThenId);
      r.Ok? ==>
        && look.Found? && look.oid in t.docs
        && Get(t.docs[look.oid], "assignedTo") == Get(body, "assignedTo")
        && Get(t.docs[look.oid], "assignedDate") == Num(now as real)
        && forall k :: k != "assignedTo" && k != "assignedDate" ==> Get(t.docs[look.oid], k) == Get(s.docs[look.oid], k)
  {
    Handlers.PatchOutcome(s, id, HumanThenId, d => Assigned(d, body, now), 500);
  }

  lemma AssignToKeepsInv(s: Snapshot, id: string, body: Fields, now: int)
    requires Inv(s)
    ensures Inv(AssignTo(s, id, body, now).0)
  {
    Handlers.PatchKeepsInv(s, id, HumanThenId, d => Assigned(d, body, now), 500);
  }

  // ---------------------------------------------------------------------
  // POST /:id/comments and POST /:id/team-members
  // ---------------------------------------------------------------------

  function Remark(body: Fields, now: int): Value
  {
    CommentEntry("user", Get(body, "user"), Get(body, "text"), now)
  }

  function Comment(s: Snapshot, id: string, body: Fields, now: int): (Snapshot, Response)
  {
    Handlers.Append(s, id, HumanThenId, "comments", Remark(body, now), 500, Handlers.WholeRecord)
  }

  /** Program comments require a user and a text: a comment without
      either is rejected by the save and changes nothing. */
  lemma CommentNeedsUserAndText(s: Snapshot, id: string, body: Fields, now: int)
    requires s.kind == Program
    requires !Present(Get(body, "user")) || !Present(Get(body, "text"))
    ensures Comment(s, id, body, now).0 == s && !Comment(s, id, body, now).1.Ok?
  {
    Handlers.AppendAddsOne(s, id, HumanThenId, "comments", Remark(body, now), 500, Handlers.WholeRecord);
    var look := LookupBy(s, id, HumanThenId);
    if look.Found? {
      var d := Push(s.docs[look.oid], "comments", Remark(body, now));
      UnreadableCommentFails(d, Remark(body, now));
      Handlers.SaveOutcome(s, look.oid, d, Full, 500, Handlers.Payload(d, Handlers.WholeRecord));
    }
  }

  lemma UnreadableCommentFails(d: Doc, e: Value)
    requires e.Obj? && (!Present(Get(e.fields, "user")) || !Present(Get(e.fields, "text")))
    requires var cs := Entries(Get(d, "comments")); |cs| > 0 && cs[|cs| - 1] == e
    ensures !Conforms(Program, d)
  {
    var cs := Entries(Get(d, "comments"));
    assert Rules(Program)[8] == EachRequired("comments", "user");
    assert Rules(Program)[9] == EachRequired("comments", "text");
    if !Present(Get(e.fields, "user")) {
      assert !Passes(Rules(Program)[8], Get(d, "comments")) by {
        assert cs[|cs| - 1].Obj? && !Present(Get(cs[|cs| - 1].fields, "user"));
      }
    } else {
      assert !Passes(Rules(Program)[9], Get(d, "comments")) by {
        assert cs[|cs| - 1].Obj? && !Present(Get(cs[|cs| - 1].fields, "text"));
      }
    }
  }

  /** `{user, role, responsibilities}` */
  function TeamMember(body: Fields): Value
  {
    Obj(Defined(map["user" := Get(body, "user"), "role" := Get(body, "role"),
                    "responsibilities" := Get(body, "responsibilities")]))
  }

  function AddTeamMember(s: Snapshot, id: string, body: Fields): (Snapshot, Response)
  {
    Handlers.Append(s, id, HumanThenId, "teamMembers", TeamMember(body), 500, Handlers.WholeRecord)
  }

  /** A team member is pushed with exactly the three fields the body
      gives and nothing else from it. */
  lemma TeamMemberFields(body: Fields, k: string)
    ensures Get(TeamMember(body).fields, k) ==
      if k in {"user", "role", "responsibilities"} then Get(body, k) else Undefined
  {
  }

  // ---------------------------------------------------------------------
  // POST /:id/feedback
  // ---------------------------------------------------------------------

  /** `f.rating || 0` for a numeric rating. */
  function Rating(f: Value): real
  {
    var r := Get(FieldsOf(f), "rating");
    if r.Num? then r.n else 0.0
  }

  /** `feedback.reduce((sum, f) => sum + (f.rating || 0), 0)` */
  function RatingTotal(fs: seq<Value>): real
  {
    if fs == [] then 0.0 else RatingTotal(fs[..|fs| - 1]) + Rating(fs[|fs| - 1])
  }

  /** The pushed feedback: the body, stamped with `now` unless it carries
      its own `submittedAt`. */
  function FeedbackEntry(body: Fields, now: int): Value
  {
    Obj(Fill(body, map["submittedAt" := Num(now as real)]))
  }

  /** The count and the average rating of all the feedback, set in the
      statistics. */
  function Summarised(d: Doc): Doc
    requires |Entries(Get(d, "feedback"))| > 0
  {
    var fs := Entries(Get(d, "feedback"));
    var stats := FieldsOf(Get(d, "statistics"));
    d["statistics" := Obj(stats["feedbackCount" := Num(|fs| as real)]["feedbackRating" := Num(Average(fs))])]
  }

  /** `totalRating / feedback.length` */
  function Average(fs: seq<Value>): (r: real)
    requires |fs| > 0
    ensures r * (|fs| as real) == RatingTotal(fs)
  {
    RatingTotal(fs) / (|fs| as real)
  }

  /** Push the feedback, then summarise it. */
  function WithFeedback(doc: Doc, body: Fields, now: int): Doc
  {
    Summarised(Push(doc, "feedback", FeedbackEntry(body, now)))
  }

  method AddFeedback(rec: Record, body: Fields, now: int)
    modifies rec
    ensures rec.fields == WithFeedback(old(rec.fields), body, now)
  {
    rec.Append("feedback", FeedbackEntry(body, now));
    var fs := Entries(Get(rec.fields, "feedback"));
    assert fs == Entries(Get(old(rec.fields), "feedback")) + [FeedbackEntry(body, now)];
    var stats := FieldsOf(Get(rec.fields, "statistics"));
    stats := stats["feedbackCount" := Num(|fs| as real)];
    stats := stats["feedbackRating" := Num(Average(fs))];
    rec.Set("statistics", Obj(stats));
  }

  function Feedback(s: Snapshot, id: string, body: Fields, now: int): (Snapshot, Response)
  {
    Handlers.Patch(s, id, HumanThenId, d => WithFeedback(d, body, now), 500)
  }

  method FeedbackOn(c: Collection, id: string, body: Fields, now: int) returns (r: Response)
    modifies c
    ensures c.State() == Feedback(old(c.State()), id, body, now).0
    ensures r == Feedback(old(c.State()), id, body, now).1
  {
    var look := LookupBy(c.State(), id, HumanThenId);
    if !look.Found? {
      return Handlers.Refusal(look, 500);
    }
    var rec := new Record(c.docs[look.oid]);
    AddFeedback(rec, body, now);
    r := Handlers.Save(c, look.oid, rec.fields, Full, 500, Obj(rec.fields));
  }

  lemma FeedbackKeepsInv(s: Snapshot, id: string, body: Fields, now: int)
    requires Inv(s)
    ensures Inv(Feedback(s, id, body, now).0)
  {
    Handlers.PatchKeepsInv(s, id, HumanThenId, d => WithFeedback(d, body, now), 500);
  }

  /** After feedback the count is the number of feedback entries (one
      more than before) and the rating is their average (`Average`: the
      average times the count is the total of all ratings). */
  lemma FeedbackStatistics(doc: Doc, body: Fields, now: int)
    ensures var d := WithFeedback(doc, body, now);
      var before := Entries(Get(doc, "feedback"));
      var after := before + [FeedbackEntry(body, now)];
      var stats := FieldsOf(Get(d, "statistics"));
      && Entries(Get(d, "feedback")) == after
      && Get(stats, "feedbackCount") == Num((|before| + 1) as real)
      && Get(stats, "feedbackRating") == Num(Average(after))
      && RatingTotal(after) == RatingTotal(before) + Rating(FeedbackEntry(body, now))
  {
    var e := FeedbackEntry(body, now);
    var before := Entries(Get(doc, "feedback"));
    var pushed := Push(doc, "feedback", e);
    assert Entries(Get(pushed, "feedback")) == before + [e];
    SummarisedStats(pushed);
    RatingTotalSnoc(before, e);
  }

  /** Feedback keeps the other statistics and every path but the feedback
      and the statistics. */
  lemma FeedbackKeepsOthers(doc: Doc, body: Fields, now: int)
    ensures var d := WithFeedback(doc, body, now);
      var stats := FieldsOf(Get(d, "statistics"));
      && (forall k :: k != "feedbackCount" && k != "feedbackRating" ==>
            Get(stats, k) == Get(FieldsOf(Get(doc, "statistics")), k))
      && (forall k :: k != "feedback" && k != "statistics" ==> Get(d, k) == Get(doc, k))
  {
    SummarisedStats(Push(doc, "feedback", FeedbackEntry(body, now)));
  }

  lemma RatingTotalSnoc(fs: seq<Value>, f: Value)
    ensures RatingTotal(fs + [f]) == RatingTotal(fs) + Rating(f)
  {
    assert (fs + [f])[..|fs|] == fs;
  }

  lemma SummarisedStats(d: Doc)
    requires |Entries(Get(d, "feedback"))| > 0
    ensures var r := Summarised(d);
      var fs := Entries(Get(d, "feedback"));
      var stats := FieldsOf(Get(r, "statistics"));
      && Get(stats, "feedbackCount") == Num(|fs| as real)
      && Get(stats, "feedbackRating") == Num(Average(fs))
      && (forall k :: k != "feedbackCount" && k != "feedbackRating" ==>
            Get(stats, k) == Get(FieldsOf(Get(d, "statistics")), k))
      && (forall k :: k != "statistics" ==> Get(r, k) == Get(d, k))
  {
  }

  /** When every rating lies between `lo` and `hi`, so does the total
      divided by the count. */
  lemma {:induction false} RatingsBounded(fs: seq<Value>, lo: real, hi: real)
    requires forall i :: 0 <= i < |fs| ==> lo <= Rating(fs[i]) <= hi
    ensures lo * (|fs| as real) <= RatingTotal(fs) <= hi * (|fs| as real)
  {
    if fs != [] {
      var init := fs[..|fs| - 1];
      var k := |init| as real;
      var t, r := RatingTotal(init), Rating(fs[|fs| - 1]);
      assert lo * k <= t <= hi * k by {
        assert forall i :: 0 <= i < |init| ==> init[i] == fs[i];
        RatingsBounded(init, lo, hi);
      }
      assert lo <= r <= hi;
      assert RatingTotal(fs) == t + r;
      assert lo * (k + 1.0) == lo * k + lo && hi * (k + 1.0) == hi * k + hi;
      assert |fs| as real == k + 1.0;
    }
  }

  /** So the stored average of ratings between 1 and 5 is between 1 and 5. */
  lemma AverageBounded(doc: Doc, body: Fields, now: int)
    requires var fs := Entries(Get(doc, "feedback")) + [FeedbackEntry(body, now)];
      forall i :: 0 <= i < |fs| ==> 1.0 <= Rating(fs[i]) <= 5.0
    ensures var r := Get(FieldsOf(Get(WithFeedback(doc, body, now), "statistics")), "feedbackRating");
      r.Num? && 1.0 <= r.n <= 5.0
  {
    var fs := Entries(Get(doc, "feedback")) + [FeedbackEntry(body, now)];
    var pushed := Push(doc, "feedback", FeedbackEntry(body, now));
    assert Entries(Get(pushed, "feedback")) == fs;
    SummarisedStats(pushed);
    RatingsBounded(fs, 1.0, 5.0);
    Within(RatingTotal(fs), |fs| as real, 1.0, 5.0);
  }

  lemma Within(total: real, n: real, lo: real, hi: real)
    requires n > 0.0 && lo * n <= total <= hi * n
    ensures lo <= total / n <= hi
  {
  }

  // ---------------------------------------------------------------------
  // GET / and GET /stats/overview
  // ---------------------------------------------------------------------

  const ListKeys := ["status", "type", "venue", "district", "assignedTo"]

  function ListPrograms(s: Snapshot, query: Fields, page: int, limit: int): ListReply
  {
    List(s, FilterOf(query, ListKeys), page, limit)
  }

  datatype ProgramStats = ProgramStats(
    total: nat, upcoming: nat, ongoing: nat, completed: nat, thisWeek: nat,
    byStatus: map<Value, nat>, byType: map<Value, nat>, byVenue: map<Value, nat>)

  /** Not yet started and neither completed nor cancelled. */
  function Upcoming(now: int): seq<Cond>
  {
    [AtLeast(["startDate"], now as real), NotIn(["status"], [Str("COMPLETED"), Str("CANCELLED")])]
  }

  /** Starting between the start of today and seven days later. */
  function ThisWeek(today: int): seq<Cond>
  {
    [AtLeast(["startDate"], today as real), AtMost(["startDate"], (today + 7 * DayMillis) as real)]
  }

  /** `now` is the clock, `today` the start of its day. */
  function Stats(s: Snapshot, now: int, today: int): ProgramStats
  {
    var all := Selected(s, []);
    ProgramStats(
      Count(s, []), Count(s, Upcoming(now)),
      Count(s, [Equal(["status"], Str("ONGOING"))]), Count(s, [Equal(["status"], Str("COMPLETED"))]),
      Count(s, ThisWeek(today)),
      Tally(all, "status"), Tally(all, "type"), Tally(all, "venue"))
  }

  /** Every figure is at most the total, and the ongoing figure is the
      ONGOING status group. */
  lemma StatsAddUp(s: Snapshot, now: int, today: int)
    ensures var r := Stats(s, now, today);
      && r.upcoming <= r.total && r.ongoing <= r.total && r.completed <= r.total && r.thisWeek <= r.total
      && (if Str("ONGOING") in r.byStatus then r.byStatus[Str("ONGOING")] else 0) == r.ongoing
  {
    var none: seq<Cond> := [];
    var os, docs := s.order, Stamped(s);
    NarrowerCountsLess(os, docs, none, Upcoming(now)[0]);
    NarrowerCountsLess(os, docs, [Upcoming(now)[0]], Upcoming(now)[1]);
    NarrowerCountsLess(os, docs, none, ThisWeek(today)[0]);
    NarrowerCountsLess(os, docs, [ThisWeek(today)[0]], ThisWeek(today)[1]);
    NarrowerCountsLess(os, docs, none, Equal(["status"], Str("ONGOING")));
    NarrowerCountsLess(os, docs, none, Equal(["status"], Str("COMPLETED")));
    TallyCounts(os, docs, none, "status", Str("ONGOING"));
    assert none + [Upcoming(now)[0]] == [Upcoming(now)[0]];
    assert [Upcoming(now)[0]] + [Upcoming(now)[1]] == Upcoming(now);
    assert none + [ThisWeek(today)[0]] == [ThisWeek(today)[0]];
    assert [ThisWeek(today)[0]] + [ThisWeek(today)[1]] == ThisWeek(today);
    assert none + [Equal(["status"], Str("ONGOING"))] == [Equal(["status"], Str("ONGOING"))];
    assert none + [Equal(["status"], Str("COMPLETED"))] == [Equal(["status"], Str("COMPLETED"))];
  }
}
