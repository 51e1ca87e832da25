/** The record store of one kind: a map from surrogate id (ObjectId) to
    document, the insertion order (what a query without a sort returns, and
    what `createdAt` sorts by), and the creation time of each record.

    Saving a document runs the schema validators and the unique index on the
    human-readable identifier. The invariant `Inv` is what those two
    mechanisms keep true. `Collection` is the class the route handlers
    mutate. */
module Store {
  import opened Wrappers
  import opened Text
  import opened Json
  import opened Schema

  type ObjectId = s: string | IsObjectIdText(s) witness "000000000000000000000000"

  type Doc = Fields

  /** Why a database call rejects: a string that is not an ObjectId, a
      TypeError in the handler, a failed validator, a unique-index
      violation, a change to `_id`, or a record a static method did not
      find. */
  datatype Fault = CastError | TypeError | ValidationError | DuplicateKey | ImmutableField | NoSuchRecord

  datatype Snapshot = Snapshot(
    kind: Kind,
    docs: map<ObjectId, Doc>,
    order: seq<ObjectId>,
    created: map<ObjectId, int>)

  function Empty(k: Kind): Snapshot
  {
    Snapshot(k, map[], [], map[])
  }

  /** The key a unique index files a value under: a missing path is `null`. */
  function IndexKey(v: Value): Value
  {
    if v == Undefined then Null else v
  }

  function HumanId(s: Snapshot, o: ObjectId): Value
    requires o in s.docs
  {
    Get(s.docs[o], HumanIdField(s.kind))
  }

  /** Another record than `oid` already holds the human identifier of `d`. */
  predicate Clash(s: Snapshot, oid: ObjectId, d: Doc)
  {
    exists o :: o in s.docs && o != oid &&
      IndexKey(Get(s.docs[o], HumanIdField(s.kind))) == IndexKey(Get(d, HumanIdField(s.kind)))
  }

  predicate NoDuplicates(os: seq<ObjectId>)
  {
    forall i, j :: 0 <= i < j < |os| ==> os[i] != os[j]
  }

  /** Every record carries its own key as `_id` and has a creation time. */
  ghost predicate KeyedById(s: Snapshot)
  {
    forall o :: o in s.docs ==> Get(s.docs[o], "_id") == Str(o) && o in s.created
  }

  /** The insertion order lists exactly the stored records, once each. */
  ghost predicate OrderExact(s: Snapshot)
  {
    && (forall i :: 0 <= i < |s.order| ==> s.order[i] in s.docs)
    && (forall o :: o in s.docs ==> o in s.order)
    && NoDuplicates(s.order)
  }

  ghost predicate UniqueHumanIds(s: Snapshot)
  {
    forall a, b :: a in s.docs && b in s.docs && a != b ==>
      IndexKey(HumanId(s, a)) != IndexKey(HumanId(s, b))
  }

  /** Emergency records are changed by `findByIdAndUpdate` without
      validators, so only the other kinds are guaranteed to conform. */
  ghost predicate AllConform(s: Snapshot)
  {
    s.kind != Emergency ==> forall o :: o in s.docs ==> Conforms(s.kind, s.docs[o])
  }

  /** What the store guarantees between requests. */
  ghost predicate Inv(s: Snapshot)
  {
    KeyedById(s) && OrderExact(s) && UniqueHumanIds(s) && AllConform(s)
  }

  /** Which validators a write runs. */
  datatype Check = Full | OnKeys(keys: set<string>) | Unchecked

  predicate Validates(k: Kind, d: Doc, check: Check)
  {
    match check
    case Full => Conforms(k, d)
    case OnKeys(keys) => ConformsOn(k, d, keys)
    case Unchecked => true
  }

  /** `doc.save()` of a new document (and `Model.create`): validators, then
      the unique indexes on `_id` and on the human identifier. */
  function Insert(s: Snapshot, oid: ObjectId, d: Doc, now: int): Result<Snapshot, Fault>
  {
    var d' := d["_id" := Str(oid)];
    if oid in s.docs then Failure(DuplicateKey)
    else if !Conforms(s.kind, d') then Failure(ValidationError)
    else if Clash(s, oid, d') then Failure(DuplicateKey)
    else Success(Snapshot(s.kind, s.docs[oid := d'], s.order + [oid], s.created[oid := now]))
  }

  /** Writing a new value of an existing document (`save()` after edits, or
      `findByIdAndUpdate`). */
  function Commit(s: Snapshot, oid: ObjectId, d: Doc, check: Check): Result<Snapshot, Fault>
    requires oid in s.docs
  {
    if Get(d, "_id") != Str(oid) then Failure(ImmutableField)
    else if !Validates(s.kind, d, check) then Failure(ValidationError)
    else if Clash(s, oid, d) then Failure(DuplicateKey)
    else Success(s.(docs := s.docs[oid := d]))
  }

  function Without(os: seq<ObjectId>, oid: ObjectId): (r: seq<ObjectId>)
    ensures forall o :: o in r <==> o in os && o != oid
    ensures NoDuplicates(os) ==> NoDuplicates(r)
  {
    if os == [] then []
    else
      var rest := Without(os[1..], oid);
      if os[0] == oid then
        TailNoDuplicates(os);
        rest
      else
        assert NoDuplicates(os) ==> NoDuplicates([os[0]] + rest) by {
          TailNoDuplicates(os);
          if NoDuplicates(os) { ConsNoDuplicates(os[0], rest); }
        }
        [os[0]] + rest
  }

  lemma TailNoDuplicates(os: seq<ObjectId>)
    requires os != []
    ensures NoDuplicates(os) ==> NoDuplicates(os[1..]) && os[0] !in os[1..]
  {
    if NoDuplicates(os) {
      forall i, j | 0 <= i < j < |os[1..]| ensures os[1..][i] != os[1..][j] {
        assert os[1..][i] == os[i + 1] && os[1..][j] == os[j + 1];
      }
    }
  }

  lemma ConsNoDuplicates(x: ObjectId, rest: seq<ObjectId>)
    requires NoDuplicates(rest) && x !in rest
    ensures NoDuplicates([x] + rest)
  {
    var r := [x] + rest;
    forall i, j | 0 <= i < j < |r| ensures r[i] != r[j] {
      assert r[j] == rest[j - 1];
      if i > 0 { assert r[i] == rest[i - 1]; }
    }
  }

  /** `findByIdAndDelete` and its relatives: the record is gone. */
  function Remove(s: Snapshot, oid: ObjectId): Snapshot
  {
    Snapshot(s.kind, s.docs - {oid}, Without(s.order, oid), s.created - {oid})
  }

  /** The new state after an operation that may have failed. */
  function After(s: Snapshot, r: Result<Snapshot, Fault>): Snapshot
  {
    if r.Success? then r.value else s
  }

  /** Why an operation failed, if it did. */
  function FaultOf(r: Result<Snapshot, Fault>): Option<Fault>
  {
    if r.Success? then None else Some(r.error)
  }

  // ---------------------------------------------------------------------
  // Finding records
  // ---------------------------------------------------------------------

  /** An ObjectId cast of a string: 24 hex digits, case-insensitive. */
  function CastId(id: string): (r: Option<ObjectId>)
    ensures r.Some? <==> IsHex24(id)
  {
    if IsHex24(id) then
      var lower := LowerHex(id);
      assert IsObjectIdText(lower) by {
        forall i | 0 <= i < 24 ensures IsLowerHexChar(lower[i]) {
          assert IsHexChar(id[i]);
        }
      }
      Some(lower)
    else None
  }

  /** The first record in insertion order whose `key` equals `v`
      (`findOne({key: v})`). */
  function FirstWith(os: seq<ObjectId>, docs: map<ObjectId, Doc>, key: string, v: Value): (r: Option<ObjectId>)
    ensures r.Some? ==> r.value in os && r.value in docs && Get(docs[r.value], key) == v
    ensures r.None? ==> forall o :: o in os && o in docs ==> Get(docs[o], key) != v
  {
    if os == [] then None
    else if os[0] in docs && Get(docs[os[0]], key) == v then Some(os[0])
    else FirstWith(os[1..], docs, key, v)
  }

  /** The first record in insertion order whose `_id` is `oid` or whose `key`
      equals `v` (`findOne({$or: [{_id}, {key}]})`). */
  function FirstEither(os: seq<ObjectId>, docs: map<ObjectId, Doc>, oid: ObjectId, key: string, v: Value)
    : (r: Option<ObjectId>)
    ensures r.Some? ==> r.value in os && r.value in docs && (r.value == oid || Get(docs[r.value], key) == v)
    ensures r.None? ==> forall o :: o in os && o in docs ==> o != oid && Get(docs[o], key) != v
  {
    if os == [] then None
    else if os[0] in docs && (os[0] == oid || Get(docs[os[0]], key) == v) then Some(os[0])
    else FirstEither(os[1..], docs, oid, key, v)
  }

  /** `findOne({<human id field>: id})` */
  function FindByHuman(s: Snapshot, id: string): Option<ObjectId>
  {
    FirstWith(s.order, s.docs, HumanIdField(s.kind), Str(id))
  }

  /** The lookup orders the routers use for an `:id` parameter. */
  datatype Strategy =
    | HexThenHuman   // `_id` when the id is 24-hex, then the human id
    | HumanThenId    // the human id, then `findById` (which casts)
    | HumanOrId      // one `$or` query over `_id` and the human id
    | HexOrHuman     // `_id` when the id is 24-hex, otherwise the human id
    | IdOnly         // `findById` alone

  datatype Lookup = Found(oid: ObjectId) | Missing | Unparsable

  function LookupBy(s: Snapshot, id: string, how: Strategy): (r: Lookup)
    ensures r.Found? ==> r.oid in s.docs
  {
    var cast := CastId(id);
    var byHuman := FindByHuman(s, id);
    match how
    case HexThenHuman =>
      if cast.Some? && cast.value in s.docs then Found(cast.value)
      else if byHuman.Some? then Found(byHuman.value) else Missing
    case HumanThenId =>
      if byHuman.Some? then Found(byHuman.value)
      else if cast.None? then Unparsable
      else if cast.value in s.docs then Found(cast.value) else Missing
    case HumanOrId =>
      if cast.None? then Unparsable
      else
        var hit := FirstEither(s.order, s.docs, cast.value, HumanIdField(s.kind), Str(id));
        if hit.Some? then Found(hit.value) else Missing
    case HexOrHuman =>
      if cast.Some? then (if cast.value in s.docs then Found(cast.value) else Missing)
      else if byHuman.Some? then Found(byHuman.value) else Missing
    case IdOnly =>
      if cast.None? then Unparsable
      else if cast.value in s.docs then Found(cast.value) else Missing
  }

  // ---------------------------------------------------------------------
  // Responses
  // ---------------------------------------------------------------------

  /** What a handler sends back. */
  datatype Response =
    | Ok(data: Value)        // 200 with a payload
    | Created(data: Value)   // 201 with the new record
    | Deleted                // 200 with a message only
    | NotFound               // 404
    | Failed(code: nat)      // 400 or 500 from the handler's catch block

  function StatusCode(r: Response): nat
  {
    match r
    case Ok(_) => 200
    case Created(_) => 201
    case Deleted => 200
    case NotFound => 404
    case Failed(code) => code
  }

  /** Saving `d` over record `oid` and replying with `data`, or with
      `errCode` when the save rejects. */
  function SaveStep(s: Snapshot, oid: ObjectId, d: Doc, check: Check, errCode: nat, data: Value)
    : (Snapshot, Response)
    requires oid in s.docs
  {
    var w := Commit(s, oid, d, check);
    (After(s, w), if w.Success? then Ok(data) else Failed(errCode))
  }

  /** Inserting a constructed document and replying 201, or `errCode`. */
  function CreateStep(s: Snapshot, oid: ObjectId, d: Doc, now: int, errCode: nat): (Snapshot, Response)
  {
    var w := Insert(s, oid, d, now);
    (After(s, w), if w.Success? then Created(Obj(d["_id" := Str(oid)])) else Failed(errCode))
  }

  /** Deleting the record a lookup found. */
  function DeleteStep(s: Snapshot, look: Lookup, errCode: nat): (Snapshot, Response)
  {
    match look
    case Found(oid) => (Remove(s, oid), Deleted)
    case Missing => (s, NotFound)
    case Unparsable => (s, Failed(errCode))
  }

  /** The document a successful GET sends. */
  function GetStep(s: Snapshot, look: Lookup, errCode: nat): Response
  {
    match look
    case Found(oid) => if oid in s.docs then Ok(Obj(s.docs[oid])) else NotFound
    case Missing => NotFound
    case Unparsable => Failed(errCode)
  }

  // ---------------------------------------------------------------------
  // Lemmas
  // ---------------------------------------------------------------------

  lemma EmptyInv(k: Kind)
    ensures Inv(Empty(k))
  {
  }

  /** Inserting keeps the invariant; in particular two records never share a
      human identifier, because the unique index refuses the second. */
  lemma InsertKeepsInv(s: Snapshot, oid: ObjectId, d: Doc, now: int)
    requires Inv(s)
    ensures Inv(After(s, Insert(s, oid, d, now)))
  {
    var w := Insert(s, oid, d, now);
    if w.Success? {
      var t := w.value;
      var d' := d["_id" := Str(oid)];
      assert oid !in s.docs && Conforms(s.kind, d') && !Clash(s, oid, d');
      assert t == Snapshot(s.kind, s.docs[oid := d'], s.order + [oid], s.created[oid := now]);
      InsertKeepsOrder(s, t, oid);
      UpdateKeepsUnique(s, t, oid);
      InsertKeepsKeyed(s, t, oid, d', now);
    }
  }

  /** The new record carries its key and its creation time, and conforms. */
  lemma InsertKeepsKeyed(s: Snapshot, t: Snapshot, oid: ObjectId, d: Doc, now: int)
    requires KeyedById(s) && AllConform(s)
    requires Get(d, "_id") == Str(oid) && Conforms(s.kind, d)
    requires t == Snapshot(s.kind, s.docs[oid := d], s.order + [oid], s.created[oid := now])
    ensures KeyedById(t) && AllConform(t)
  {
  }

  lemma InsertKeepsOrder(s: Snapshot, t: Snapshot, oid: ObjectId)
    requires OrderExact(s) && oid !in s.docs
    requires t.docs.Keys == s.docs.Keys + {oid} && t.order == s.order + [oid]
    ensures OrderExact(t)
  {
    forall i, j | 0 <= i < j < |t.order| ensures t.order[i] != t.order[j] {
      if j == |t.order| - 1 { assert t.order[i] in s.docs; }
    }
  }

  /** Writing `t.docs[oid]` after the unique index found no clash with it. */
  lemma UpdateKeepsUnique(s: Snapshot, t: Snapshot, oid: ObjectId)
    requires UniqueHumanIds(s) && t.kind == s.kind && oid in t.docs
    requires t.docs == s.docs[oid := t.docs[oid]]
    requires !Clash(s, oid, t.docs[oid])
    ensures UniqueHumanIds(t)
  {
    var d := t.docs[oid];
    var f := HumanIdField(s.kind);
    forall a, b | a in t.docs && b in t.docs && a != b
      ensures IndexKey(HumanId(t, a)) != IndexKey(HumanId(t, b))
    {
      if a == oid {
        assert !(b in s.docs && b != oid && IndexKey(Get(s.docs[b], f)) == IndexKey(Get(d, f)));
      } else if b == oid {
        assert !(a in s.docs && a != oid && IndexKey(Get(s.docs[a], f)) == IndexKey(Get(d, f)));
      }
    }
  }

  /** The caller's side of `Commit`: what each kind of check needs for the
      schema part of the invariant to survive. */
  ghost predicate CheckSound(s: Snapshot, oid: ObjectId, d: Doc, check: Check)
    requires oid in s.docs
  {
    match check
    case Full => true
    case OnKeys(keys) => forall key :: key !in keys ==> Get(d, key) == Get(s.docs[oid], key)
    case Unchecked => s.kind != Emergency ==> Conforms(s.kind, d)
  }

  lemma CommitKeepsInv(s: Snapshot, oid: ObjectId, d: Doc, check: Check)
    requires Inv(s) && oid in s.docs && CheckSound(s, oid, d, check)
    ensures Inv(After(s, Commit(s, oid, d, check)))
  {
    var w := Commit(s, oid, d, check);
    if w.Success? {
      var t := w.value;
      if s.kind != Emergency && check.OnKeys? {
        ConformsAfterUpdate(s.kind, s.docs[oid], d, check.keys);
      }
      UpdateKeepsUnique(s, t, oid);
    }
  }

  /** The unique index refuses a new record whose human identifier another
      record holds: nothing is stored and the handler answers `errCode`. */
  lemma TakenIdRefused(s: Snapshot, oid: ObjectId, d: Doc, now: int, errCode: nat, o: ObjectId)
    requires o in s.docs && o != oid
    requires IndexKey(HumanId(s, o)) == IndexKey(Get(d, HumanIdField(s.kind)))
    ensures CreateStep(s, oid, d, now, errCode) == (s, Failed(errCode))
  {
    var d' := d["_id" := Str(oid)];
    if HumanIdField(s.kind) != "_id" {
      assert Get(d', HumanIdField(s.kind)) == Get(d, HumanIdField(s.kind));
    }
    if oid !in s.docs && Conforms(s.kind, d') {
      assert Clash(s, oid, d');
    }
  }

  lemma RemoveKeepsInv(s: Snapshot, oid: ObjectId)
    requires Inv(s)
    ensures Inv(Remove(s, oid))
    ensures oid !in Remove(s, oid).docs
    ensures forall o :: o in s.docs && o != oid ==> o in Remove(s, oid).docs
  {
    var t := Remove(s, oid);
    forall i | 0 <= i < |t.order| ensures t.order[i] in t.docs {
      assert t.order[i] in t.order;
    }
    assert UniqueHumanIds(t) by {
      forall a, b | a in t.docs && b in t.docs && a != b
        ensures IndexKey(HumanId(t, a)) != IndexKey(HumanId(t, b))
      {
        assert HumanId(t, a) == HumanId(s, a) && HumanId(t, b) == HumanId(s, b);
      }
    }
  }

  /** A record whose human identifier is `h` is what `findOne` returns for
      `h`. */
  lemma FindByHumanUnique(s: Snapshot, o: ObjectId, h: string)
    requires Inv(s) && o in s.docs && HumanId(s, o) == Str(h)
    ensures FindByHuman(s, h) == Some(o)
  {
    assert o in s.order;
    var r := FindByHuman(s, h);
    assert r.Some?;
    var p := r.value;
    assert HumanId(s, p) == Str(h);
    assert IndexKey(HumanId(s, p)) == IndexKey(HumanId(s, o));
  }

  /** Hex-then-human lookup (temples, CM relief) reaches a record both by
      its surrogate id and by its human identifier. */
  lemma HexThenHumanResolvesBoth(s: Snapshot, o: ObjectId, h: string)
    requires Inv(s) && o in s.docs && HumanId(s, o) == Str(h) && !IsHex24(h)
    ensures LookupBy(s, o, HexThenHuman) == Found(o)
    ensures LookupBy(s, h, HexThenHuman) == Found(o)
  {
    SurrogateCast(o);
    FindByHumanUnique(s, o, h);
  }

  /** Human-then-id lookup (education, appointments, CSR, programs) reaches a
      record by its human identifier, and by its surrogate id unless that
      string is some record's human identifier. */
  lemma HumanThenIdResolvesBoth(s: Snapshot, o: ObjectId, h: string)
    requires Inv(s) && o in s.docs && HumanId(s, o) == Str(h)
    requires forall p :: p in s.docs ==> HumanId(s, p) != Str(o)
    ensures LookupBy(s, h, HumanThenId) == Found(o)
    ensures LookupBy(s, o, HumanThenId) == Found(o)
  {
    FindByHumanUnique(s, o, h);
    SurrogateCast(o);
  }

  /** Human-then-id lookup of an unknown identifier that is not 24-hex ends
      in a failed ObjectId cast (a 500), not in "not found". */
  lemma HumanThenIdUnknownIsCastError(s: Snapshot, id: string)
    requires !IsHex24(id)
    requires forall p :: p in s.docs ==> HumanId(s, p) != Str(id)
    ensures LookupBy(s, id, HumanThenId) == Unparsable
  {
  }

  /** The `$or` lookup (disputes) casts its argument for `_id` first, so a
      human identifier (never 24-hex) cannot reach a record. */
  lemma HumanOrIdRejectsHumanIds(s: Snapshot, o: ObjectId, h: string)
    requires Inv(s) && o in s.docs && HumanId(s, o) == Str(h) && !IsHex24(h)
    ensures LookupBy(s, h, HumanOrId) == Unparsable
    ensures LookupBy(s, o, HumanOrId).Found?
  {
    SurrogateCast(o);
    assert o in s.order;
  }

  /** Hex-or-human lookup (cases) never falls back: a 24-hex string that is
      no record's `_id` is not found, even when it is a human identifier. */
  lemma HexOrHumanNoFallback(s: Snapshot, id: string)
    requires IsHex24(id) && CastId(id).value !in s.docs
    ensures LookupBy(s, id, HexOrHuman) == Missing
  {
  }

  lemma SurrogateCast(o: ObjectId)
    ensures IsHex24(o) && CastId(o) == Some(o)
  {
    assert LowerHex(o) == o;
  }

  // ---------------------------------------------------------------------
  // The store as a mutable object
  // ---------------------------------------------------------------------

  class Collection {
    const kind: Kind
    var docs: map<ObjectId, Doc>
    var order: seq<ObjectId>
    var created: map<ObjectId, int>

    function State(): Snapshot
      reads this
    {
      Snapshot(kind, docs, order, created)
    }

    /** An empty collection; `EmptyInv` shows it meets `Inv`. */
    constructor (k: Kind)
      ensures State() == Empty(k)
    {
      kind := k;
      docs := map[];
      order := [];
      created := map[];
    }

    method SetState(t: Snapshot)
      requires t.kind == kind
      modifies this
      ensures State() == t
    {
      docs, order, created := t.docs, t.order, t.created;
    }

    /** Saves a new record; `fault` says why the store refused it.
        `InsertKeepsInv` shows the new state meets `Inv`. */
    method Add(oid: ObjectId, d: Doc, now: int) returns (fault: Option<Fault>)
      modifies this
      ensures fault == FaultOf(Insert(old(State()), oid, d, now))
      ensures State() == After(old(State()), Insert(old(State()), oid, d, now))
    {
      var w := Insert(State(), oid, d, now);
      fault := FaultOf(w);
      if w.Success? { SetState(w.value); }
    }

    /** Writes a new value of record `oid`; `CommitKeepsInv` says when the
        new state meets `Inv`. */
    method Write(oid: ObjectId, d: Doc, check: Check) returns (fault: Option<Fault>)
      requires oid in docs
      modifies this
      ensures fault == FaultOf(Commit(old(State()), oid, d, check))
      ensures State() == After(old(State()), Commit(old(State()), oid, d, check))
    {
      var w := Commit(State(), oid, d, check);
      fault := FaultOf(w);
      if w.Success? { SetState(w.value); }
    }

    /** Deletes record `oid`; `RemoveKeepsInv` shows the new state meets
        `Inv`. */
    method Erase(oid: ObjectId)
      modifies this
      ensures State() == Remove(old(State()), oid)
    {
      SetState(Remove(State(), oid));
    }
  }
}
