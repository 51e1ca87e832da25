/** A fetched document and the edits every handler makes to it: setting a
    path, pushing onto an array path, copying request keys onto it (a
    `forEach` over `Object.keys(updates)` that skips a blacklist, or over a
    fixed allow-list), and the shapes of the entries pushed onto
    `statusHistory` and `comments`. */
module Records {
  import opened Json

  /** `doc` with every key of `keys` set to its value in `updates`. */
  function Overwrite(doc: Fields, updates: Fields, keys: set<string>): (r: Fields)
    requires keys <= updates.Keys
    ensures forall k :: Get(r, k) == if k in keys then updates[k] else Get(doc, k)
  {
    map k | k in doc.Keys + keys && (k in keys ==> updates[k] != Undefined)
      :: if k in keys then updates[k] else doc[k]
  }

  /** The keys a blacklist copy writes: present in `updates`, not excluded
      and, when `skipUndefined`, not `undefined`. */
  function Copied(updates: Fields, excluded: set<string>, skipUndefined: bool): set<string>
  {
    set k | k in updates && k !in excluded && !(skipUndefined && updates[k] == Undefined)
  }

  /** `Object.keys(updates).forEach(k => { if (<k not excluded>) doc[k] = updates[k] })` */
  function MergeExcept(doc: Fields, updates: Fields, excluded: set<string>, skipUndefined: bool): Fields
  {
    Overwrite(doc, updates, Copied(updates, excluded, skipUndefined))
  }

  /** The keys an allow-list copy writes: listed and not `undefined`. */
  function Allowed(updates: Fields, fields: set<string>): set<string>
  {
    set k | k in fields && k in updates && updates[k] != Undefined
  }

  /** `fields.forEach(f => { if (updates[f] !== undefined) doc[f] = updates[f] })` */
  function MergeAllowed(doc: Fields, updates: Fields, fields: set<string>): Fields
  {
    Overwrite(doc, updates, Allowed(updates, fields))
  }

  /** One more key written is one more assignment. */
  lemma OverwriteStep(doc: Fields, updates: Fields, keys: set<string>, k: string)
    requires keys <= updates.Keys && k in updates && k !in keys
    ensures Overwrite(doc, updates, keys + {k}) == Put(Overwrite(doc, updates, keys), k, updates[k])
  {
    var a := Overwrite(doc, updates, keys + {k});
    var b := Put(Overwrite(doc, updates, keys), k, updates[k]);
    assert forall j :: j in a <==> j in b;
    assert forall j :: j in a ==> a[j] == Get(a, j) == Get(b, j) == b[j];
  }

  /** The fields of an allow-list. */
  function Listed(fields: seq<string>): set<string>
  {
    set f | f in fields
  }

  /** A Mongoose document held by a handler between `findOne` and `save`. */
  class Record {
    var fields: Fields

    constructor (f: Fields)
      ensures fields == f
    {
      fields := f;
    }

    /** `doc[key] = v` */
    method Set(key: string, v: Value)
      modifies this
      ensures fields == Put(old(fields), key, v)
    {
      fields := Put(fields, key, v);
    }

    /** `doc[key].push(e)` */
    method Append(key: string, e: Value)
      modifies this
      ensures fields == Push(old(fields), key, e)
    {
      fields := Push(fields, key, e);
    }

    /** The blacklist copy, key by key. */
    method AssignExcept(updates: Fields, excluded: set<string>, skipUndefined: bool)
      modifies this
      ensures fields == MergeExcept(old(fields), updates, excluded, skipUndefined)
    {
      ghost var doc := fields;
      var todo := updates.Keys;
      while todo != {}
        invariant todo <= updates.Keys
        invariant fields == Overwrite(doc, updates, Copied(updates, excluded, skipUndefined) - todo)
        decreases todo
      {
        var k :| k in todo;
        ghost var done := Copied(updates, excluded, skipUndefined) - todo;
        if k !in excluded && !(skipUndefined && updates[k] == Undefined) {
          OverwriteStep(doc, updates, done, k);
          fields := Put(fields, k, updates[k]);
          assert Copied(updates, excluded, skipUndefined) - (todo - {k}) == done + {k};
        } else {
          assert Copied(updates, excluded, skipUndefined) - (todo - {k}) == done;
        }
        todo := todo - {k};
      }
      assert Copied(updates, excluded, skipUndefined) - todo == Copied(updates, excluded, skipUndefined);
    }

    /** The allow-list copy, field by field in list order. */
    method AssignAllowed(updates: Fields, list: seq<string>)
      modifies this
      ensures fields == MergeAllowed(old(fields), updates, Listed(list))
    {
      ghost var doc := fields;
      for i := 0 to |list|
        invariant fields == Overwrite(doc, updates, Allowed(updates, Listed(list[..i])))
      {
        var f := list[i];
        ghost var done := Allowed(updates, Listed(list[..i]));
        assert list[..i + 1] == list[..i] + [f];
        if Get(updates, f) != Undefined {
          if f in done {
            assert Allowed(updates, Listed(list[..i + 1])) == done;
            assert f in fields && fields[f] == updates[f] by { assert Get(fields, f) == updates[f]; }
          } else {
            OverwriteStep(doc, updates, done, f);
            assert Allowed(updates, Listed(list[..i + 1])) == done + {f};
          }
          fields := Put(fields, f, updates[f]);
        } else {
          assert Allowed(updates, Listed(list[..i + 1])) == done;
        }
      }
      assert list[..|list|] == list;
    }
  }

  // ---------------------------------------------------------------------
  // Entries
  // ---------------------------------------------------------------------

  /** `{status, changedBy, changedAt: new Date(), <noteKey>: note}`, with
      `undefined` members left out as Mongoose leaves them out. */
  function HistoryEntry(status: Value, changedBy: Value, at: int, noteKey: string, note: Value): (e: Value)
    requires noteKey !in {"status", "changedBy", "changedAt"}
    ensures e.Obj? && Get(e.fields, "status") == status && Get(e.fields, "changedBy") == changedBy
    ensures Get(e.fields, "changedAt") == Num(at as real) && Get(e.fields, noteKey) == note
  {
    Obj(Defined(map["status" := status, "changedBy" := changedBy, "changedAt" := Num(at as real),
                    noteKey := note]))
  }

  /** `{<userKey>: user, text, createdAt: new Date()}` */
  function CommentEntry(userKey: string, user: Value, text: Value, at: int): (e: Value)
    requires userKey !in {"text", "createdAt"}
    ensures e.Obj? && Get(e.fields, userKey) == user && Get(e.fields, "text") == text
    ensures Get(e.fields, "createdAt") == Num(at as real)
  {
    Obj(Defined(map[userKey := user, "text" := text, "createdAt" := Num(at as real)]))
  }

  /** `Status changed to ${status}` */
  function StatusChangedNote(status: Value): Value
  {
    Str("Status changed to " + JsString(status))
  }
}
