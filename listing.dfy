/** The list and statistics endpoints: a query is a conjunction of
    conditions on paths, `countDocuments` is the number of stored records
    that satisfy it, `$sum` adds the numbers at a path, `$group` tallies
    records by the value at a path, and a page of results is the window
    `skip = (page - 1) * limit` of the matching records, newest first, with
    `pages = ceil(total / limit)`. */
module Listing {
  import opened Wrappers
  import opened Json
  import opened Store

  const DayMillis := 24 * 60 * 60 * 1000

  /** One condition of a query on the value at `path`. */
  datatype Cond =
    | Equal(path: seq<string>, v: Value)       // {path: v}
    | In(path: seq<string>, vs: seq<Value>)    // {path: {$in: vs}}
    | NotIn(path: seq<string>, vs: seq<Value>) // {path: {$nin: vs}}, and `$ne` with one value
    | HasValue(path: seq<string>)              // {path: {$exists: true, $ne: null}}
    | AtLeast(path: seq<string>, lo: real)     // {path: {$gte: lo}}
    | Below(path: seq<string>, hi: real)       // {path: {$lt: hi}}
    | AtMost(path: seq<string>, hi: real)      // {path: {$lte: hi}}

  /** A missing path reads as `null` in a query. */
  function QueryValue(d: Doc, path: seq<string>): Value
  {
    IndexKey(GetPath(Obj(d), path))
  }

  predicate Holds(d: Doc, c: Cond)
  {
    var v := QueryValue(d, c.path);
    match c
    case Equal(_, w) => v == IndexKey(w)
    case In(_, vs) => v in vs
    case NotIn(_, vs) => v !in vs
    case HasValue(_) => v != Null
    case AtLeast(_, lo) => v.Num? && v.n >= lo
    case Below(_, hi) => v.Num? && v.n < hi
    case AtMost(_, hi) => v.Num? && v.n <= hi
  }

  predicate Matches(d: Doc, f: seq<Cond>)
  {
    forall i :: 0 <= i < |f| ==> Holds(d, f[i])
  }

  /** The records of `os` that satisfy `f`, in the order of `os`. */
  function Matching(os: seq<ObjectId>, docs: map<ObjectId, Doc>, f: seq<Cond>): (r: seq<Doc>)
    ensures |r| <= |os|
    ensures forall i :: 0 <= i < |r| ==> Matches(r[i], f)
    ensures forall o :: o in os && o in docs && Matches(docs[o], f) ==> docs[o] in r
  {
    if os == [] then []
    else
      var init := os[..|os| - 1];
      var last := os[|os| - 1];
      assert forall o :: o in os ==> o in init || o == last;
      var rest := Matching(init, docs, f);
      if last in docs && Matches(docs[last], f) then rest + [docs[last]] else rest
  }

  /** The stored records as a query sees them: with the `createdAt`
      timestamp the schema option `timestamps` adds. */
  function Stamped(s: Snapshot): (r: map<ObjectId, Doc>)
    ensures r.Keys == s.docs.Keys
  {
    map o | o in s.docs ::
      if o in s.created then s.docs[o]["createdAt" := Num(s.created[o] as real)] else s.docs[o]
  }

  /** `find(f)` without a sort: the matching records in insertion order. */
  function Selected(s: Snapshot, f: seq<Cond>): seq<Doc>
  {
    Matching(s.order, Stamped(s), f)
  }

  /** `countDocuments(f)` */
  function Count(s: Snapshot, f: seq<Cond>): nat
  {
    |Selected(s, f)|
  }

  /** The records a list query returns before paging: the matching ones,
      most recently created first (`sort({createdAt: -1})`). */
  function Newest(s: Snapshot, f: seq<Cond>): seq<Doc>
  {
    Reverse(Selected(s, f))
  }

  /** A query that is two queries side by side. */
  lemma AppendMatches(d: Doc, f: seq<Cond>, g: seq<Cond>)
    ensures Matches(d, f + g) <==> Matches(d, f) && Matches(d, g)
  {
    assert forall i :: 0 <= i < |g| ==> (f + g)[|f| + i] == g[i];
    assert forall i :: 0 <= i < |f| ==> (f + g)[i] == f[i];
  }

  /** One more condition never counts more records. */
  lemma {:induction false} NarrowerCountsLess(os: seq<ObjectId>, docs: map<ObjectId, Doc>, f: seq<Cond>, c: Cond)
    ensures |Matching(os, docs, f + [c])| <= |Matching(os, docs, f)|
  {
    if os != [] {
      NarrowerCountsLess(os[..|os| - 1], docs, f, c);
      var last := os[|os| - 1];
      if last in docs {
        ExtendedMatches(docs[last], f, c);
      }
    }
  }

  function Reverse<T>(xs: seq<T>): (r: seq<T>)
    ensures |r| == |xs|
    ensures forall i :: 0 <= i < |xs| ==> r[i] == xs[|xs| - 1 - i]
  {
    if xs == [] then [] else [xs[|xs| - 1]] + Reverse(xs[..|xs| - 1])
  }

  // ---------------------------------------------------------------------
  // Building a query from the query string
  // ---------------------------------------------------------------------

  /** `if (x) query.x = x` for each listed parameter, in order. */
  function FilterOf(query: Fields, keys: seq<string>): (f: seq<Cond>)
    ensures |f| <= |keys|
  {
    if keys == [] then []
    else
      var rest := FilterOf(query, keys[1..]);
      if Truthy(Get(query, keys[0])) then [Equal([keys[0]], Get(query, keys[0]))] + rest else rest
  }

  /** The parameter `k` of the query string, when truthy, is the value the
      record holds at `k`. */
  predicate Agrees(d: Doc, query: Fields, k: string)
  {
    Truthy(Get(query, k)) ==> IndexKey(Get(d, k)) == IndexKey(Get(query, k))
  }

  /** A record matches the built query exactly when it holds, at every
      listed parameter that is truthy, the parameter's value; falsy
      parameters filter nothing. */
  lemma {:induction false} FilterOfMatches(d: Doc, query: Fields, keys: seq<string>)
    ensures Matches(d, FilterOf(query, keys)) <==> forall i :: 0 <= i < |keys| ==> Agrees(d, query, keys[i])
  {
    if keys != [] {
      var k := keys[0];
      var rest := FilterOf(query, keys[1..]);
      FilterOfMatches(d, query, keys[1..]);
      if Truthy(Get(query, k)) {
        var c := Equal([k], Get(query, k));
        PathOfOne(d, k);
        assert [c] + rest == [c] + rest;
        ConsMatches(d, c, rest);
      }
      assert (forall i :: 0 <= i < |keys| ==> Agrees(d, query, keys[i])) <==>
        Agrees(d, query, k) && forall i :: 0 <= i < |keys[1..]| ==> Agrees(d, query, keys[1..][i])
      by {
        assert forall i :: 1 <= i < |keys| ==> keys[i] == keys[1..][i - 1];
      }
    }
  }

  lemma PathOfOne(d: Doc, k: string)
    ensures QueryValue(d, [k]) == IndexKey(Get(d, k))
  {
    calc {
      GetPath(Obj(d), [k]);
      GetPath(Get(Obj(d).fields, [k][0]), [k][1..]);
      { assert [k][1..] == []; }
      GetPath(Get(d, k), []);
    }
  }

  lemma ConsMatches(d: Doc, c: Cond, f: seq<Cond>)
    ensures Matches(d, [c] + f) <==> Holds(d, c) && Matches(d, f)
  {
    assert ([c] + f)[0] == c;
    assert forall i :: 0 <= i < |f| ==> ([c] + f)[i + 1] == f[i];
  }

  /** `{path: {$gte: date, $lt: nextDay}}`: the day that begins at `day`. */
  function DayOf(path: string, day: int): seq<Cond>
  {
    [AtLeast([path], day as real), Below([path], (day + DayMillis) as real)]
  }

  /** A record is in the day filter exactly when its date is in the
      half-open day `[day, day + 1 day)`. */
  lemma DayOfMatches(d: Doc, path: string, day: int)
    ensures Matches(d, DayOf(path, day)) <==>
      var v := Get(d, path);
      v.Num? && day as real <= v.n < (day + DayMillis) as real
  {
    PathOfOne(d, path);
    var f := DayOf(path, day);
    assert Holds(d, f[0]) <==> Get(d, path).Num? && Get(d, path).n >= day as real;
    assert Holds(d, f[1]) <==> Get(d, path).Num? && Get(d, path).n < (day + DayMillis) as real;
  }

  // ---------------------------------------------------------------------
  // Pagination
  // ---------------------------------------------------------------------

  /** `ceil(a / b)` */
  function CeilDiv(a: nat, b: int): (r: int)
    requires b != 0
    ensures b > 0 ==> (r - 1) * b < a <= r * b
    ensures b > 0 ==> r >= 0
  {
    if b > 0 then (a + b - 1) / b else -(a / -b)
  }

  /** `Math.ceil(total / limit)`; a zero limit gives `Infinity` or `NaN`,
      which JSON renders as `null`. */
  function Pages(total: nat, limit: int): Value
  {
    if limit == 0 then Null else Num(CeilDiv(total, limit) as real)
  }

  /** `.skip(skip).limit(limit)`: a negative skip is refused by the server
      (`None`), a zero limit means no limit and a negative one is read as
      its absolute value. */
  function Window<T>(xs: seq<T>, skip: int, limit: int): (r: Option<seq<T>>)
    ensures r.Some? <==> skip >= 0
    ensures r.Some? ==> limit != 0 ==> |r.value| <= if limit > 0 then limit else -limit
    ensures r.Some? ==> forall i :: 0 <= i < |r.value| ==> skip + i < |xs| && r.value[i] == xs[skip + i]
  {
    if skip < 0 then None
    else
      var from := if skip <= |xs| then skip else |xs|;
      var n := if limit >= 0 then limit else -limit;
      var upto := if limit == 0 || from + n > |xs| then |xs| else from + n;
      Some(xs[from..upto])
  }

  /** `skip = (page - 1) * limit` */
  function PageWindow<T>(xs: seq<T>, page: int, limit: int): Option<seq<T>>
  {
    Window(xs, (page - 1) * limit, limit)
  }

  /** With a positive limit every result appears on exactly the page its
      position says, and that page is within the page count. */
  lemma PageOfEach<T>(xs: seq<T>, limit: int, i: nat)
    requires limit > 0 && i < |xs|
    ensures var p := i / limit + 1;
      && 1 <= p <= CeilDiv(|xs|, limit)
      && PageWindow(xs, p, limit).Some?
      && i % limit < |PageWindow(xs, p, limit).value|
      && PageWindow(xs, p, limit).value[i % limit] == xs[i]
  {
    var p := i / limit + 1;
    var q := CeilDiv(|xs|, limit);
    assert (p - 1) * limit + i % limit == i;
  }

  /** The response of a list query: a page of records, the total count
      and the page count; or a 500 when the skip is negative. */
  datatype ListReply = Listed(items: seq<Doc>, total: nat, pages: Value) | ListFailed

  /** `find(f).sort({createdAt: -1}).limit(limit).skip((page - 1) * limit)`,
      `countDocuments(f)` and `Math.ceil(total / limit)`. */
  function List(s: Snapshot, f: seq<Cond>, page: int, limit: int): (r: ListReply)
    ensures r.ListFailed? <==> (page - 1) * limit < 0
    ensures r.Listed? ==> r.total == Count(s, f) && r.pages == Pages(Count(s, f), limit)
    ensures r.Listed? ==> forall i :: 0 <= i < |r.items| ==> Matches(r.items[i], f)
    ensures r.Listed? && limit != 0 ==> |r.items| <= if limit > 0 then limit else -limit
  {
    var w := PageWindow(Newest(s, f), page, limit);
    if w.None? then ListFailed
    else
      assert forall i :: 0 <= i < |w.value| ==> w.value[i] in Selected(s, f);
      Listed(w.value, Count(s, f), Pages(Count(s, f), limit))
  }

  /** With a positive limit, the `i`-th newest matching record is on page
      `i / limit + 1`, which is among the pages reported. */
  lemma ListShowsEach(s: Snapshot, f: seq<Cond>, limit: int, i: nat)
    requires limit > 0 && i < Count(s, f)
    ensures var p := i / limit + 1;
      var r := List(s, f, p, limit);
      && r.Listed? && r.pages == Num(CeilDiv(Count(s, f), limit) as real)
      && 1 <= p <= CeilDiv(Count(s, f), limit)
      && i % limit < |r.items| && r.items[i % limit] == Newest(s, f)[i]
  {
    PageOfEach(Newest(s, f), limit, i);
  }

  // ---------------------------------------------------------------------
  // Counts, sums and groups
  // ---------------------------------------------------------------------

  /** A record that matches one of two distinct values is counted once,
      in the count of that value (`status: {$in: [a, b]}`). */
  lemma {:induction false} CountInTwo(os: seq<ObjectId>, docs: map<ObjectId, Doc>, f: seq<Cond>,
                                      path: seq<string>, a: Value, b: Value)
    requires a != b && a != Undefined && b != Undefined
    ensures |Matching(os, docs, f + [In(path, [a, b])])|
         == |Matching(os, docs, f + [Equal(path, a)])| + |Matching(os, docs, f + [Equal(path, b)])|
  {
    if os != [] {
      var init := os[..|os| - 1];
      CountInTwo(init, docs, f, path, a, b);
      var last := os[|os| - 1];
      if last in docs {
        var d := docs[last];
        ExtendedMatches(d, f, In(path, [a, b]));
        ExtendedMatches(d, f, Equal(path, a));
        ExtendedMatches(d, f, Equal(path, b));
      }
    }
  }

  lemma ExtendedMatches(d: Doc, f: seq<Cond>, c: Cond)
    ensures Matches(d, f + [c]) <==> Matches(d, f) && Holds(d, c)
  {
    assert (f + [c])[|f|] == c;
    assert forall i :: 0 <= i < |f| ==> (f + [c])[i] == f[i];
  }

  /** `$in` and `$nin` over the same values split the matching records. */
  lemma {:induction false} InSplits(os: seq<ObjectId>, docs: map<ObjectId, Doc>, f: seq<Cond>,
                                    path: seq<string>, vs: seq<Value>)
    ensures |Matching(os, docs, f + [In(path, vs)])| + |Matching(os, docs, f + [NotIn(path, vs)])|
         == |Matching(os, docs, f)|
  {
    if os != [] {
      InSplits(os[..|os| - 1], docs, f, path, vs);
      var last := os[|os| - 1];
      if last in docs {
        ExtendedMatches(docs[last], f, In(path, vs));
        ExtendedMatches(docs[last], f, NotIn(path, vs));
      }
    }
  }

  /** The number at `key`, or nothing: `$sum` skips values that are not
      numbers. */
  function Amount(d: Doc, key: string): real
  {
    var v := Get(d, key);
    if v.Num? then v.n else 0.0
  }

  /** `$sum` of the numbers at `key`; 0 over no records. */
  function SumOf(ds: seq<Doc>, key: string): real
  {
    if ds == [] then 0.0 else SumOf(ds[..|ds| - 1], key) + Amount(ds[|ds| - 1], key)
  }

  function Sum(s: Snapshot, f: seq<Cond>, key: string): real
  {
    SumOf(Selected(s, f), key)
  }

  /** Restricting a sum to the records where the path is set to a non-null
      value changes nothing: the others add nothing. */
  lemma {:induction false} SumOverSet(os: seq<ObjectId>, docs: map<ObjectId, Doc>, f: seq<Cond>, key: string)
    ensures SumOf(Matching(os, docs, f + [HasValue([key])]), key) == SumOf(Matching(os, docs, f), key)
  {
    if os != [] {
      SumOverSet(os[..|os| - 1], docs, f, key);
      var last := os[|os| - 1];
      if last in docs {
        ExtendedMatches(docs[last], f, HasValue([key]));
        PathOfOne(docs[last], key);
      }
    }
  }

  /** `$in` and `$nin` over the same values split a sum too. */
  lemma {:induction false} SumSplits(os: seq<ObjectId>, docs: map<ObjectId, Doc>, f: seq<Cond>,
                                     path: seq<string>, vs: seq<Value>, key: string)
    ensures SumOf(Matching(os, docs, f + [In(path, vs)]), key) + SumOf(Matching(os, docs, f + [NotIn(path, vs)]), key)
         == SumOf(Matching(os, docs, f), key)
  {
    if os != [] {
      var init := os[..|os| - 1];
      var last := os[|os| - 1];
      SumSplits(init, docs, f, path, vs, key);
      if last in docs {
        var d := docs[last];
        ExtendedMatches(d, f, In(path, vs));
        ExtendedMatches(d, f, NotIn(path, vs));
        if Matches(d, f) {
          SumOfSnoc(Matching(init, docs, f), d, key);
          if QueryValue(d, path) in vs {
            SumOfSnoc(Matching(init, docs, f + [In(path, vs)]), d, key);
          } else {
            SumOfSnoc(Matching(init, docs, f + [NotIn(path, vs)]), d, key);
          }
        }
      }
    }
  }

  lemma SumOfSnoc(ds: seq<Doc>, d: Doc, key: string)
    ensures SumOf(ds + [d], key) == SumOf(ds, key) + Amount(d, key)
  {
    assert (ds + [d])[..|ds|] == ds;
  }

  /** `$group: {_id: "$key", count: {$sum: 1}}`: for each value found at
      `key` (a missing one groups as `null`), the number of records holding
      it. */
  function Tally(ds: seq<Doc>, key: string): (r: map<Value, nat>)
    ensures forall g :: g in r <==> exists i :: 0 <= i < |ds| && IndexKey(Get(ds[i], key)) == g
    ensures forall g :: g in r ==> 1 <= r[g] <= |ds|
  {
    if ds == [] then map[]
    else
      var rest := Tally(ds[..|ds| - 1], key);
      var g := IndexKey(Get(ds[|ds| - 1], key));
      assert forall i :: 0 <= i < |ds| - 1 ==> ds[..|ds| - 1][i] == ds[i];
      rest[g := if g in rest then rest[g] + 1 else 1]
  }

  /** One more record adds one to its group and leaves the others. */
  lemma TallyStep(ds: seq<Doc>, d: Doc, key: string)
    ensures var before := Tally(ds, key);
      var after := Tally(ds + [d], key);
      var g := IndexKey(Get(d, key));
      && after[g] == (if g in before then before[g] else 0) + 1
      && forall h :: h != g ==> (h in after <==> h in before) && (h in before ==> after[h] == before[h])
  {
    assert (ds + [d])[..|ds|] == ds;
  }

  /** A group's count is the count of the query narrowed to the group's
      value: `$group` and `countDocuments` agree. */
  lemma {:induction false} TallyCounts(os: seq<ObjectId>, docs: map<ObjectId, Doc>, f: seq<Cond>, key: string, g: Value)
    requires g != Undefined
    ensures var t := Tally(Matching(os, docs, f), key);
      (if g in t then t[g] else 0) == |Matching(os, docs, f + [Equal([key], g)])|
  {
    if os != [] {
      var init := os[..|os| - 1];
      var last := os[|os| - 1];
      TallyCounts(init, docs, f, key, g);
      if last in docs {
        var d := docs[last];
        ExtendedMatches(d, f, Equal([key], g));
        PathOfOne(d, key);
        if Matches(d, f) {
          TallyStep(Matching(init, docs, f), d, key);
        }
      }
    }
  }
}
