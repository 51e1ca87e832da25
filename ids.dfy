/** The human-readable identifiers: a prefix, a district code, the year and
    a sequence number zero-padded to at least six digits.

    The CM relief, education and temple generators continue the sequence of
    the most recently created record whose identifier has the same prefix;
    the dispute generator continues the greatest such identifier in string
    order; appointments, CSR projects, programs and cases number by the
    count of records; emergencies use the clock and the count. */
module Ids {
  import opened Wrappers
  import opened Text
  import opened Json
  import opened Store

  // ---------------------------------------------------------------------
  // District codes
  // ---------------------------------------------------------------------

  predicate NoLowerCase(s: string)
  {
    forall i :: 0 <= i < |s| ==> !('a' <= s[i] <= 'z')
  }

  /** The code made of the first three characters of a district name. */
  function CodeOf(district: string): (r: string)
    ensures |r| <= 3 && |r| == (if |district| < 3 then |district| else 3)
    ensures NoLowerCase(r)
    ensures forall i :: 0 <= i < |r| ==> r[i] == UpperChar(district[i])
  {
    ToUpper(Take(district, 3))
  }

  /** `district ? district.substring(0, 3).toUpperCase() : "GEN"` (CM relief,
      education) and `(district || "GEN").substring(0, 3).toUpperCase()`
      (disputes): a truthy district without `substring` is a TypeError. */
  function CodeOrGen(district: Value): (r: Result<string, Fault>)
    ensures !Truthy(district) ==> r == Success("GEN")
    ensures Truthy(district) && district.Str? ==> r == Success(CodeOf(district.s))
    ensures Truthy(district) && !district.Str? ==> r == Failure(TypeError)
  {
    if !Truthy(district) then Success("GEN")
    else if district.Str? then Success(CodeOf(district.s))
    else Failure(TypeError)
  }

  /** `(district = "AP") => district.substring(0, 3).toUpperCase()`: the
      default applies only to an omitted district, so "" gives an empty code
      and `null` or a number is a TypeError. */
  function TempleCode(district: Value): (r: Result<string, Fault>)
    ensures district == Undefined ==> r == Success("AP")
    ensures district.Str? ==> r == Success(CodeOf(district.s))
    ensures district != Undefined && !district.Str? ==> r == Failure(TypeError)
  {
    match district
    case Undefined => Success("AP")
    case Str(s) => Success(CodeOf(s))
    case _ => Failure(TypeError)
  }

  // ---------------------------------------------------------------------
  // Scans of the store
  // ---------------------------------------------------------------------

  /** The human identifier of `d` when it is a string beginning with
      `prefix` (what the regular expression `^prefix` matches when the prefix
      holds no regular-expression metacharacter). */
  predicate HasPrefix(d: Doc, key: string, prefix: string)
  {
    Get(d, key).Str? && StartsWith(Get(d, key).s, prefix)
  }

  /** `findOne({key: /^prefix/}).sort({createdAt: -1})`: the identifier of the
      latest matching record in `os`. */
  function LatestIn(os: seq<ObjectId>, docs: map<ObjectId, Doc>, key: string, prefix: string)
    : (r: Option<string>)
    ensures r.None? ==> forall i :: 0 <= i < |os| && os[i] in docs ==> !HasPrefix(docs[os[i]], key, prefix)
    ensures r.Some? ==> exists i :: (0 <= i < |os| && os[i] in docs && HasPrefix(docs[os[i]], key, prefix) &&
      Get(docs[os[i]], key) == Str(r.value) &&
      forall j :: i < j < |os| && os[j] in docs ==> !HasPrefix(docs[os[j]], key, prefix))
  {
    if os == [] then None
    else
      var last := os[|os| - 1];
      if last in docs && HasPrefix(docs[last], key, prefix) then Some(Get(docs[last], key).s)
      else
        var r := LatestIn(os[..|os| - 1], docs, key, prefix);
        assert forall i :: 0 <= i < |os| - 1 ==> os[..|os| - 1][i] == os[i];
        r
  }

  /** `findOne({key: /^prefix/}).sort({key: -1})`: the greatest matching
      identifier in string order. */
  function GreatestIn(os: seq<ObjectId>, docs: map<ObjectId, Doc>, key: string, prefix: string)
    : (r: Option<string>)
    ensures r.None? ==> forall o :: o in os && o in docs ==> !HasPrefix(docs[o], key, prefix)
    ensures r.Some? ==> StartsWith(r.value, prefix)
    ensures r.Some? ==> exists o :: o in os && o in docs && Get(docs[o], key) == Str(r.value)
    ensures r.Some? ==> forall o :: o in os && o in docs && HasPrefix(docs[o], key, prefix) ==>
      !LexLess(r.value, Get(docs[o], key).s)
  {
    if os == [] then None
    else
      var rest := GreatestIn(os[1..], docs, key, prefix);
      assert forall o :: o in os[1..] ==> o in os;
      assert forall o :: o in os ==> o == os[0] || o in os[1..];
      if os[0] in docs && HasPrefix(docs[os[0]], key, prefix) then
        var here := Get(docs[os[0]], key).s;
        LexLessIrreflexive(here);
        if rest.None? then Some(here)
        else if LexLess(rest.value, here) then
          assert forall x :: LexLess(here, x) ==> LexLess(rest.value, x) by {
            forall x | LexLess(here, x) ensures LexLess(rest.value, x) {
              LexLessTransitive(rest.value, here, x);
            }
          }
          Some(here)
        else rest
      else rest
  }

  /** The latest identifier of the store's kind that begins with `prefix`. */
  function LatestWithPrefix(s: Snapshot, prefix: string): Option<string>
  {
    LatestIn(s.order, s.docs, Schema.HumanIdField(s.kind), prefix)
  }

  /** The greatest identifier of the store's kind that begins with `prefix`. */
  function GreatestWithPrefix(s: Snapshot, prefix: string): Option<string>
  {
    GreatestIn(s.order, s.docs, Schema.HumanIdField(s.kind), prefix)
  }

  // ---------------------------------------------------------------------
  // Sequence numbers
  // ---------------------------------------------------------------------

  /** `parseInt(last.split("-").pop()) + 1`, or 1 without a previous
      identifier; `None` is NaN (a suffix with no leading digits). */
  function NextSequence(last: Option<string>): (r: Option<int>)
    ensures last.None? ==> r == Some(1)
    ensures last.Some? ==> (r.Some? <==> ParseInt(LastSegment(last.value, '-')).Some?)
  {
    match last
    case None => Some(1)
    case Some(id) =>
      match ParseInt(LastSegment(id, '-'))
      case None => None
      case Some(n) => Some(n + 1)
  }

  /** `sequence.toString().padStart(6, "0")`, with NaN rendered "NaN". */
  function SequenceText(q: Option<int>): string
  {
    Pad6(if q.Some? then IntToString(q.value) else "NaN")
  }

  /** `last.match(/-(\d+)$/)`: the digits after the last dash, plus one; 1
      when there is no previous identifier or it does not end in digits. */
  function TempleSequence(last: Option<string>): (r: nat)
    ensures r >= 1
  {
    if last.Some? && DashDigitsSuffix(last.value).Some? then
      DigitsValue(DashDigitsSuffix(last.value).value) + 1
    else 1
  }

  /** The identifier numbered `n` under `head` (`<head>-<pad6(n)>`). */
  function Numbered(head: string, n: nat): string
  {
    head + "-" + Pad6(NatToString(n))
  }

  // ---------------------------------------------------------------------
  // Generators
  // ---------------------------------------------------------------------

  function CmrfHead(code: string, year: nat): string
  {
    "CMRF-" + code + "-" + NatToString(year)
  }

  /** `CMRelief.generateCMRFId(district)` */
  function GenerateCmrfId(s: Snapshot, district: Value, year: nat): (r: Result<string, Fault>)
    ensures r.Success? ==> StartsWith(r.value, "CMRF-")
  {
    var code :- CodeOrGen(district);
    var head := CmrfHead(code, year);
    Success(head + "-" + SequenceText(NextSequence(LatestWithPrefix(s, head + "-"))))
  }

  function EducationHead(code: string, year: nat): string
  {
    "EDU-" + code + "-" + NatToString(year)
  }

  /** `Education.generateEducationId(district)` */
  function GenerateEducationId(s: Snapshot, district: Value, year: nat): (r: Result<string, Fault>)
    ensures r.Success? ==> StartsWith(r.value, "EDU-")
  {
    var code :- CodeOrGen(district);
    var head := EducationHead(code, year);
    Success(head + "-" + SequenceText(NextSequence(LatestWithPrefix(s, head + "-"))))
  }

  function DisputeHead(code: string, year: nat): string
  {
    "DSP-AP-" + code + "-" + NatToString(year)
  }

  /** `Dispute.generateDisputeId(district)` */
  function GenerateDisputeId(s: Snapshot, district: Value, year: nat): (r: Result<string, Fault>)
    ensures r.Success? ==> StartsWith(r.value, "DSP-AP-")
  {
    var code :- CodeOrGen(district);
    var head := DisputeHead(code, year);
    Success(head + "-" + SequenceText(NextSequence(GreatestWithPrefix(s, head + "-"))))
  }

  function TempleHead(code: string, year: nat): string
  {
    "TDL-" + code + "-" + NatToString(year)
  }

  /** `Temple.generateTempleId(district)` */
  function GenerateTempleId(s: Snapshot, district: Value, year: nat): (r: Result<string, Fault>)
    ensures r.Success? ==> StartsWith(r.value, "TDL-")
  {
    var code :- TempleCode(district);
    var head := TempleHead(code, year);
    Success(Numbered(head, TempleSequence(LatestWithPrefix(s, head + "-"))))
  }

  /** `<prefix><year>-<pad6(count + 1)>`: the appointment (`APP-AP-`), CSR
      (`CSR-AP-`), program (`PRG-AP-NLR-`) and case (`CASE-`) identifiers. */
  function CountId(prefix: string, year: nat, count: nat): (r: string)
    ensures StartsWith(r, prefix)
  {
    Numbered(prefix + NatToString(year), count + 1)
  }

  /** `EMR-${Date.now()}-${count + 1}`: not padded. */
  function EmergencyId(now: int, count: nat): (r: string)
    ensures StartsWith(r, "EMR-")
  {
    "EMR-" + IntToString(now) + "-" + NatToString(count + 1)
  }

  // ---------------------------------------------------------------------
  // Lemmas
  // ---------------------------------------------------------------------

  /** The padded sequence is at least six digits, never truncated, and
      reads back as the number. */
  lemma PaddedSequence(n: nat)
    ensures |Pad6(NatToString(n))| >= 6 && |Pad6(NatToString(n))| >= |NatToString(n)|
    ensures AllDigits(Pad6(NatToString(n)))
    ensures ParseInt(Pad6(NatToString(n))) == Some(n)
  {
    ParsePadded(n);
  }

  /** The sequence after identifier `n` is `n + 1`. */
  lemma NextAfterNumbered(head: string, n: nat)
    ensures NextSequence(Some(Numbered(head, n))) == Some(n + 1)
  {
    var p := Pad6(NatToString(n));
    ParsePadded(n);
    NoDashInDigits(p);
    NextOfParsed(head, p, n);
  }

  /** A count-based identifier is `<prefix><year>-` followed by the count
      plus one in at least six digits, which `parseInt` reads back. */
  lemma CountIdSequence(prefix: string, year: nat, count: nat)
    ensures StartsWith(CountId(prefix, year, count), prefix + NatToString(year) + "-")
    ensures LastSegment(CountId(prefix, year, count), '-') == Pad6(NatToString(count + 1))
    ensures |Pad6(NatToString(count + 1))| >= 6
    ensures ParseInt(LastSegment(CountId(prefix, year, count), '-')) == Some(count + 1)
  {
    var p := Pad6(NatToString(count + 1));
    var head := prefix + NatToString(year);
    ParsePadded(count + 1);
    NoDashInDigits(p);
    DashJoin(head, p);
    assert CountId(prefix, year, count) == (head + "-") + p;
  }

  /** The emergency identifier is `EMR-<now>-` followed by the count plus
      one, unpadded, which `parseInt` reads back. */
  lemma EmergencyIdSequence(now: int, count: nat)
    ensures StartsWith(EmergencyId(now, count), "EMR-" + IntToString(now) + "-")
    ensures LastSegment(EmergencyId(now, count), '-') == NatToString(count + 1)
    ensures ParseInt(LastSegment(EmergencyId(now, count), '-')) == Some(count + 1)
  {
    var t := NatToString(count + 1);
    var head := "EMR-" + IntToString(now);
    ParseDigitRun(t);
    NatToStringRoundTrip(count + 1);
    NoDashInDigits(t);
    DashJoin(head, t);
    assert EmergencyId(now, count) == (head + "-") + t;
  }

  /** A stored identifier with a hexadecimal tail continues at the tail's
      value plus one. */
  lemma HexTailContinues()
    ensures NextSequence(Some("CMRF-GEN-2026-0x10")) == Some(17)
  {
    var id := "CMRF-GEN-2026-0x10";
    assert id == "CMRF-GEN-2026" + "-" + "0x10";
    ParseIntReadsHex();
    DashJoin("CMRF-GEN-2026", "0x10");
    NextOfSegment(id, "0x10");
  }

  /** A stored identifier whose tail opens with white space continues at
      the tail's digits plus one. */
  lemma SpacedTailContinues()
    ensures NextSequence(Some("CMRF-GEN-2026- 7")) == Some(8)
  {
    var id := "CMRF-GEN-2026- 7";
    assert id == "CMRF-GEN-2026" + "-" + " 7";
    ParseIntSkipsSpace("7");
    assert " 7" == " " + "7" && DigitsValue("7") == 7;
    DashJoin("CMRF-GEN-2026", " 7");
    NextOfSegment(id, " 7");
  }

  /** A stored identifier whose tail has no leading digit gives NaN. */
  lemma LetterTailIsNaN()
    ensures NextSequence(Some("CMRF-GEN-2026-x7")) == None
  {
    var id := "CMRF-GEN-2026-x7";
    assert id == "CMRF-GEN-2026" + "-" + "x7";
    ParseIntWithoutDigits();
    DashJoin("CMRF-GEN-2026", "x7");
    NextOfSegment(id, "x7");
  }

  lemma NoDashInDigits(s: string)
    requires AllDigits(s)
    ensures '-' !in s
  {
  }

  /** The sequence after `head-tail` is one more than `tail` parses to. */
  lemma NextOfParsed(head: string, tail: string, v: int)
    requires '-' !in tail && ParseInt(tail) == Some(v)
    ensures NextSequence(Some(head + "-" + tail)) == Some(v + 1)
  {
    DashJoin(head, tail);
    NextOfSegment(head + "-" + tail, tail);
  }

  lemma NextOfSegment(id: string, tail: string)
    requires LastSegment(id, '-') == tail
    ensures ParseInt(tail).None? ==> NextSequence(Some(id)) == None
    ensures ParseInt(tail).Some? ==> NextSequence(Some(id)) == Some(ParseInt(tail).value + 1)
  {
    var q := ParseInt(tail);
    if q.Some? {
      var n := q.value;
      assert NextSequence(Some(id)) == Some(n + 1);
    }
  }

  lemma DashJoin(head: string, tail: string)
    requires '-' !in tail
    ensures LastSegment(head + "-" + tail, '-') == tail
  {
    assert head + "-" + tail == head + ['-'] + tail;
    LastSegmentOfJoin(head, '-', tail);
  }

  /** A sequence that is a number renders as that number, padded. */
  lemma SequenceTextOfNumber(n: nat)
    ensures SequenceText(Some(n)) == Pad6(NatToString(n))
  {
  }

  /** Generating after the CM relief record numbered `n` gives the one
      numbered `n + 1`: the chain of sequence numbers has no gaps. */
  lemma CmrfSuccessor(code: string, year: nat, n: nat)
    ensures CmrfHead(code, year) + "-" + SequenceText(NextSequence(Some(Numbered(CmrfHead(code, year), n))))
      == Numbered(CmrfHead(code, year), n + 1)
  {
    NextAfterNumbered(CmrfHead(code, year), n);
  }

  /** The same for education identifiers. */
  lemma EducationSuccessor(code: string, year: nat, n: nat)
    ensures EducationHead(code, year) + "-" + SequenceText(NextSequence(Some(Numbered(EducationHead(code, year), n))))
      == Numbered(EducationHead(code, year), n + 1)
  {
    NextAfterNumbered(EducationHead(code, year), n);
  }

  /** With no earlier identifier the first CM relief record is numbered 1. */
  lemma CmrfFirst(s: Snapshot, code: string, year: nat, district: Value)
    requires CodeOrGen(district) == Success(code)
    requires forall o :: o in s.docs ==> !HasPrefix(s.docs[o], Schema.HumanIdField(s.kind), CmrfHead(code, year) + "-")
    ensures GenerateCmrfId(s, district, year) == Success(Numbered(CmrfHead(code, year), 1))
  {
    assert LatestWithPrefix(s, CmrfHead(code, year) + "-") == None;
  }

  /** The maximal run of digits at the end of `a + "-" + d` is `d`. */
  lemma {:induction false} TrailingDigitsAfterDash(a: string, d: string)
    requires AllDigits(d)
    ensures TrailingDigits(a + "-" + d) == d
  {
    var t := a + "-" + d;
    if d == [] {
      assert t[|t| - 1] == '-';
    } else {
      assert t[..|t| - 1] == a + "-" + d[..|d| - 1];
      TrailingDigitsAfterDash(a, d[..|d| - 1]);
      assert d == d[..|d| - 1] + [d[|d| - 1]];
    }
  }

  /** The temple sequence after identifier `n` is `n + 1`. */
  lemma TempleSuccessor(head: string, n: nat)
    ensures TempleSequence(Some(Numbered(head, n))) == n + 1
  {
    var p := Pad6(NatToString(n));
    PaddedValue(n);
    TrailingDigitsAfterDash(head, p);
    LeadingDigitsOfDigits(p);
    assert |p| > 0;
  }

  /** A number below one million renders in exactly six padded digits. */
  lemma SixDigits(n: nat)
    requires n < 1000000
    ensures |Pad6(NatToString(n))| == 6
  {
    var s := NatToString(n);
    NatToStringLength(n);
    if |s| > 6 {
      PowMonotone(6, |s| - 1);
    }
  }

  lemma {:induction false} PowMonotone(a: nat, b: nat)
    requires a <= b
    ensures Pow10(a) <= Pow10(b)
  {
    if a < b { PowMonotone(a, b - 1); }
  }

  /** Every dispute identifier under `head` is `head-` and six digits. */
  predicate SixDigitIds(s: Snapshot, head: string)
  {
    forall o :: o in s.docs && HasPrefix(s.docs[o], Schema.HumanIdField(s.kind), head + "-") ==>
      (var x := Get(s.docs[o], Schema.HumanIdField(s.kind)).s;
       |x| == |head| + 7 && AllDigits(x[|head| + 1..]))
  }

  /** The sequence after `head-<six digits>` is the digits' value plus one. */
  lemma NextOfSixDigits(head: string, tail: string)
    requires AllDigits(tail) && |tail| == 6
    ensures NextSequence(Some(head + "-" + tail)) == Some(DigitsValue(tail) + 1)
    ensures DigitsValue(tail) < 1000000
  {
    ParseDigits(tail);
    NoDashInDigits(tail);
    NextOfParsed(head, tail, DigitsValue(tail));
    DigitsValueBound(tail);
  }

  /** `parseInt` of a non-empty run of digits is their value. */
  lemma ParseDigits(d: string)
    requires AllDigits(d) && d != []
    ensures ParseInt(d) == Some(DigitsValue(d))
  {
    ParseDigitRun(d);
  }

  /** The padded rendering of a number below one million is six digits with
      that value. */
  lemma SixDigitsOf(n: nat)
    requires n < 1000000
    ensures |Pad6(NatToString(n))| == 6 && AllDigits(Pad6(NatToString(n)))
    ensures DigitsValue(Pad6(NatToString(n))) == n
  {
    var s := NatToString(n);
    SixDigits(n);
    LeadingZerosValue(|Pad6(s)| - |s|, s);
    NatToStringRoundTrip(n);
  }

  /** Under a common head, six-digit identifiers sort by their numbers. */
  lemma OrderUnderHead(head: string, a: string, b: string)
    requires AllDigits(a) && AllDigits(b) && |a| == |b| && DigitsValue(a) < DigitsValue(b)
    ensures LexLess(head + "-" + a, head + "-" + b)
  {
    LexLessDigits(a, b);
    LexLessCommonPrefix(head + "-", a, b);
  }

  /** Nothing above the greatest matching identifier is taken. */
  lemma NoneAbove(os: seq<ObjectId>, docs: map<ObjectId, Doc>, key: string, prefix: string, top: string, newId: string)
    requires forall o :: o in docs ==> o in os
    requires forall o :: o in os && o in docs && HasPrefix(docs[o], key, prefix) ==>
      !LexLess(top, Get(docs[o], key).s)
    requires LexLess(top, newId) && StartsWith(newId, prefix)
    ensures forall o :: o in docs ==> Get(docs[o], key) != Str(newId)
  {
  }

  /** The successor of a six-digit identifier under `head` sorts above it. */
  lemma SuccessorAbove(head: string, top: string)
    requires StartsWith(top, head + "-") && |top| == |head| + 7 && AllDigits(top[|head| + 1..])
    requires NextSequence(Some(top)) != Some(1000000)
    ensures LexLess(top, head + "-" + SequenceText(NextSequence(Some(top))))
  {
    var tail := top[|head| + 1..];
    SplitAfterHead(head, top);
    SuccessorOfTail(head, tail, top);
  }

  lemma SplitAfterHead(head: string, top: string)
    requires StartsWith(top, head + "-")
    ensures top == head + "-" + top[|head| + 1..]
  {
  }

  lemma SuccessorOfTail(head: string, tail: string, top: string)
    requires AllDigits(tail) && |tail| == 6 && top == head + "-" + tail
    requires NextSequence(Some(top)) != Some(1000000)
    ensures LexLess(top, head + "-" + SequenceText(NextSequence(Some(top))))
  {
    NextOfSixDigits(head, tail);
    SuccessorOfValue(head, tail, NextSequence(Some(top)));
  }

  lemma SuccessorOfValue(head: string, tail: string, q: Option<int>)
    requires AllDigits(tail) && |tail| == 6 && DigitsValue(tail) < 1000000
    requires q == Some(DigitsValue(tail) + 1) && q != Some(1000000)
    ensures LexLess(head + "-" + tail, head + "-" + SequenceText(q))
  {
    SuccessorDigits(head, tail, DigitsValue(tail) + 1);
  }

  lemma SuccessorDigits(head: string, tail: string, n: nat)
    requires AllDigits(tail) && |tail| == 6 && DigitsValue(tail) < n < 1000000
    ensures LexLess(head + "-" + tail, head + "-" + SequenceText(Some(n)))
  {
    SequenceTextOfNumber(n);
    SixDigitsOf(n);
    OrderUnderHead(head, tail, Pad6(NatToString(n)));
  }

  /** The dispute generator never reissues an identifier: while sequence
      numbers stay below one million, the greatest identifier in string order
      is the greatest in number, and its successor is new. */
  lemma DisputeIdIsFresh(s: Snapshot, district: Value, code: string, year: nat)
    requires OrderExact(s) && CodeOrGen(district) == Success(code)
    requires SixDigitIds(s, DisputeHead(code, year))
    requires NextSequence(GreatestWithPrefix(s, DisputeHead(code, year) + "-")) != Some(1000000)
    ensures GenerateDisputeId(s, district, year).Success?
    ensures forall o :: o in s.docs ==>
      Get(s.docs[o], Schema.HumanIdField(s.kind)) != Str(GenerateDisputeId(s, district, year).value)
  {
    var head := DisputeHead(code, year);
    var key := Schema.HumanIdField(s.kind);
    var g := GreatestWithPrefix(s, head + "-");
    var newId := head + "-" + SequenceText(NextSequence(g));
    assert GenerateDisputeId(s, district, year) == Success(newId);
    assert StartsWith(newId, head + "-");
    if g.Some? {
      var o0 :| o0 in s.order && o0 in s.docs && Get(s.docs[o0], key) == Str(g.value);
      assert HasPrefix(s.docs[o0], key, head + "-");
      SuccessorAbove(head, g.value);
      NoneAbove(s.order, s.docs, key, head + "-", g.value, newId);
    }
  }
}
