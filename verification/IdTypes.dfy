/**
  The student-ID types in an Ed-Fi roster, and the one that replicates studentUniqueId, if any
  (unpack_id_types).

  A roster record is whatever a JSON line holds: keys can be missing, and any value can be null or of
  another type than expected.  Ratios are exact reals.
 */
module IdTypes {
  import opened Wrappers

  // Other: a number, a truth value, a list or an object, with its str() and its truth value.
  datatype Json = Null | Text(s: string) | Other(text: string, truth: bool) {
    predicate Truthy() {
      match this
      case Null => false
      case Text(s) => s != ""
      case Other(_, truth) => truth
    }
  }

  // What looking up a key leads to: a KeyError, a value, or, where there is no object to look it up in,
  // another exception.
  datatype Field<+T> = Missing | Present(value: T) | NoObject

  datatype IdCode = IdCode(descriptor: Field<Json>, identificationCode: Field<Json>)
  datatype Reference = Reference(studentUniqueId: Field<Json>)
  // The codes are None where they cannot be walked through: null, a number, a truth value.  A string or
  // an object is walked through by its characters or keys, in which nothing can be looked up.
  datatype Record = Record(codes: Field<Option<seq<IdCode>>>, studentReference: Field<Reference>)

  // Python's str(), on which the comparison is done.
  function Str(j: Json): string {
    match j
    case Null => "None"
    case Text(s) => s
    case Other(text, _) => text
  }

  // Where the last '#'-separated part of a string starts.
  function LastPartAt(s: string, end: nat): (i: nat)
    requires end <= |s|
    ensures i <= end
    ensures '#' !in s[i..end] && (i > 0 ==> s[i - 1] == '#')
  {
    if end == 0 || s[end - 1] == '#' then end else LastPartAt(s, end - 1)
  }

  // descriptor.split("#")[-1]: the ID type, whether the descriptor is a URI or bare.
  function LastPart(s: string): (t: string)
    ensures '#' !in t
  {
    s[LastPartAt(s, |s|)..]
  }

  datatype Counts = Counts(matches: nat, nonNulls: nat) {
    predicate Dense(records: nat)
      requires records > 0
    {
      nonNulls as real / records as real >= NOT_NULL_THRESHOLD
    }

    function MatchRatio(): real
      requires nonNulls > 0
    {
      matches as real / nonNulls as real
    }
  }

  const NOT_NULL_THRESHOLD := 0.5
  const MATCH_THRESHOLD := 0.95

  // The id_types dictionary: its keys in order of insertion, and their counts.
  datatype Tally = Tally(order: seq<string>, counts: map<string, Counts>)

  const NO_TYPES := Tally([], map[])

  // How the walk over a record's codes ends: at its end, at a key that is missing, or with an
  // exception that is not handled.
  datatype Walk = Walked(t: Tally) | KeyError(t: Tally) | Crash

  function Seen(t: Tally, idType: string): Tally {
    if idType in t.counts then t else Tally(t.order + [idType], t.counts[idType := Counts(0, 0)])
  }

  function Counted(t: Tally, idType: string, isMatch: bool, isNonNull: bool): Tally
    requires idType in t.counts
  {
    var c := t.counts[idType];
    t.(counts := t.counts[idType := Counts(c.matches + (if isMatch then 1 else 0),
                                           c.nonNulls + (if isNonNull then 1 else 0))])
  }

  // A code whose descriptor, ID and student can all be read.
  predicate Completes(record: Record, code: IdCode) {
    && code.descriptor.Present? && code.descriptor.value.Text?
    && code.identificationCode.Present?
    && record.studentReference.Present?
    && record.studentReference.value.studentUniqueId.Present?
  }

  predicate IsMatch(record: Record, code: IdCode)
    requires Completes(record, code)
  {
    Str(code.identificationCode.value) == Str(record.studentReference.value.studentUniqueId.value)
  }

  // One code of a record.
  function Step(t: Tally, record: Record, code: IdCode): Walk {
    if code.descriptor.Missing? then KeyError(t)
    else if code.descriptor.NoObject? || !code.descriptor.value.Text? then Crash
    else
      var idType := LastPart(code.descriptor.value.s);
      var t1 := Seen(t, idType);
      if code.identificationCode.Missing? then KeyError(t1)
      else if code.identificationCode.NoObject? then Crash
      else if record.studentReference.Missing? then KeyError(t1)
      else if record.studentReference.NoObject? then Crash
      else if record.studentReference.value.studentUniqueId.Missing? then KeyError(t1)
      else if record.studentReference.value.studentUniqueId.NoObject? then Crash
      else Walked(Counted(t1, idType, IsMatch(record, code), code.identificationCode.value.Truthy()))
  }

  function WalkCodes(t: Tally, record: Record, codes: seq<IdCode>): Walk {
    if codes == [] then Walked(t)
    else
      var w := WalkCodes(t, record, codes[..|codes| - 1]);
      if w.Walked? then Step(w.t, record, codes[|codes| - 1]) else w
  }

  // One record: a missing key keeps what was counted before it.
  function CountRecord(t: Tally, record: Record): Option<Tally> {
    match record.codes
    case Missing => Some(t)
    case NoObject => None
    case Present(None) => None
    case Present(Some(codes)) =>
      match WalkCodes(t, record, codes)
      case Walked(t1) => Some(t1)
      case KeyError(t1) => Some(t1)
      case Crash => None
  }

  function CountRecords(records: seq<Record>): Option<Tally> {
    if records == [] then Some(NO_TYPES)
    else
      var t := CountRecords(records[..|records| - 1]);
      if t.Some? then CountRecord(t.value, records[|records| - 1]) else None
  }

  // The keys left in id_types once the sparse ones are deleted.
  function DenseTypes(t: Tally, order: seq<string>, records: nat): (r: seq<string>)
    requires records > 0
    ensures forall k :: k in r <==> k in order && k in t.counts && t.counts[k].Dense(records)
  {
    if order == [] then []
    else
      var last := order[|order| - 1];
      var r := DenseTypes(t, order[..|order| - 1], records);
      assert order == order[..|order| - 1] + [last];
      if last in t.counts && t.counts[last].Dense(records) then r + [last] else r
  }

  ghost predicate Divisible(t: Tally, ids: seq<string>) {
    forall k :: k in ids ==> k in t.counts && t.counts[k].nonNulls > 0
  }

  // max(id_types, key=pct_matches): the first of the highest.
  function BestAt(t: Tally, ids: seq<string>): (i: nat)
    requires ids != [] && Divisible(t, ids)
    ensures i < |ids|
    ensures forall k :: 0 <= k < |ids| ==> t.counts[ids[k]].MatchRatio() <= t.counts[ids[i]].MatchRatio()
    ensures forall k :: 0 <= k < i ==> t.counts[ids[k]].MatchRatio() < t.counts[ids[i]].MatchRatio()
  {
    var last := |ids| - 1;
    if last == 0 then 0
    else
      var i := BestAt(t, ids[..last]);
      if t.counts[ids[last]].MatchRatio() > t.counts[ids[i]].MatchRatio() then last else i
  }

  function BestType(t: Tally, ids: seq<string>): (best: string)
    requires ids != [] && Divisible(t, ids)
    ensures best in ids && forall k :: k in ids ==> t.counts[k].MatchRatio() <= t.counts[best].MatchRatio()
  {
    ids[BestAt(t, ids)]
  }

  // distinct_id_types and stu_unique_id_in_roster
  datatype Unpacked = Unpacked(distinct: set<string>, proxy: Option<string>)

  function Conclude(t: Tally, records: nat): Unpacked
    requires t.order != [] ==> records > 0
  {
    var all := set k | k in t.order;
    if t.order == [] then Unpacked(all, None)
    else
      var dense := DenseTypes(t, t.order, records);
      DenseIsDivisible(t, dense, records);
      if dense == [] then Unpacked(all, None)
      else
        var best := BestType(t, dense);
        if t.counts[best].MatchRatio() >= MATCH_THRESHOLD then Unpacked(all - {best}, Some(best))
        else Unpacked(all, None)
  }

  // A type that is dense in the roster has a non-null ID, so its ratio can be taken.
  lemma DenseIsDivisible(t: Tally, ids: seq<string>, records: nat)
    requires records > 0
    requires forall k :: k in ids ==> k in t.counts && t.counts[k].Dense(records)
    ensures Divisible(t, ids)
  {
  }

  function Unpack(records: seq<Record>): Option<Unpacked> {
    match CountRecords(records)
    case None => None
    case Some(t) => NoRecordsNoTypes(records); Some(Conclude(t, |records|))
  }

  lemma NoRecordsNoTypes(records: seq<Record>)
    ensures CountRecords(records).Some? && CountRecords(records).value.order != [] ==> |records| > 0
  {
  }

  /* The loops */

  method CountCode(t: Tally, record: Record, code: IdCode) returns (w: Walk)
    ensures w == Step(t, record, code)
  {
    if code.descriptor.Missing? { return KeyError(t); }
    if code.descriptor.NoObject? || !code.descriptor.value.Text? { return Crash; }
    var idTypes := t;
    var idType := LastPart(code.descriptor.value.s);
    if idType !in idTypes.counts {
      idTypes := Tally(idTypes.order + [idType], idTypes.counts[idType := Counts(0, 0)]);
    }
    if code.identificationCode.Missing? { return KeyError(idTypes); }
    if code.identificationCode.NoObject? { return Crash; }
    if record.studentReference.Missing? { return KeyError(idTypes); }
    if record.studentReference.NoObject? { return Crash; }
    var uniqueId := record.studentReference.value.studentUniqueId;
    if uniqueId.Missing? { return KeyError(idTypes); }
    if uniqueId.NoObject? { return Crash; }
    var id, counts := code.identificationCode.value, idTypes.counts[idType];
    if Str(id) == Str(uniqueId.value) {
      counts := counts.(matches := counts.matches + 1);
    }
    if id.Truthy() {
      counts := counts.(nonNulls := counts.nonNulls + 1);
    }
    return Walked(idTypes.(counts := idTypes.counts[idType := counts]));
  }

  method CountCodes(t: Tally, record: Record) returns (r: Option<Tally>)
    ensures r == CountRecord(t, record)
  {
    if record.codes.Missing? { return Some(t); }
    if record.codes.NoObject? || record.codes.value.None? { return None; }
    var codes := record.codes.value.value;
    var w := Walked(t);
    for i := 0 to |codes|
      invariant w.Walked? && WalkCodes(t, record, codes[..i]) == w
    {
      assert codes[..i + 1][..i] == codes[..i];
      w := CountCode(w.t, record, codes[i]);
      if !w.Walked? {
        WalkStops(t, record, codes, i + 1);
        return if w.KeyError? then Some(w.t) else None;
      }
    }
    assert codes[..|codes|] == codes;
    return Some(w.t);
  }

  lemma {:induction false} WalkStops(t: Tally, record: Record, codes: seq<IdCode>, i: nat)
    requires i <= |codes| && !WalkCodes(t, record, codes[..i]).Walked?
    ensures WalkCodes(t, record, codes) == WalkCodes(t, record, codes[..i])
    decreases |codes| - i
  {
    if i < |codes| {
      assert codes[..i + 1][..i] == codes[..i];
      WalkStops(t, record, codes, i + 1);
    } else {
      assert codes[..i] == codes;
    }
  }

  method DropSparseTypes(t: Tally, records: nat) returns (ids: seq<string>)
    requires records > 0
    ensures ids == DenseTypes(t, t.order, records)
  {
    ids := [];
    for i := 0 to |t.order|
      invariant ids == DenseTypes(t, t.order[..i], records)
    {
      assert t.order[..i + 1][..i] == t.order[..i];
      var k := t.order[i];
      if k in t.counts && t.counts[k].nonNulls as real / records as real >= NOT_NULL_THRESHOLD {
        ids := ids + [k];
      }
    }
    assert t.order[..|t.order|] == t.order;
  }

  method UnpackIdTypes(records: seq<Record>) returns (r: Option<Unpacked>)
    ensures r == Unpack(records)
  {
    var idTypes := NO_TYPES;
    for i := 0 to |records|
      invariant CountRecords(records[..i]) == Some(idTypes)
    {
      assert records[..i + 1][..i] == records[..i];
      var counted := CountCodes(idTypes, records[i]);
      if counted.None? {
        CountStops(records, i + 1);
        return None;
      }
      idTypes := counted.value;
    }
    assert records[..|records|] == records;
    NoRecordsNoTypes(records);
    var distinct := set k | k in idTypes.order;
    if idTypes.order == [] { return Some(Unpacked(distinct, None)); }
    var ids := DropSparseTypes(idTypes, |records|);
    if ids == [] { return Some(Unpacked(distinct, None)); }
    DenseIsDivisible(idTypes, ids, |records|);
    var highest := BestType(idTypes, ids);
    if idTypes.counts[highest].MatchRatio() >= MATCH_THRESHOLD {
      return Some(Unpacked(distinct - {highest}, Some(highest)));
    }
    return Some(Unpacked(distinct, None));
  }

  lemma {:induction false} CountStops(records: seq<Record>, i: nat)
    requires i <= |records| && CountRecords(records[..i]).None?
    ensures CountRecords(records).None?
    decreases |records| - i
  {
    if i < |records| {
      assert records[..i + 1][..i] == records[..i];
      CountStops(records, i + 1);
    } else {
      assert records[..i] == records;
    }
  }

  /* What is unpacked */

  predicate NamesType(code: IdCode, idType: string) {
    code.descriptor.Present? && code.descriptor.value.Text? && LastPart(code.descriptor.value.s) == idType
  }

  // An unhandled exception: a code or a reference that is no object, or a descriptor that is no text.
  predicate CrashesOn(record: Record, code: IdCode) {
    || code.descriptor.NoObject?
    || (code.descriptor.Present?
        && (!code.descriptor.value.Text?
            || code.identificationCode.NoObject?
            || (code.identificationCode.Present?
                && (record.studentReference.NoObject?
                    || (record.studentReference.Present? && record.studentReference.value.studentUniqueId.NoObject?)))))
  }

  // An ID is there: it is not null, empty, zero or false.
  predicate IsThere(id: Json) {
    (id.Text? && |id.s| > 0) || (id.Other? && id.truth)
  }

  // An ID replicates another one when they are written alike; null is written "None".
  predicate WrittenAs(id: Json, written: string) {
    (id.Text? && id.s == written) || (id.Other? && id.text == written) || (id.Null? && written == "None")
  }

  predicate Replicates(id: Json, uniqueId: Json) {
    match uniqueId
    case Null => WrittenAs(id, "None")
    case Text(s) => WrittenAs(id, s)
    case Other(text, _) => WrittenAs(id, text)
  }

  // What one completed code adds to the counts of its type.
  function Increment(record: Record, code: IdCode, idType: string): (c: Counts)
    requires Completes(record, code)
  {
    var id, uniqueId := code.identificationCode.value, record.studentReference.value.studentUniqueId.value;
    if NamesType(code, idType) then Counts(if Replicates(id, uniqueId) then 1 else 0, if IsThere(id) then 1 else 0)
    else Counts(0, 0)
  }

  function Plus(a: Counts, b: Counts): Counts {
    Counts(a.matches + b.matches, a.nonNulls + b.nonNulls)
  }

  // The counts of a type in a record: its codes up to the first one that is malformed.
  function InCodes(record: Record, codes: seq<IdCode>, idType: string): Counts {
    if codes == [] || !Completes(record, codes[0]) then Counts(0, 0)
    else Plus(Increment(record, codes[0], idType), InCodes(record, codes[1..], idType))
  }

  function InRecord(record: Record, idType: string): Counts {
    if record.codes.Present? && record.codes.value.Some? then InCodes(record, record.codes.value.value, idType)
    else Counts(0, 0)
  }

  function InRoster(records: seq<Record>, idType: string): Counts {
    if records == [] then Counts(0, 0)
    else Plus(InRoster(records[..|records| - 1], idType), InRecord(records[|records| - 1], idType))
  }

  function CountsOf(t: Tally, idType: string): Counts {
    if idType in t.counts then t.counts[idType] else Counts(0, 0)
  }

  ghost predicate Valid(t: Tally) {
    forall k :: k in t.order <==> k in t.counts
  }

  predicate CrashesWithin(record: Record, codes: seq<IdCode>) {
    codes != [] && (CrashesOn(record, codes[0]) || (Completes(record, codes[0]) && CrashesWithin(record, codes[1..])))
  }

  predicate MentionsWithin(record: Record, codes: seq<IdCode>, idType: string) {
    && codes != []
    && (NamesType(codes[0], idType) || (Completes(record, codes[0]) && MentionsWithin(record, codes[1..], idType)))
  }

  // The record mentions an ID type before anything in it is malformed.
  predicate Mentions(record: Record, idType: string) {
    record.codes.Present? && record.codes.value.Some? && MentionsWithin(record, record.codes.value.value, idType)
  }

  predicate Crashes(record: Record) {
    || record.codes.NoObject?
    || (record.codes.Present? && (record.codes.value.None? || CrashesWithin(record, record.codes.value.value)))
  }

  lemma {:induction false} WalkFromFront(t: Tally, record: Record, codes: seq<IdCode>)
    requires codes != []
    ensures WalkCodes(t, record, codes) ==
            var w := Step(t, record, codes[0]);
            if w.Walked? then WalkCodes(w.t, record, codes[1..]) else w
  {
    var front, last := codes[..|codes| - 1], codes[|codes| - 1];
    if |codes| == 1 {
      assert front == [] && codes[1..] == [];
    } else {
      WalkFromFront(t, record, front);
      assert codes[1..][..|codes| - 2] == front[1..];
    }
  }

  lemma StepSees(t: Tally, record: Record, code: IdCode, idType: string)
    requires Valid(t)
    ensures var w := Step(t, record, code);
            && (w.Walked? <==> Completes(record, code))
            && (w.Crash? <==> CrashesOn(record, code))
            && (!w.Crash? ==> Valid(w.t) && (idType in w.t.order <==> idType in t.order || NamesType(code, idType)))
            && (w.KeyError? ==> CountsOf(w.t, idType) == CountsOf(t, idType))
  {
  }

  lemma SeenCountsNothing(t: Tally, seen: string, idType: string)
    ensures CountsOf(Seen(t, seen), idType) == CountsOf(t, idType)
  {
  }

  lemma CountedAdds(t: Tally, counted: string, isMatch: bool, isNonNull: bool, idType: string)
    requires counted in t.counts
    ensures CountsOf(Counted(t, counted, isMatch, isNonNull), idType) ==
            Plus(CountsOf(t, idType),
                 if idType == counted then Counts(if isMatch then 1 else 0, if isNonNull then 1 else 0) else Counts(0, 0))
  {
  }

  lemma SeenThenCounted(t: Tally, seen: string, isMatch: bool, isNonNull: bool, idType: string)
    ensures CountsOf(Counted(Seen(t, seen), seen, isMatch, isNonNull), idType) ==
            Plus(CountsOf(t, idType),
                 if idType == seen then Counts(if isMatch then 1 else 0, if isNonNull then 1 else 0) else Counts(0, 0))
  {
    SeenCountsNothing(t, seen, idType);
    CountedAdds(Seen(t, seen), seen, isMatch, isNonNull, idType);
  }

  lemma CompletedStep(t: Tally, record: Record, code: IdCode, seen: string, isMatch: bool, isNonNull: bool)
    requires Completes(record, code) && seen == LastPart(code.descriptor.value.s)
    requires isMatch == IsMatch(record, code) && isNonNull == code.identificationCode.value.Truthy()
    ensures Step(t, record, code) == Walked(Counted(Seen(t, seen), seen, isMatch, isNonNull))
    ensures forall idType :: Increment(record, code, idType) ==
              if idType == seen then Counts(if isMatch then 1 else 0, if isNonNull then 1 else 0) else Counts(0, 0)
  {
  }

  lemma StepAdds(t: Tally, record: Record, code: IdCode, idType: string)
    requires Completes(record, code)
    ensures Step(t, record, code).Walked?
    ensures CountsOf(Step(t, record, code).t, idType) == Plus(CountsOf(t, idType), Increment(record, code, idType))
  {
    var seen := LastPart(code.descriptor.value.s);
    var isMatch, isNonNull := IsMatch(record, code), code.identificationCode.value.Truthy();
    CompletedStep(t, record, code, seen, isMatch, isNonNull);
    SeenThenCounted(t, seen, isMatch, isNonNull, idType);
  }

  lemma {:induction false} WalkSees(t: Tally, record: Record, codes: seq<IdCode>, idType: string)
    requires Valid(t)
    decreases |codes|
    ensures var w := WalkCodes(t, record, codes);
            && (w.Crash? <==> CrashesWithin(record, codes))
            && (!w.Crash? ==> Valid(w.t))
            && (!w.Crash? ==> (idType in w.t.order <==> idType in t.order || MentionsWithin(record, codes, idType)))
  {
    if codes != [] {
      WalkFromFront(t, record, codes);
      StepSees(t, record, codes[0], idType);
      if Completes(record, codes[0]) {
        assert |codes[1..]| < |codes|;
        WalkSees(Step(t, record, codes[0]).t, record, codes[1..], idType);
      }
    }
  }

  lemma PlusAssociates(a: Counts, b: Counts, c: Counts)
    ensures Plus(Plus(a, b), c) == Plus(a, Plus(b, c)) && Plus(a, Counts(0, 0)) == a
  {
  }

  lemma {:induction false} WalkAdds(t: Tally, record: Record, codes: seq<IdCode>, idType: string)
    requires Valid(t) && !WalkCodes(t, record, codes).Crash?
    ensures CountsOf(WalkCodes(t, record, codes).t, idType) == Plus(CountsOf(t, idType), InCodes(record, codes, idType))
    decreases |codes|
  {
    var before := CountsOf(t, idType);
    PlusAssociates(before, Counts(0, 0), Counts(0, 0));
    if codes != [] {
      WalkFromFront(t, record, codes);
      StepSees(t, record, codes[0], idType);
      if Completes(record, codes[0]) {
        var t1, more := Step(t, record, codes[0]).t, InCodes(record, codes[1..], idType);
        StepAdds(t, record, codes[0], idType);
        WalkAdds(t1, record, codes[1..], idType);
        PlusAssociates(before, Increment(record, codes[0], idType), more);
      }
    }
  }

  lemma RecordSees(t: Tally, record: Record, idType: string)
    requires Valid(t)
    ensures CountRecord(t, record).None? <==> Crashes(record)
    ensures CountRecord(t, record).Some? ==>
              var t1 := CountRecord(t, record).value;
              Valid(t1) && (idType in t1.order <==> idType in t.order || Mentions(record, idType))
  {
    if record.codes.Present? && record.codes.value.Some? {
      WalkSees(t, record, record.codes.value.value, idType);
    }
  }

  lemma RecordAdds(t: Tally, record: Record, idType: string)
    requires Valid(t) && CountRecord(t, record).Some?
    ensures CountsOf(CountRecord(t, record).value, idType) == Plus(CountsOf(t, idType), InRecord(record, idType))
  {
    PlusAssociates(CountsOf(t, idType), Counts(0, 0), Counts(0, 0));
    if record.codes.Present? && record.codes.value.Some? {
      WalkAdds(t, record, record.codes.value.value, idType);
    }
  }

  ghost predicate IsMentioned(records: seq<Record>, idType: string) {
    exists r :: r in records && Mentions(r, idType)
  }

  ghost predicate AnyCrashes(records: seq<Record>) {
    exists r :: r in records && Crashes(r)
  }

  lemma OneMoreRecord(front: seq<Record>, last: Record, idType: string)
    ensures IsMentioned(front + [last], idType) <==> IsMentioned(front, idType) || Mentions(last, idType)
    ensures AnyCrashes(front + [last]) <==> AnyCrashes(front) || Crashes(last)
  {
    assert last in front + [last];
    assert forall r :: r in front ==> r in front + [last];
  }

  lemma {:induction false} RosterSees(records: seq<Record>, idType: string)
    ensures CountRecords(records).None? <==> AnyCrashes(records)
    ensures CountRecords(records).Some? ==> Valid(CountRecords(records).value)
    ensures CountRecords(records).Some? ==>
              (idType in CountRecords(records).value.order <==> IsMentioned(records, idType))
  {
    if records != [] {
      var front, last := records[..|records| - 1], records[|records| - 1];
      assert records == front + [last];
      OneMoreRecord(front, last, idType);
      RosterSees(front, idType);
      if CountRecords(front).Some? {
        RecordSees(CountRecords(front).value, last, idType);
      }
    }
  }

  lemma {:induction false} RosterCounts(records: seq<Record>, idType: string)
    requires CountRecords(records).Some?
    ensures CountsOf(CountRecords(records).value, idType) == InRoster(records, idType)
  {
    if records != [] {
      var front, last := records[..|records| - 1], records[|records| - 1];
      RosterCounts(front, idType);
      RosterSees(front, idType);
      RecordAdds(CountRecords(front).value, last, idType);
    }
  }

  // An ID type that at least half of the records have a value for, and what fraction of those equals
  // studentUniqueId.
  ghost predicate IsDense(records: seq<Record>, idType: string) {
    records != [] && IsMentioned(records, idType) && 2 * InRoster(records, idType).nonNulls >= |records|
  }

  function MatchRatio(records: seq<Record>, idType: string): real {
    var c := InRoster(records, idType);
    if c.nonNulls == 0 then 0.0 else c.matches as real / c.nonNulls as real
  }

  ghost predicate IsReplica(records: seq<Record>, idType: string) {
    && IsDense(records, idType) && MatchRatio(records, idType) >= 0.95
    && forall k :: IsDense(records, k) ==> MatchRatio(records, k) <= MatchRatio(records, idType)
  }

  // Malformed records included: unpacking succeeds unless some record raises what is not handled.
  // The distinct types and the proxy, if any, are then all types mentioned; the proxy is not among the
  // distinct ones and is the densely used type that replicates studentUniqueId best; and there is one
  // whenever some dense type reaches the threshold.
  lemma UnpackedIsRight(records: seq<Record>)
    ensures Unpack(records).None? <==> AnyCrashes(records)
    ensures Unpack(records).Some? ==>
              var u := Unpack(records).value;
              && (forall k :: k in u.distinct || u.proxy == Some(k) <==> IsMentioned(records, k))
              && (u.proxy.Some? ==> u.proxy.value !in u.distinct && IsReplica(records, u.proxy.value))
              && (u.proxy.None? ==> forall k :: IsDense(records, k) ==> MatchRatio(records, k) < 0.95)
  {
    RosterSees(records, "");
    if CountRecords(records).Some? {
      var t := CountRecords(records).value;
      NoRecordsNoTypes(records);
      forall k
        ensures k in t.order <==> IsMentioned(records, k)
        ensures CountsOf(t, k) == InRoster(records, k)
        ensures k in t.order <==> k in t.counts
      {
        RosterSees(records, k);
        RosterCounts(records, k);
      }
      ConclusionIsRight(t, records);
    }
  }

  lemma HalfOrMore(a: nat, b: nat)
    requires b > 0
    ensures a as real / b as real >= 0.5 <==> 2 * a >= b
  {
    var q := a as real / b as real;
    assert q * b as real == a as real;
    assert (q - 0.5) * b as real == q * b as real - 0.5 * b as real;
    TimesPositive(q - 0.5, b as real);
  }

  lemma TimesPositive(x: real, y: real)
    requires y > 0.0
    ensures x * y >= 0.0 <==> x >= 0.0
  {
  }

  lemma ConclusionIsRight(t: Tally, records: seq<Record>)
    requires t.order != [] ==> records != []
    requires forall k :: k in t.order <==> k in t.counts
    requires forall k :: k in t.order <==> IsMentioned(records, k)
    requires forall k :: CountsOf(t, k) == InRoster(records, k)
    ensures var u := Conclude(t, |records|);
            && (forall k :: k in u.distinct || u.proxy == Some(k) <==> IsMentioned(records, k))
            && (u.proxy.Some? ==> u.proxy.value !in u.distinct && IsReplica(records, u.proxy.value))
            && (u.proxy.None? ==> forall k :: IsDense(records, k) ==> MatchRatio(records, k) < 0.95)
  {
    forall k | IsDense(records, k)
      ensures k in t.order && t.counts[k] == InRoster(records, k)
    {
      assert IsMentioned(records, k);
    }
    forall k | records != [] ensures InRoster(records, k).Dense(|records|) <==> 2 * InRoster(records, k).nonNulls >= |records| {
      HalfOrMore(InRoster(records, k).nonNulls, |records|);
    }
    if t.order != [] {
      var dense := DenseTypes(t, t.order, |records|);
      DenseIsDivisible(t, dense, |records|);
      forall k ensures k in dense <==> IsDense(records, k) {
        assert k in t.order <==> IsMentioned(records, k);
        assert CountsOf(t, k) == InRoster(records, k);
      }
      forall k | k in dense ensures t.counts[k].MatchRatio() == MatchRatio(records, k) {
        assert CountsOf(t, k) == InRoster(records, k);
      }
    }
  }

  /* Reporting */

  // report_unmatched_students: an empty proxy name counts as none.
  function ReportedIdType(matchedIdType: string, proxy: Option<string>): (r: string) {
    if matchedIdType == "studentUniqueId" && proxy.Some? && proxy.value != "" then proxy.value else matchedIdType
  }

  // studentUniqueId is reported only when nothing in the roster replicates it, or that has an empty
  // name, or is itself named so.
  lemma ReportsUniqueIdIff(matchedIdType: string, records: seq<Record>)
    requires Unpack(records).Some?
    ensures var proxy := Unpack(records).value.proxy;
            ReportedIdType(matchedIdType, proxy) == "studentUniqueId"
            <==> matchedIdType == "studentUniqueId"
                 && (proxy == Some("") || proxy == Some("studentUniqueId")
                     || forall k :: IsDense(records, k) ==> MatchRatio(records, k) < 0.95)
  {
    UnpackedIsRight(records);
  }

  // It happens: the only descriptor of a one-record roster ends in '#', and its code is the student's
  // unique ID.
  lemma NamelessReplicaHappens()
    ensures var id := Present(Text("1"));
            var records := [Record(Present(Some([IdCode(Present(Text("uri#")), id)])), Present(Reference(id)))];
            Unpack(records) == Some(Unpacked({}, Some(""))) && ReportedIdType("studentUniqueId", Some("")) == "studentUniqueId"
  {
    var id := Present(Text("1"));
    var code := IdCode(Present(Text("uri#")), id);
    var record := Record(Present(Some([code])), Present(Reference(id)));
    assert LastPart("uri#") == "";
    assert [code][..0] == [] && [record][..0] == [];
    assert WalkCodes(NO_TYPES, record, [code]) == Step(NO_TYPES, record, code);
    var t := Tally([""], map["" := Counts(1, 1)]);
    assert Step(NO_TYPES, record, code) == Walked(t);
    assert CountRecords([record]) == CountRecord(NO_TYPES, record) == Some(t);
    assert [""][..0] == [] && t.counts[""].Dense(1);
    assert DenseTypes(t, [""], 1) == [""];
    assert BestType(t, [""]) == "";
    assert (set k | k in [""]) - {""} == {};
  }
}
