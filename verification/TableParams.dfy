/**
  The state of tables kept in URL search parameters: sorting, pagination, search and column filters,
  under names that a prefix sets apart for each table.
 */
module TableParams {
  import opened Wrappers
  import Base64

  // A search parameter: one string, or several.
  datatype Value = Str(s: string) | Strs(ss: seq<string>)
  type Params = map<string, Value>

  datatype Sorting = Sorting(id: string, desc: bool)
  datatype Pagination = Pagination(pageSize: nat, pageIndex: nat)
  datatype Json = Null | Bool(b: bool) | Num(n: int) | Text(s: string) | List(items: seq<Json>)
  datatype Filter = Filter(id: string, value: Json)

  // What the browser provides: JSON.stringify and JSON.parse on lists of filters, with their ids and
  // values renamed to i and v, and decodeURIComponent.  None is a thrown error.
  datatype Platform = Platform(
    stringify: seq<Filter> -> string,
    parse: string -> Option<seq<Filter>>,
    decodeUri: string -> Option<string>)
  {
    ghost predicate Valid() {
      && (forall filters :: stringify(filters) != "" && parse(stringify(filters)) == Some(filters))
      && (forall s: string :: '%' !in s ==> decodeUri(s) == Some(s))
      // JSON escapes no character beyond Latin-1.
      && (forall filters: seq<Filter>, f :: f in filters && !IsLatin1(f.id) ==> !IsLatin1(stringify(filters)))
    }
  }

  /* Names */

  function PrefixedName(name: string, prefix: Option<string>): string {
    if prefix.Some? then prefix.value + "_" + name else name
  }

  datatype Kind = PaginationKind | SortKind | SearchKind | FilterKind

  function NamesOf(kind: Kind): set<string> {
    match kind
    case PaginationKind => {"pageSize", "pageIndex"}
    case SortKind => {"sortCol", "sortDesc"}
    case SearchKind => {"search"}
    case FilterKind => {"colfilter"}
  }

  function Names(kind: Kind, prefix: Option<string>): (names: set<string>) {
    set name | name in NamesOf(kind) :: PrefixedName(name, prefix)
  }

  // Where the part after the last underscore starts.
  function NameStart(s: string): (i: nat)
    ensures i <= |s|
  {
    if s == "" then 0 else if s[|s| - 1] == '_' then |s| else NameStart(s[..|s| - 1])
  }

  lemma {:induction false} NameStartsAfterPrefix(name: string, prefix: Option<string>)
    requires '_' !in name
    ensures NameStart(PrefixedName(name, prefix)) == if prefix.Some? then |prefix.value| + 1 else 0
  {
    if name != "" {
      var front, x := name[..|name| - 1], PrefixedName(name, prefix);
      assert x[..|x| - 1] == PrefixedName(front, prefix);
      assert x[|x| - 1] == name[|name| - 1] && name[|name| - 1] in name;
      NameStartsAfterPrefix(front, prefix);
    }
  }

  // Without an underscore in them, distinct names never collide, whatever the prefixes.
  lemma PrefixedNamesDiffer(a: string, p: Option<string>, b: string, q: Option<string>)
    requires '_' !in a && '_' !in b
    ensures PrefixedName(a, p) == PrefixedName(b, q) <==> a == b && p == q
  {
    NameStartsAfterPrefix(a, p);
    NameStartsAfterPrefix(b, q);
    NameAndPrefix(a, p);
    NameAndPrefix(b, q);
  }

  lemma NameAndPrefix(name: string, prefix: Option<string>)
    ensures prefix.Some? ==> PrefixedName(name, prefix)[..|prefix.value|] == prefix.value
    ensures PrefixedName(name, prefix)[if prefix.Some? then |prefix.value| + 1 else 0..] == name
  {
  }

  /* Numbers and strings */

  const FIGURES := "0123456789"

  // String(n)
  function Decimal(n: nat): (s: string)
    ensures s != ""
  {
    if n < 10 then [FIGURES[n]] else Decimal(n / 10) + [FIGURES[n % 10]]
  }

  function Figure(c: char): Option<nat> {
    if '0' <= c <= '9' then Some((c - '0') as int) else None
  }

  // Number(s), where it is a natural number written in figures.
  function ParseDecimal(s: string): (n: Option<nat>) {
    if s == "" then None
    else
      var last := Figure(s[|s| - 1]);
      if |s| == 1 then last
      else
        var front := ParseDecimal(s[..|s| - 1]);
        if front.None? || last.None? then None else Some(front.value * 10 + last.value)
  }

  lemma {:induction false} ParseInvertsDecimal(n: nat)
    ensures ParseDecimal(Decimal(n)) == Some(n)
  {
    if n >= 10 {
      var s := Decimal(n);
      assert s[..|s| - 1] == Decimal(n / 10);
      ParseInvertsDecimal(n / 10);
    }
  }

  predicate IsLatin1(s: string) {
    forall c :: c in s ==> c as int < 256
  }

  function Code(c: char): Base64.Byte
    requires c as int < 256
  {
    c as int
  }

  function Codes(s: string): seq<Base64.Byte>
    requires IsLatin1(s)
  {
    seq(|s|, i requires 0 <= i < |s| => assert s[i] in s; Code(s[i]))
  }

  function Chars(bs: seq<Base64.Byte>): string {
    seq(|bs|, i requires 0 <= i < |bs| => bs[i] as char)
  }

  // JavaScript's coercion to a string.
  function ToString(v: Value): string {
    match v
    case Str(s) => s
    case Strs(ss) => Join(ss)
  }

  function Join(ss: seq<string>): string {
    if ss == [] then "" else if |ss| == 1 then ss[0] else ss[0] + "," + Join(ss[1..])
  }

  predicate IsTruthy(v: Option<Value>) {
    v.Some? && v.value != Str("")
  }

  /* Reading */

  // None is a number other than a natural one, or NaN.
  function GetPaginationParams(params: Params, defaultPageSize: nat, prefix: Option<string>): (Option<nat>, Option<nat>) {
    var pageSize, pageIndex := Get(params, PrefixedName("pageSize", prefix)), Get(params, PrefixedName("pageIndex", prefix));
    (if IsTruthy(pageSize) then ParseDecimal(ToString(pageSize.value)) else Some(defaultPageSize),
     if IsTruthy(pageIndex) then ParseDecimal(ToString(pageIndex.value)) else Some(0))
  }

  // None is a TypeError: a single string has no map().
  function GetSortParams(params: Params, prefix: Option<string>): Option<seq<Sorting>> {
    var cols: Option<Value>, descs: Option<Value> :=
      Get(params, PrefixedName("sortCol", prefix)), Get(params, PrefixedName("sortDesc", prefix));
    if descs.Some? && descs.value.Str? then None
    else if cols.None? || descs.None? || Length(cols.value) == 0 || Length(cols.value) != Length(descs.value) then Some([])
    else if cols.value.Str? then None
    else
      var ids, isDescs := cols.value.ss, descs.value.ss;
      Some(seq(|ids|, i requires 0 <= i < |ids| => Sorting(ids[i], isDescs[i] == "true")))
  }

  function Length(v: Value): nat {
    match v
    case Str(s) => |s|
    case Strs(ss) => |ss|
  }

  function GetGlobalFilterParam(params: Params, prefix: Option<string>): Option<Value> {
    Get(params, PrefixedName("search", prefix))
  }

  function GetColumnFilterParam(params: Params, prefix: Option<string>, platform: Platform): seq<Filter> {
    var param := Get(params, PrefixedName("colfilter", prefix));
    if !IsTruthy(param) then []
    else
      var text := platform.decodeUri(ToString(param.value));
      var bytes := if text.Some? then Base64.Atob(text.value) else None;
      var filters := if bytes.Some? then platform.parse(Chars(bytes.value)) else None;
      if filters.Some? then filters.value else []
  }

  /* Writing */

  datatype Setting =
    | SetPagination(page: Pagination, defaultPageSize: nat)
    | SetSort(sorting: seq<Sorting>)
    | SetSearch(search: Option<string>)
    | SetFilters(filters: seq<Filter>)
  {
    function Kind(): Kind {
      match this
      case SetPagination(_, _) => PaginationKind
      case SetSort(_) => SortKind
      case SetSearch(_) => SearchKind
      case SetFilters(_) => FilterKind
    }
  }

  function Ids(sorting: seq<Sorting>): seq<string> {
    seq(|sorting|, i requires 0 <= i < |sorting| => sorting[i].id)
  }

  function Descs(sorting: seq<Sorting>): seq<string> {
    seq(|sorting|, i requires 0 <= i < |sorting| => if sorting[i].desc then "true" else "false")
  }

  // btoa throws on anything beyond Latin-1.
  function StringifyColumnFilters(filters: seq<Filter>, platform: Platform): Option<string> {
    var text := platform.stringify(filters);
    if IsLatin1(text) then Some(Base64.Btoa(Codes(text))) else None
  }

  function Entry(name: string, value: Option<Value>): Params {
    if value.Some? then map[name := value.value] else map[]
  }

  function When(condition: bool, s: string): Option<Value> {
    if condition then Some(Str(s)) else None
  }

  // The parameters that a setting is written to; a default takes none.
  function Entries(setting: Setting, prefix: Option<string>, platform: Platform): Params {
    match setting
    case SetPagination(page, defaultPageSize) =>
      Entry(PrefixedName("pageSize", prefix), When(page.pageSize != defaultPageSize, Decimal(page.pageSize)))
      + Entry(PrefixedName("pageIndex", prefix), When(page.pageIndex != 0, Decimal(page.pageIndex)))
    case SetSort(sorting) =>
      Entry(PrefixedName("sortCol", prefix), if sorting == [] then None else Some(Strs(Ids(sorting))))
      + Entry(PrefixedName("sortDesc", prefix), if sorting == [] then None else Some(Strs(Descs(sorting))))
    case SetSearch(search) =>
      Entry(PrefixedName("search", prefix), if search.Some? then When(search.value != "", search.value) else None)
    case SetFilters(filters) =>
      var text := StringifyColumnFilters(filters, platform);
      Entry(PrefixedName("colfilter", prefix), if text.Some? then When(filters != [], text.value) else None)
  }

  function Write(params: Params, setting: Setting, prefix: Option<string>, platform: Platform): Params {
    (params - Names(setting.Kind(), prefix)) + Entries(setting, prefix, platform)
  }

  function Put(params: Params, name: string, value: Option<Value>): Params {
    if value.Some? then params[name := value.value] else params
  }

  lemma PutTwo(params: Params, a: string, b: string, x: Option<Value>, y: Option<Value>)
    requires a != b
    ensures Put(Put(params - {a} - {b}, a, x), b, y) == (params - {a, b}) + (Entry(a, x) + Entry(b, y))
  {
  }

  lemma PutOne(params: Params, a: string, x: Option<Value>)
    ensures Put(params - {a}, a, x) == (params - {a, a}) + Entry(a, x)
  {
  }

  class SearchParams {
    var entries: Params

    constructor (entries: Params)
      ensures this.entries == entries
    {
      this.entries := entries;
    }

    method SetPaginationParams(page: Pagination, defaultPageSize: nat, prefix: Option<string>, ghost platform: Platform)
      modifies this
      ensures entries == Write(old(entries), SetPagination(page, defaultPageSize), prefix, platform)
    {
      var pageSizeName, pageIndexName := PrefixedName("pageSize", prefix), PrefixedName("pageIndex", prefix);
      PrefixedNamesDiffer("pageSize", prefix, "pageIndex", prefix);
      NamesOfTwo(PaginationKind, "pageSize", "pageIndex", prefix);
      PutTwo(entries, pageSizeName, pageIndexName,
             When(page.pageSize != defaultPageSize, Decimal(page.pageSize)), When(page.pageIndex != 0, Decimal(page.pageIndex)));
      entries := entries - {pageSizeName};
      entries := entries - {pageIndexName};
      if page.pageSize != defaultPageSize {
        entries := entries[pageSizeName := Str(Decimal(page.pageSize))];
      }
      if page.pageIndex != 0 {
        entries := entries[pageIndexName := Str(Decimal(page.pageIndex))];
      }
    }

    method SetGlobalFilterParam(search: Option<string>, prefix: Option<string>, ghost platform: Platform)
      modifies this
      ensures entries == Write(old(entries), SetSearch(search), prefix, platform)
    {
      var paramName := PrefixedName("search", prefix);
      NamesOfTwo(SearchKind, "search", "search", prefix);
      PutOne(entries, paramName, if search.Some? then When(search.value != "", search.value) else None);
      entries := entries - {paramName};
      if search.Some? && search.value != "" {
        entries := entries[paramName := Str(search.value)];
      }
    }

    // Fails when btoa throws; the parameter is gone by then.
    method SetColumnFilterParam(filters: seq<Filter>, prefix: Option<string>, platform: Platform) returns (ok: bool)
      modifies this
      ensures entries == Write(old(entries), SetFilters(filters), prefix, platform)
      ensures ok <==> filters == [] || IsLatin1(platform.stringify(filters))
    {
      var paramName := PrefixedName("colfilter", prefix);
      var text := StringifyColumnFilters(filters, platform);
      NamesOfTwo(FilterKind, "colfilter", "colfilter", prefix);
      PutOne(entries, paramName, if text.Some? then When(filters != [], text.value) else None);
      entries := entries - {paramName};
      ok := true;
      if |filters| > 0 {
        ok := text.Some?;
        if ok {
          entries := entries[paramName := Str(text.value)];
        }
      }
    }

    method SetSortParams(sorting: seq<Sorting>, prefix: Option<string>, ghost platform: Platform)
      modifies this
      ensures entries == Write(old(entries), SetSort(sorting), prefix, platform)
    {
      var colName, descName := PrefixedName("sortCol", prefix), PrefixedName("sortDesc", prefix);
      ghost var before := entries;
      entries := entries - {colName};
      entries := entries - {descName};
      ghost var rest := entries;
      PrefixedNamesDiffer("sortCol", prefix, "sortDesc", prefix);
      NamesOfTwo(SortKind, "sortCol", "sortDesc", prefix);
      for i := 0 to |sorting|
        invariant entries == Put(Put(rest, colName, SortValue(Ids(sorting[..i]))), descName, SortValue(Descs(sorting[..i])))
      {
        AppendSort(rest, colName, descName, sorting[..i], sorting[i], entries);
        var cols := if colName in entries && entries[colName].Strs? then entries[colName].ss else [];
        entries := entries[colName := Strs(cols + [sorting[i].id])];
        var descs := if descName in entries && entries[descName].Strs? then entries[descName].ss else [];
        entries := entries[descName := Strs(descs + [if sorting[i].desc then "true" else "false"])];
        assert sorting[..i + 1] == sorting[..i] + [sorting[i]];
      }
      assert sorting[..|sorting|] == sorting;
      PutTwo(before, colName, descName, SortValue(Ids(sorting)), SortValue(Descs(sorting)));
    }
  }

  function SortValue(ss: seq<string>): Option<Value> {
    if ss == [] then None else Some(Strs(ss))
  }

  lemma AppendSort(rest: Params, a: string, b: string, sorting: seq<Sorting>, next: Sorting, entries: Params)
    requires a != b && a !in rest && b !in rest
    requires entries == Put(Put(rest, a, SortValue(Ids(sorting))), b, SortValue(Descs(sorting)))
    ensures (if a in entries && entries[a].Strs? then entries[a].ss else []) == Ids(sorting)
    ensures (if b in entries && entries[b].Strs? then entries[b].ss else []) == Descs(sorting)
    ensures Ids(sorting + [next]) == Ids(sorting) + [next.id]
    ensures Descs(sorting + [next]) == Descs(sorting) + [if next.desc then "true" else "false"]
    ensures entries[a := Strs(Ids(sorting) + [next.id])][b := Strs(Descs(sorting) + [if next.desc then "true" else "false"])]
            == Put(Put(rest, a, SortValue(Ids(sorting + [next]))), b, SortValue(Descs(sorting + [next])))
  {
  }

  lemma NamesOfTwo(kind: Kind, a: string, b: string, prefix: Option<string>)
    requires NamesOf(kind) == {a, b}
    ensures Names(kind, prefix) == {PrefixedName(a, prefix), PrefixedName(b, prefix)}
  {
    assert a in NamesOf(kind) && b in NamesOf(kind);
  }

  /* Reading back what was written */

  lemma EntriesAreNamed(setting: Setting, prefix: Option<string>, platform: Platform)
    ensures Entries(setting, prefix, platform).Keys <= Names(setting.Kind(), prefix)
  {
    match setting
    case SetPagination(_, _) => NamesOfTwo(PaginationKind, "pageSize", "pageIndex", prefix);
    case SetSort(_) => NamesOfTwo(SortKind, "sortCol", "sortDesc", prefix);
    case SetSearch(_) => NamesOfTwo(SearchKind, "search", "search", prefix);
    case SetFilters(_) => NamesOfTwo(FilterKind, "colfilter", "colfilter", prefix);
  }

  lemma WrittenAt(params: Params, setting: Setting, prefix: Option<string>, platform: Platform, name: string)
    ensures Get(Write(params, setting, prefix, platform), name) ==
            if name in Names(setting.Kind(), prefix) then Get(Entries(setting, prefix, platform), name)
            else Get(params, name)
  {
    EntriesAreNamed(setting, prefix, platform);
  }

  lemma PaginationReadsBack(params: Params, page: Pagination, defaultPageSize: nat, prefix: Option<string>, platform: Platform)
    ensures GetPaginationParams(Write(params, SetPagination(page, defaultPageSize), prefix, platform), defaultPageSize, prefix)
            == (Some(page.pageSize), Some(page.pageIndex))
  {
    var setting := SetPagination(page, defaultPageSize);
    NamesOfTwo(PaginationKind, "pageSize", "pageIndex", prefix);
    PrefixedNamesDiffer("pageSize", prefix, "pageIndex", prefix);
    WrittenAt(params, setting, prefix, platform, PrefixedName("pageSize", prefix));
    WrittenAt(params, setting, prefix, platform, PrefixedName("pageIndex", prefix));
    ParseInvertsDecimal(page.pageSize);
    ParseInvertsDecimal(page.pageIndex);
  }

  lemma SortReadsBack(params: Params, sorting: seq<Sorting>, prefix: Option<string>, platform: Platform)
    ensures GetSortParams(Write(params, SetSort(sorting), prefix, platform), prefix) == Some(sorting)
  {
    NamesOfTwo(SortKind, "sortCol", "sortDesc", prefix);
    PrefixedNamesDiffer("sortCol", prefix, "sortDesc", prefix);
    WrittenAt(params, SetSort(sorting), prefix, platform, PrefixedName("sortCol", prefix));
    WrittenAt(params, SetSort(sorting), prefix, platform, PrefixedName("sortDesc", prefix));
    var read := GetSortParams(Write(params, SetSort(sorting), prefix, platform), prefix);
    assert read.Some? && |read.value| == |sorting|;
    forall i | 0 <= i < |sorting| ensures read.value[i] == sorting[i] {
      assert Ids(sorting)[i] == sorting[i].id && Descs(sorting)[i] == if sorting[i].desc then "true" else "false";
      assert |"true"| != |"false"|;
    }
    assert read.value == sorting;
  }

  // Whatever the URL says: a sorting is read exactly where both parameters list as many values, and then
  // column by column; what is no list throws.
  lemma SortIsReadIff(params: Params, prefix: Option<string>)
    ensures var cols, descs := Get(params, PrefixedName("sortCol", prefix)), Get(params, PrefixedName("sortDesc", prefix));
            var read := GetSortParams(params, prefix);
            && (read.Some? && read.value != []
                <==> cols.Some? && descs.Some? && cols.value.Strs? && descs.value.Strs?
                     && |cols.value.ss| == |descs.value.ss| > 0)
            && (read.Some? && read.value != [] ==>
                  && |read.value| == |cols.value.ss|
                  && forall i :: 0 <= i < |read.value| ==>
                       read.value[i].id == cols.value.ss[i] && (read.value[i].desc <==> descs.value.ss[i] == "true"))
            && (read.None? ==> (cols.Some? && cols.value.Str?) || (descs.Some? && descs.value.Str?))
  {
  }

  // An empty search reads back as no search; every other one as itself.
  lemma SearchReadsBackIff(params: Params, search: Option<string>, prefix: Option<string>, platform: Platform)
    ensures var read := GetGlobalFilterParam(Write(params, SetSearch(search), prefix, platform), prefix);
            read == (if search.Some? then Some(Str(search.value)) else None) <==> search != Some("")
  {
    NamesOfTwo(SearchKind, "search", "search", prefix);
    WrittenAt(params, SetSearch(search), prefix, platform, PrefixedName("search", prefix));
  }

  // Column filters read back exactly when there are none or their JSON is Latin-1; otherwise btoa
  // throws and none are left.
  lemma FiltersReadBackIff(params: Params, filters: seq<Filter>, prefix: Option<string>, platform: Platform)
    requires platform.Valid()
    ensures var read := GetColumnFilterParam(Write(params, SetFilters(filters), prefix, platform), prefix, platform);
            && (read == filters <==> filters == [] || IsLatin1(platform.stringify(filters)))
            && (read != filters ==> read == [])
  {
    NamesOfTwo(FilterKind, "colfilter", "colfilter", prefix);
    WrittenAt(params, SetFilters(filters), prefix, platform, PrefixedName("colfilter", prefix));
    var json := platform.stringify(filters);
    if filters != [] && IsLatin1(json) {
      EncodedReadsBack(json, platform);
    }
  }

  // It happens: a filter on a column called "\U{142}", a Polish letter.
  lemma FiltersAreLostHappens(params: Params, prefix: Option<string>, platform: Platform)
    requires platform.Valid()
    ensures var filters := [Filter("\U{142}", Bool(true))];
            GetColumnFilterParam(Write(params, SetFilters(filters), prefix, platform), prefix, platform) == []
  {
    var f := Filter("\U{142}", Bool(true));
    assert f.id[0] in f.id && f.id[0] as int == 0x142;
    assert f in [f] && !IsLatin1(f.id);
    FiltersReadBackIff(params, [f], prefix, platform);
  }

  lemma EncodedReadsBack(json: string, platform: Platform)
    requires platform.Valid() && IsLatin1(json)
    ensures platform.decodeUri(Base64.Btoa(Codes(json))) == Some(Base64.Btoa(Codes(json)))
    ensures Base64.Atob(Base64.Btoa(Codes(json))) == Some(Codes(json)) && Chars(Codes(json)) == json
    ensures Base64.Btoa(Codes(json)) == "" <==> json == ""
  {
    Base64.AtobInvertsBtoa(Codes(json));
    Base64.BtoaDigits(Codes(json));
    assert '%' !in Base64.Btoa(Codes(json)) by { assert !Base64.IsDigitOrPad('%'); }
  }

  /* Settings of other kinds and other tables */

  lemma NamesAreBare(kind: Kind, name: string)
    requires name in NamesOf(kind)
    ensures '_' !in name
  {
  }

  lemma KindsAreApart(a: Kind, b: Kind)
    ensures (exists name :: name in NamesOf(a) && name in NamesOf(b)) <==> a == b
  {
    if a == b {
      var name := match a case PaginationKind => "pageSize" case SortKind => "sortCol" case SearchKind => "search"
                          case FilterKind => "colfilter";
      assert name in NamesOf(a);
    }
  }

  // Two settings share a parameter exactly when they are of the same kind and of the same table.
  lemma NamesAreApart(a: Kind, p: Option<string>, b: Kind, q: Option<string>)
    ensures Names(a, p) !! Names(b, q) <==> a != b || p != q
  {
    KindsAreApart(a, b);
    if a == b && p == q {
      var name :| name in NamesOf(a);
      assert PrefixedName(name, p) in Names(a, p);
    } else if !(Names(a, p) !! Names(b, q)) {
      var x :| x in Names(a, p) && x in Names(b, q);
      var m :| m in NamesOf(a) && x == PrefixedName(m, p);
      var n :| n in NamesOf(b) && x == PrefixedName(n, q);
      NamesAreBare(a, m);
      NamesAreBare(b, n);
      PrefixedNamesDiffer(m, p, n, q);
    }
  }

  // Settings of different kinds or tables can be written in either order, and neither changes what is
  // read of the other; one of the same kind and table replaces the one before.
  lemma SettingsAreIndependent(params: Params, s: Setting, p: Option<string>, t: Setting, q: Option<string>, platform: Platform)
    ensures (s.Kind() != t.Kind() || p != q) ==>
              && Write(Write(params, s, p, platform), t, q, platform) == Write(Write(params, t, q, platform), s, p, platform)
              && (forall name :: name in Names(t.Kind(), q) ==> Get(Write(params, s, p, platform), name) == Get(params, name))
    ensures s.Kind() == t.Kind() && p == q ==>
              Write(Write(params, s, p, platform), t, q, platform) == Write(params, t, q, platform)
  {
    NamesAreApart(s.Kind(), p, t.Kind(), q);
    EntriesAreNamed(s, p, platform);
    EntriesAreNamed(t, q, platform);
    WritesCommute(params, Names(s.Kind(), p), Entries(s, p, platform), Names(t.Kind(), q), Entries(t, q, platform));
  }

  lemma WritesCommute(params: Params, a: set<string>, x: Params, b: set<string>, y: Params)
    requires x.Keys <= a && y.Keys <= b
    ensures a !! b ==>
              && ((params - a) + x - b) + y == ((params - b) + y - a) + x
              && (forall name :: name in b ==> Get((params - a) + x, name) == Get(params, name))
    ensures a == b ==> ((params - a) + x - b) + y == (params - b) + y
  {
  }

  // In particular, what the other getters read stays the same.
  lemma GettersAreIndependent(params: Params, s: Setting, p: Option<string>, q: Option<string>, platform: Platform, size: nat)
    ensures var written := Write(params, s, p, platform);
            && (s.Kind() != PaginationKind || p != q ==>
                  GetPaginationParams(written, size, q) == GetPaginationParams(params, size, q))
            && (s.Kind() != SortKind || p != q ==> GetSortParams(written, q) == GetSortParams(params, q))
            && (s.Kind() != SearchKind || p != q ==> GetGlobalFilterParam(written, q) == GetGlobalFilterParam(params, q))
            && (s.Kind() != FilterKind || p != q ==>
                  GetColumnFilterParam(written, q, platform) == GetColumnFilterParam(params, q, platform))
  {
    forall kind, name | (s.Kind() != kind || p != q) && name in NamesOf(kind)
      ensures Get(Write(params, s, p, platform), PrefixedName(name, q)) == Get(params, PrefixedName(name, q))
    {
      NamesAreApart(s.Kind(), p, kind, q);
      assert PrefixedName(name, q) in Names(kind, q);
      WrittenAt(params, s, p, platform, PrefixedName(name, q));
    }
    assert "pageSize" in NamesOf(PaginationKind) && "pageIndex" in NamesOf(PaginationKind);
    assert "sortCol" in NamesOf(SortKind) && "sortDesc" in NamesOf(SortKind);
    assert "search" in NamesOf(SearchKind) && "colfilter" in NamesOf(FilterKind);
  }
}
