/** The list query string both providers build for GET_LIST and
    GET_MANY_REFERENCE: a sort term, a pagination term and a filter fragment,
    joined by `&`. The two Strapi generations differ only in the spelling of
    each term, so the encoder takes the dialect as a parameter. */
module QueryEncoding {
  import opened JsValues

  /** `Legacy` is the `_sort`/`_start`/`_limit` dialect of index.js; `StrapiV4` is
      the `sort`/`pagination[...]`/`filters[...]` dialect of index.ts. */
  datatype Dialect = Legacy | StrapiV4

  /** The list parameters react-admin passes. An absent `target` is "" (both
      are falsy and neither contains "_id"); an absent `id` is Undefined. */
  datatype QueryParams = QueryParams(
    page: int,
    perPage: int,
    sortField: string,
    sortOrder: string,
    filter: Fields,
    target: string,
    id: Value)

  /** `toLowerCase` on ASCII letters. */
  function Lower(s: string): (r: string)
    ensures |r| == |s|
  {
    if s == [] then []
    else [if 'A' <= s[0] <= 'Z' then (s[0] as int + 32) as char else s[0]] + Lower(s[1..])
  }

  predicate OccursAt(s: string, sub: string, i: nat) {
    i + |sub| <= |s| && s[i..i + |sub|] == sub
  }

  /** `s.indexOf(sub) !== -1`. */
  predicate Contains(s: string, sub: string) {
    exists i: nat :: i <= |s| && OccursAt(s, sub, i)
  }

  function SortTerm(d: Dialect, field: string, order: string): string {
    match d
    case Legacy => if field == "" then "_sort=updated_at:DESC" else "_sort=" + field + ":" + order
    case StrapiV4 => if field == "" then "sort=updated_at:desc" else "sort=" + field + ":" + Lower(order)
  }

  /** An equality filter on one field. */
  function FieldTerm(d: Dialect, k: string, v: Value): string {
    match d
    case Legacy => k + "=" + ToStr(v)
    case StrapiV4 => "filters[" + k + "]_eq=" + ToStr(v)
  }

  /** One filter entry: `q` with a value other than "" is the full-text search
      term; every other entry, `q` with "" included, is an equality filter. */
  function FilterTerm(d: Dialect, k: string, v: Value): string {
    if k == "q" && v != Str("") then "_q=" + ToStr(v) else FieldTerm(d, k, v)
  }

  /** `keys[i + 1] ? "&" : ""`: a separator follows entry i only when a next
      key exists and is truthy, so an empty next key glues two terms. */
  function Separator(f: Fields, i: nat): string
    requires i < |f|
  {
    if i + 1 < |f| && f[i + 1].0 != "" then "&" else ""
  }

  /** The filter text after the loop has handled the first n entries. */
  function FilterPrefix(d: Dialect, f: Fields, n: nat): string
    requires n <= |f|
  {
    if n == 0 then "" else FilterPrefix(d, f, n - 1) + FilterTerm(d, f[n - 1].0, f[n - 1].1) + Separator(f, n - 1)
  }

  /** Reference scoping: when `id` is truthy and `target` contains "_id"
      anywhere, the filter gains an equality filter on `target` minus its last
      three characters. */
  function ScopeFilter(d: Dialect, filter: string, target: string, id: Value): string {
    filter + ScopeTail(d, target, id)
  }

  /** What reference scoping appends to the filter fragment. */
  function ScopeTail(d: Dialect, target: string, id: Value): string {
    if Truthy(id) && Contains(target, "_id") then "&" + FieldTerm(d, target[..|target| - 3], id) else ""
  }

  function StartKey(d: Dialect): string {
    if d == Legacy then "_start=" else "pagination[start]="
  }

  function LimitKey(d: Dialect): string {
    if d == Legacy then "&_limit=" else "&pagination[limit]="
  }

  /** The offset of the first record of a page. */
  function Start(page: int, perPage: int): int {
    (page - 1) * perPage
  }

  function RangeTerm(d: Dialect, page: int, perPage: int): string {
    StartKey(d) + IntToString(Start(page, perPage)) + LimitKey(d) + IntToString(perPage)
  }

  function QueryString(d: Dialect, q: QueryParams): string {
    SortTerm(d, q.sortField, q.sortOrder) + "&" + RangeTerm(d, q.page, q.perPage) + "&"
      + ScopeFilter(d, FilterPrefix(d, q.filter, |q.filter|), q.target, q.id)
  }

  /** The filter loop of `adjustQueryForStrapi`: entry by entry, in key order. */
  method FilterFragment(d: Dialect, f: Fields) returns (filter: string)
    ensures filter == FilterPrefix(d, f, |f|)
  {
    filter := "";
    var i := 0;
    while i < |f|
      invariant 0 <= i <= |f|
      invariant filter == FilterPrefix(d, f, i)
    {
      var term := FilterTerm(d, f[i].0, f[i].1);
      var sep := Separator(f, i);
      FilterPrefixStep(d, f, i, term, sep);
      filter := filter + term + sep;
      i := i + 1;
    }
  }

  lemma FilterPrefixStep(d: Dialect, f: Fields, i: nat, term: string, sep: string)
    requires i < |f| && term == FilterTerm(d, f[i].0, f[i].1) && sep == Separator(f, i)
    ensures FilterPrefix(d, f, i + 1) == FilterPrefix(d, f, i) + term + sep
  {
  }

  /** `adjustQueryForStrapi`: sort, then pagination, then the filter
      fragment with its optional reference scoping. */
  method AdjustQueryForStrapi(d: Dialect, q: QueryParams) returns (query: string)
    ensures query == QueryString(d, q)
  {
    var sort := SortTerm(d, q.sortField, q.sortOrder);
    var filter := FilterFragment(d, q.filter);
    ScopeFilterCases(d, filter, q.target, q.id);
    if Truthy(q.id) && Contains(q.target, "_id") {
      var target := q.target[..|q.target| - 3];
      filter := filter + ("&" + FieldTerm(d, target, q.id));
    }
    var start := Start(q.page, q.perPage);
    var range := StartKey(d) + IntToString(start) + LimitKey(d) + IntToString(q.perPage);
    QueryStringParts(d, q, sort, range, filter);
    query := sort + "&" + range + "&" + filter;
  }

  lemma ScopeFilterCases(d: Dialect, filter: string, target: string, id: Value)
    ensures Truthy(id) && Contains(target, "_id") ==>
              |target| >= 3 && ScopeFilter(d, filter, target, id) == filter + ("&" + FieldTerm(d, target[..|target| - 3], id))
    ensures !(Truthy(id) && Contains(target, "_id")) ==> ScopeFilter(d, filter, target, id) == filter
  {
  }

  lemma QueryStringParts(d: Dialect, q: QueryParams, sort: string, range: string, filter: string)
    requires sort == SortTerm(d, q.sortField, q.sortOrder)
    requires range == StartKey(d) + IntToString(Start(q.page, q.perPage)) + LimitKey(d) + IntToString(q.perPage)
    requires filter == ScopeFilter(d, FilterPrefix(d, q.filter, |q.filter|), q.target, q.id)
    ensures QueryString(d, q) == sort + "&" + range + "&" + filter
  {
  }

  // ---------------------------------------------------------------------------
  // Properties of the encoding

  function Terms(d: Dialect, f: Fields): (ts: seq<string>)
    ensures |ts| == |f|
  {
    seq(|f|, i requires 0 <= i < |f| => FilterTerm(d, f[i].0, f[i].1))
  }

  lemma {:induction false} FilterPrefixJoin(d: Dialect, f: Fields, n: nat)
    requires 0 < n <= |f|
    requires forall i :: 0 <= i < |f| ==> f[i].0 != ""
    ensures FilterPrefix(d, f, n) == Join("&", Terms(d, f)[..n]) + (if n < |f| then "&" else "")
  {
    var ts := Terms(d, f);
    if n == 1 {
      assert FilterPrefix(d, f, 0) == "";
    } else {
      FilterPrefixJoin(d, f, n - 1);
      assert ts[..n][..n - 1] == ts[..n - 1];
    }
  }

  /** With no empty key, the filter fragment is the entries' terms joined by
      `&`: no leading and no trailing separator. */
  lemma FilterIsJoinedTerms(d: Dialect, f: Fields)
    requires forall i :: 0 <= i < |f| ==> f[i].0 != ""
    ensures FilterPrefix(d, f, |f|) == Join("&", Terms(d, f))
  {
    if |f| > 0 {
      FilterPrefixJoin(d, f, |f|);
      assert Terms(d, f)[..|f|] == Terms(d, f);
    }
  }

  /** An empty key drops the `&` before its term. */
  lemma EmptyFilterKeyGluesTerms()
    ensures FilterPrefix(Legacy, [("a", Str("1")), ("", Str("2"))], 2) == "a=1=2"
  {
    var f: Fields := [("a", Str("1")), ("", Str("2"))];
    assert Separator(f, 0) == "";
    assert FilterPrefix(Legacy, f, 1) == "a=1";
  }

  /** The two dialects spell a filter entry alike exactly when it is a
      full-text search: `q` with a value other than "" is `_q=value` in both,
      and every equality filter, `q` with "" included, differs. */
  lemma DialectsAgreeOnlyOnSearch(k: string, v: Value)
    ensures FilterTerm(Legacy, k, v) == FilterTerm(StrapiV4, k, v) <==> k == "q" && v != Str("")
  {
    if !(k == "q" && v != Str("")) {
      assert |FilterTerm(StrapiV4, k, v)| == |FilterTerm(Legacy, k, v)| + 12;
    }
  }

  lemma {:induction false} LowerIdempotent(s: string)
    ensures Lower(Lower(s)) == Lower(s)
  {
    if s != [] {
      LowerIdempotent(s[1..]);
      assert Lower(s)[1..] == Lower(s[1..]);
    }
  }

  /** Without a sort field the term sorts by `updated_at` descending,
      whatever the order says; with one, the field and the order can be read
      back from either side of the first `:` after the key, provided the
      field holds no `:`. The legacy order is kept verbatim. */
  lemma SortTermReadsBack(d: Dialect, field: string, order: string)
    ensures field == "" ==>
              SortTerm(d, field, order) == if d == Legacy then "_sort=updated_at:DESC" else "sort=updated_at:desc"
    ensures field != "" && ':' !in field ==>
              var key := if d == Legacy then "_sort=" else "sort=";
              var t := SortTerm(d, field, order);
              && t[..|key|] == key
              && t[|key|..|key| + |field|] == field
              && t[|key| + |field|] == ':'
              && t[|key| + |field| + 1..] == (if d == Legacy then order else Lower(order))
  {
    if field != "" && ':' !in field {
      var key := if d == Legacy then "_sort=" else "sort=";
      var o := if d == Legacy then order else Lower(order);
      assert SortTerm(d, field, order) == key + field + ":" + o;
    }
  }

  /** The modern sort term is the legacy one without its underscore, with the
      order lower-cased; the case of the order given to it does not matter. */
  lemma SortTermsAcrossDialects(field: string, order: string)
    ensures field != "" ==>
              SortTerm(StrapiV4, field, order) == SortTerm(Legacy, field, Lower(order))[1..]
    ensures SortTerm(StrapiV4, field, Lower(order)) == SortTerm(StrapiV4, field, order)
  {
    LowerIdempotent(order);
    if field != "" {
      assert ("_sort=" + field + ":" + Lower(order))[1..] == "sort=" + field + ":" + Lower(order);
    }
  }

  /** Reference scoping of a target that ends in "_id" filters on the field
      name before that suffix; it never applies without a truthy id. */
  lemma ReferenceScopingOfIdField(d: Dialect, name: string, id: Value)
    ensures Truthy(id) ==> ScopeFilter(d, "", name + "_id", id) == "&" + FieldTerm(d, name, id)
    ensures !Truthy(id) ==> ScopeFilter(d, "", name + "_id", id) == ""
  {
    var t := name + "_id";
    assert OccursAt(t, "_id", |name|);
    assert t[..|t| - 3] == name;
    assert Contains(t, "_id");
  }

  /** The target only has to contain "_id": the last three characters are
      dropped whatever they are. */
  lemma ReferenceScopingDropsLastThree()
    ensures ScopeFilter(Legacy, "a=1", "author_id_ref", Num(5)) == "a=1&author_id_=5"
  {
    var t := "author_id_ref";
    assert OccursAt(t, "_id", 6);
    assert t[..|t| - 3] == "author_id_";
    assert Contains(t, "_id");
  }

  /** Reference scoping only appends: the query of a reference request is
      the query without a target, followed by nothing or by `&` and the
      equality filter on the target minus its last three characters. */
  lemma ScopingOnlyAppends(d: Dialect, q: QueryParams)
    ensures QueryString(d, q) == QueryString(d, q.(target := "")) + ScopeTail(d, q.target, q.id)
  {
    var plain := q.(target := "");
    var head := SortTerm(d, q.sortField, q.sortOrder) + "&" + RangeTerm(d, q.page, q.perPage) + "&"
                + FilterPrefix(d, q.filter, |q.filter|);
    var tail := ScopeTail(d, q.target, q.id);
    NoScopeWithoutTarget(d, q.id);
    QueryStringSplit(d, q);
    QueryStringSplit(d, plain);
    assert QueryString(d, plain) == head + [];
    assert head + [] == head;
    assert QueryString(d, q) == head + tail;
  }

  lemma QueryStringSplit(d: Dialect, q: QueryParams)
    ensures QueryString(d, q) ==
              (SortTerm(d, q.sortField, q.sortOrder) + "&" + RangeTerm(d, q.page, q.perPage) + "&"
               + FilterPrefix(d, q.filter, |q.filter|)) + ScopeTail(d, q.target, q.id)
  {
  }

  lemma NoScopeWithoutTarget(d: Dialect, id: Value)
    ensures ScopeTail(d, "", id) == ""
  {
    assert !Contains("", "_id");
  }

  /** A reference request on `name_id` queries exactly what the same request
      without a target queries, plus an equality filter on `name` when the
      id is truthy. */
  lemma ReferenceQueryOfIdField(d: Dialect, q: QueryParams, name: string)
    requires q.target == name + "_id"
    ensures Truthy(q.id) ==> QueryString(d, q) == QueryString(d, q.(target := "")) + "&" + FieldTerm(d, name, q.id)
    ensures !Truthy(q.id) ==> QueryString(d, q) == QueryString(d, q.(target := ""))
  {
    var t := q.target;
    assert OccursAt(t, "_id", |name|);
    assert t[..|t| - 3] == name;
    assert Contains(t, "_id");
    ScopingOnlyAppends(d, q);
  }

  lemma NumberAfterKey(key: string, n: nat, tail: string)
    requires tail == [] || !IsDigit(tail[0])
    ensures ParseInt((key + NatToString(n) + tail)[|key|..]) == Num(n)
  {
    assert (key + NatToString(n) + tail)[|key|..] == NatToString(n) + tail;
    ParseIntReadsBack(n, tail);
  }

  /** The server reads back `start = (page - 1) * perPage` from the
      pagination term. */
  lemma StartOfPage(page: int, perPage: int)
    requires page >= 1 && perPage >= 0
    ensures Start(page, perPage) >= 0
  {
    assert (page - 1) * perPage >= 0;
  }

  lemma RangeStartReadsBack(d: Dialect, page: int, perPage: int)
    requires page >= 1 && perPage >= 0
    ensures Start(page, perPage) >= 0
    ensures ParseInt(RangeTerm(d, page, perPage)[|StartKey(d)|..]) == Num(Start(page, perPage))
  {
    StartOfPage(page, perPage);
    var start: nat := Start(page, perPage);
    var key, digits, tail := StartKey(d), NatToString(start), LimitKey(d) + IntToString(perPage);
    assert tail[0] == '&';
    assert IntToString(start) == digits;
    assert RangeTerm(d, page, perPage) == key + digits + tail;
    NumberAfterKey(key, start, tail);
  }



  /** The server reads back `limit = perPage`: the pagination term ends with it. */
  lemma RangeLimitReadsBack(d: Dialect, page: int, perPage: int)
    requires perPage >= 0
    ensures var key := StartKey(d) + IntToString(Start(page, perPage)) + LimitKey(d);
            && RangeTerm(d, page, perPage)[..|key|] == key
            && ParseInt(RangeTerm(d, page, perPage)[|key|..]) == Num(perPage)
  {
    var key := StartKey(d) + IntToString(Start(page, perPage)) + LimitKey(d);
    var r := RangeTerm(d, page, perPage);
    assert r == key + NatToString(perPage);
    assert r[|key|..] == NatToString(perPage);
    ParseIntOfNatToString(perPage);
  }
}
