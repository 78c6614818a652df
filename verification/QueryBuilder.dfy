/** The chained list query: two conditions kept equal, bounded pages, and an order without ties. */
module QueryBuilder {
  import opened Wrappers
  import opened Json
  import opened Paging
  import opened Sorting

  const EXCLUDED_FIELDS := ["searchTerm", "page", "limit", "sortBy", "sortOrder", "fields", "include"]
  const SCALAR_OPERATORS := ["lt", "lte", "gt", "gte", "equals", "not", "contains", "startsWith", "endsWith"]
  const ARRAY_OPERATORS := ["in", "notIn"]

  /** `Number(text)`, with None for NaN. */
  type NumberOf = string -> Option<real>

  /** One query parameter, as the query-string parser hands it over. */
  datatype Param = Param(key: string, value: Json)

  datatype Config = Config(searchable: seq<string>, filterable: seq<string>)

  datatype SortKey = SortKey(path: seq<string>, ascending: bool)

  datatype Meta = Meta(page: nat, limit: nat, total: nat, totalPages: nat)

  /** What a table answers: the rows a condition matches, for counting them, and those rows put in an order. */
  datatype Database<T> = Database(matching: Json -> seq<T>, ordered: (Json, seq<SortKey>) -> seq<T>)

  const EMPTY := Obj(map[])

  /* ------------------------------ reading ------------------------------ */

  function Split(s: string): (parts: seq<string>)
    ensures parts != []
  {
    if s == "" then [""]
    else
      var before := Split(s[..|s| - 1]);
      var c := s[|s| - 1];
      if c == '.' then before + [""] else before[|before| - 1 := before[|before| - 1] + [c]]
  }

  function Join(parts: seq<string>): string
    requires parts != []
  {
    if |parts| == 1 then parts[0] else Join(parts[..|parts| - 1]) + "." + parts[|parts| - 1]
  }

  /** The parts hold no dot, and joined by dots they are the text again. */
  lemma {:induction false} SplitRejoins(s: string)
    ensures Join(Split(s)) == s && forall part :: part in Split(s) ==> '.' !in part
  {
    if s != "" {
      var init, c := s[..|s| - 1], s[|s| - 1];
      var before := Split(init);
      SplitRejoins(init);
      assert s == init + [c];
      if c == '.' {
        assert (before + [""])[..|before|] == before;
      } else {
        var last := before[|before| - 1];
        assert before[|before| - 1 := last + [c]][..|before| - 1] == before[..|before| - 1];
        forall part | part in Split(s) ensures '.' !in part {
          assert part in before || part == last + [c];
        }
      }
    }
  }

  /** The condition that puts `leaf` under up to three nested relations; parts beyond the third are ignored. */
  function Nested(path: seq<string>, leaf: Json): (condition: Json)
    requires path != []
    ensures condition.Obj?
  {
    if |path| == 1 then Obj(map[path[0] := leaf])
    else if |path| == 2 then Obj(map[path[0] := Obj(map[path[1] := leaf])])
    else Obj(map[path[0] := Obj(map[path[1] := Obj(map[path[2] := leaf])])])
  }

  function ParseValue(number: NumberOf, j: Json): Json {
    match j
    case Arr(items) => Obj(map["in" := Arr(seq(|items|, i requires 0 <= i < |items| => ParseValue(number, items[i])))])
    case Leaf(Text(text)) =>
      if text == "true" then Leaf(Bool(true))
      else if text == "false" then Leaf(Bool(false))
      else if Trim(text) != "" && number(text).Some? then Leaf(Number(number(text).value))
      else j
    case _ => j
  }

  function ParseOperand(number: NumberOf, operator: string, operand: Json): Json {
    if operator in SCALAR_OPERATORS then ParseValue(number, operand)
    else
      var list := if operand.Arr? then operand.items else [operand];
      Arr(seq(|list|, i requires 0 <= i < |list| => ParseValue(number, list[i])))
  }

  /** Known operators only; a range without one is passed on as it came. */
  function ParseRange(number: NumberOf, value: Json): Json
    requires value.Obj?
  {
    var parsed := map k | k in value.fields && (k in SCALAR_OPERATORS || k in ARRAY_OPERATORS)
      :: ParseOperand(number, k, value.fields[k]);
    if |parsed| > 0 then Obj(parsed) else value
  }

  /** The condition one parameter asks for, unless it shapes the response, is blank, or is not whitelisted. */
  function FilterOf(number: NumberOf, config: Config, p: Param): (condition: Option<Json>)
    ensures condition.Some? ==> condition.value.Obj?
  {
    if p.key in EXCLUDED_FIELDS || p.value == Leaf(Text("")) then None
    else if |config.filterable| > 0 && p.key !in config.filterable then None
    else Some(Nested(Split(p.key), if p.value.Obj? then ParseRange(number, p.value) else ParseValue(number, p.value)))
  }

  function Filtered(number: NumberOf, config: Config, condition: Json, params: seq<Param>): (after: Json)
    requires condition.Obj?
    ensures after.Obj?
  {
    if params == [] then condition
    else
      var before := Filtered(number, config, condition, params[..|params| - 1]);
      var more := FilterOf(number, config, params[|params| - 1]);
      if more.Some? then Merge(before, more.value) else before
  }

  /** With a whitelist that names fields, parameters neither change nor add anything at any other field. */
  lemma {:induction false} WhitelistHolds(number: NumberOf, config: Config, condition: Json, params: seq<Param>, path: seq<string>)
    requires condition.Obj? && path != [] && |config.filterable| > 0
    requires forall f :: f in config.filterable ==> Split(f)[0] != path[0]
    ensures At(Filtered(number, config, condition, params), path) == At(condition, path)
  {
    if params != [] {
      var init, p := params[..|params| - 1], params[|params| - 1];
      WhitelistHolds(number, config, condition, init, path);
      var more := FilterOf(number, config, p);
      if more.Some? {
        assert p.key in config.filterable;
        assert Silent(more.value, path);
        SilenceKeeps(Filtered(number, config, condition, init), more.value, path);
      }
    }
  }

  /* ------------------------- what a parameter asks ---------------------- */

  /** How a value of the query string is to be read: truth values, numbers and lists as such, anything else as it is. */
  predicate ReadsAs(number: NumberOf, value: Json, read: Json) {
    match value
    case Leaf(Text(text)) =>
      if text == "true" then read == Leaf(Bool(true))
      else if text == "false" then read == Leaf(Bool(false))
      else if number(text).Some? && Trim(text) != "" then read == Leaf(Number(number(text).value))
      else read == value
    case Arr(items) =>
      && read.Obj? && "in" in read.fields && |read.fields| == 1 && read.fields["in"].Arr?
      && |read.fields["in"].items| == |items|
      && forall i :: 0 <= i < |items| ==> ReadsAs(number, items[i], read.fields["in"].items[i])
    case _ => read == value
  }

  lemma {:induction false} ValueIsRead(number: NumberOf, value: Json)
    ensures ReadsAs(number, value, ParseValue(number, value))
  {
    if value.Arr? {
      var read := ParseValue(number, value);
      assert read.fields.Keys == {"in"};
      forall i | 0 <= i < |value.items| ensures ReadsAs(number, value.items[i], read.fields["in"].items[i]) {
        ValueIsRead(number, value.items[i]);
      }
    }
  }

  /** The parameter is one that filters: not one that shapes the response, not blank, and whitelisted if there is a whitelist. */
  predicate Filters(config: Config, p: Param) {
    && p.key !in EXCLUDED_FIELDS && p.value != Leaf(Text(""))
    && (config.filterable == [] || p.key in config.filterable)
  }

  /** No parameter after this one says anything at the path. */
  predicate LaterSilent(number: NumberOf, config: Config, params: seq<Param>, i: nat, path: seq<string>) {
    forall j :: i < j < |params| ==>
      var more := FilterOf(number, config, params[j]);
      more.Some? ==> Silent(more.value, path)
  }

  /** What one parameter pins stays pinned. */
  lemma {:induction false} AskedStays(number: NumberOf, config: Config, condition: Json, params: seq<Param>, i: nat, path: seq<string>)
    requires condition.Obj? && i < |params| && LaterSilent(number, config, params, i, path)
    requires FilterOf(number, config, params[i]).Some? && Pins(FilterOf(number, config, params[i]).value, path)
    ensures At(Filtered(number, config, condition, params), path) == At(FilterOf(number, config, params[i]).value, path)
    decreases |params|
  {
    var init, last := params[..|params| - 1], params[|params| - 1];
    var before, more := Filtered(number, config, condition, init), FilterOf(number, config, last);
    if i == |params| - 1 {
      LaterPinsSurvive(before, more.value, path);
    } else {
      assert LaterSilent(number, config, init, i, path) by {
        assert forall j :: i < j < |init| ==> init[j] == params[j];
      }
      AskedStays(number, config, condition, init, i, path);
      if more.Some? {
        SilenceKeeps(before, more.value, path);
      }
    }
  }

  lemma Under(key: string, j: Json, rest: seq<string>)
    ensures At(Obj(map[key := j]), [key] + rest) == At(j, rest)
  {
    assert ([key] + rest)[1..] == rest;
  }

  /** Whatever the leaf says further on, the nested condition says at the end of the path. */
  lemma NestedSays(path: seq<string>, leaf: Json, rest: seq<string>)
    requires 1 <= |path| <= 3
    ensures At(Nested(path, leaf), path + rest) == At(leaf, rest)
  {
    if |path| == 1 {
      assert path + rest == [path[0]] + rest;
      Under(path[0], leaf, rest);
    } else if |path| == 2 {
      assert path + rest == [path[0]] + ([path[1]] + rest);
      Under(path[1], leaf, rest);
      Under(path[0], Obj(map[path[1] := leaf]), [path[1]] + rest);
    } else {
      var inner := Obj(map[path[2] := leaf]);
      assert path + rest == [path[0]] + ([path[1]] + ([path[2]] + rest));
      Under(path[2], leaf, rest);
      Under(path[1], inner, [path[2]] + rest);
      Under(path[0], Obj(map[path[1] := inner]), [path[1]] + ([path[2]] + rest));
    }
  }

  lemma NestedHolds(path: seq<string>, leaf: Json)
    requires 1 <= |path| <= 3
    ensures At(Nested(path, leaf), path) == Some(leaf)
    ensures forall k :: leaf.Obj? && k in leaf.fields ==> At(Nested(path, leaf), path + [k]) == Some(leaf.fields[k])
  {
    NestedSays(path, leaf, []);
    assert path + [] == path;
    forall k | leaf.Obj? && k in leaf.fields ensures At(Nested(path, leaf), path + [k]) == Some(leaf.fields[k]) {
      NestedSays(path, leaf, [k]);
      assert At(leaf.fields[k], [k][1..]) == Some(leaf.fields[k]);
    }
  }

  /** A parameter with a single value: its field is compared with that value as read. */
  lemma ScalarFilterHolds(number: NumberOf, config: Config, condition: Json, params: seq<Param>, i: nat)
    requires condition.Obj? && i < |params| && Filters(config, params[i]) && params[i].value.Leaf?
    requires |Split(params[i].key)| <= 3 && LaterSilent(number, config, params, i, Split(params[i].key))
    ensures var asked := At(Filtered(number, config, condition, params), Split(params[i].key));
            asked.Some? && ReadsAs(number, params[i].value, asked.value)
  {
    var p := params[i];
    var path, leaf := Split(p.key), ParseValue(number, p.value);
    NestedHolds(path, leaf);
    ValueIsRead(number, p.value);
    AskedStays(number, config, condition, params, i, path);
  }

  /** A repeated parameter: its field is one of its values, each as read. */
  lemma ListFilterHolds(number: NumberOf, config: Config, condition: Json, params: seq<Param>, i: nat)
    requires condition.Obj? && i < |params| && Filters(config, params[i]) && params[i].value.Arr?
    requires |Split(params[i].key)| <= 3 && LaterSilent(number, config, params, i, Split(params[i].key) + ["in"])
    ensures var asked := At(Filtered(number, config, condition, params), Split(params[i].key) + ["in"]);
            && asked.Some? && asked.value.Arr? && |asked.value.items| == |params[i].value.items|
            && forall k :: 0 <= k < |asked.value.items| ==> ReadsAs(number, params[i].value.items[k], asked.value.items[k])
  {
    var p := params[i];
    var path, leaf := Split(p.key), ParseValue(number, p.value);
    NestedHolds(path, leaf);
    ValueIsRead(number, p.value);
    AskedStays(number, config, condition, params, i, path + ["in"]);
  }

  /** A range: its field is compared by each operator that is known, with the operand as read. */
  lemma RangeFilterHolds(number: NumberOf, config: Config, condition: Json, params: seq<Param>, i: nat, operator: string)
    requires condition.Obj? && i < |params| && Filters(config, params[i]) && params[i].value.Obj?
    requires operator in SCALAR_OPERATORS && operator in params[i].value.fields && params[i].value.fields[operator].Leaf?
    requires |Split(params[i].key)| <= 3 && LaterSilent(number, config, params, i, Split(params[i].key) + [operator])
    ensures var asked := At(Filtered(number, config, condition, params), Split(params[i].key) + [operator]);
            asked.Some? && ReadsAs(number, params[i].value.fields[operator], asked.value)
  {
    var p := params[i];
    var leaf := ParseRange(number, p.value);
    var parsed := map k | k in p.value.fields && (k in SCALAR_OPERATORS || k in ARRAY_OPERATORS)
      :: ParseOperand(number, k, p.value.fields[k]);
    assert operator in parsed && leaf == Obj(parsed);
    NestedHolds(Split(p.key), leaf);
    ValueIsRead(number, p.value.fields[operator]);
    AskedStays(number, config, condition, params, i, Split(p.key) + [operator]);
  }

  /** An operator that is not known is dropped from a range that has a known one. */
  lemma UnknownIsDropped(number: NumberOf, value: Json, known: string, operator: string)
    requires value.Obj? && known in value.fields && (known in SCALAR_OPERATORS || known in ARRAY_OPERATORS)
    requires operator !in SCALAR_OPERATORS && operator !in ARRAY_OPERATORS
    ensures ParseRange(number, value).Obj? && operator !in ParseRange(number, value).fields
  {
    var parsed := map k | k in value.fields && (k in SCALAR_OPERATORS || k in ARRAY_OPERATORS)
      :: ParseOperand(number, k, value.fields[k]);
    assert known in parsed;
  }

  function SearchLeaf(term: Json): Json { Obj(map["contains" := term, "mode" := Leaf(Text("insensitive"))]) }

  function SearchOf(config: Config, term: Json): Json {
    Obj(map["OR" := Arr(seq(|config.searchable|,
                            i requires 0 <= i < |config.searchable| => Nested(Split(config.searchable[i]), SearchLeaf(term))))])
  }

  /** A missing or blank search term, or nothing to search in, asks for nothing. */
  function Searched(config: Config, condition: Json, term: Option<Json>): (after: Json)
    requires condition.Obj?
    ensures after.Obj?
  {
    if term.None? || term == Some(Leaf(Text(""))) || |config.searchable| == 0 then condition
    else Merge(condition, SearchOf(config, term.value))
  }

  /** A search asks that one of the searchable fields contain the term, whatever its letter case. */
  lemma SearchAsks(config: Config, condition: Json, term: Json)
    requires condition.Obj? && config.searchable != [] && term != Leaf(Text(""))
    requires forall f :: f in config.searchable ==> |Split(f)| <= 3
    ensures var or := At(Searched(config, condition, Some(term)), ["OR"]);
            && or.Some? && or.value.Arr? && |or.value.items| == |config.searchable|
            && forall i :: 0 <= i < |config.searchable| ==>
                 && At(or.value.items[i], Split(config.searchable[i]) + ["contains"]) == Some(term)
                 && At(or.value.items[i], Split(config.searchable[i]) + ["mode"]) == Some(Leaf(Text("insensitive")))
  {
    var asked := SearchOf(config, term);
    assert At(asked, ["OR"]) == Some(asked.fields["OR"]);
    LaterPinsSurvive(condition, asked, ["OR"]);
    forall i | 0 <= i < |config.searchable|
      ensures At(asked.fields["OR"].items[i], Split(config.searchable[i]) + ["contains"]) == Some(term)
      ensures At(asked.fields["OR"].items[i], Split(config.searchable[i]) + ["mode"]) == Some(Leaf(Text("insensitive")))
    {
      NestedHolds(Split(config.searchable[i]), SearchLeaf(term));
    }
  }

  function TextOf(params: seq<Param>, key: string): Option<string> {
    if params == [] then None
    else
      var last := params[|params| - 1];
      if last.key == key then (if last.value.Leaf? && last.value.value.Text? then Some(last.value.value.text) else None)
      else TextOf(params[..|params| - 1], key)
  }

  predicate IsLetter(c: char) { 'a' <= c <= 'z' || 'A' <= c <= 'Z' || c == '_' }

  predicate IsName(s: string) {
    s != "" && IsLetter(s[0]) && forall i :: 0 <= i < |s| ==> IsLetter(s[i]) || IsDigit(s[i])
  }

  /** `field` or `relation.field`. */
  predicate IsSortKey(s: string) { |Split(s)| <= 2 && forall i :: 0 <= i < |Split(s)| ==> IsName(Split(s)[i]) }

  function SortBy(params: seq<Param>): string {
    var requested := Trim(TextOf(params, "sortBy").GetOr(""));
    if IsSortKey(requested) then requested else "createdAt"
  }

  /** The requested key, then the id in the same direction unless the id already is the key. */
  function OrderBy(params: seq<Param>): seq<SortKey> {
    var ascending := TextOf(params, "sortOrder") == Some("asc");
    var primary := SortKey(Split(SortBy(params)), ascending);
    if SortBy(params) == "id" then [primary] else [primary, SortKey(["id"], ascending)]
  }

  lemma SortByIsKey(params: seq<Param>)
    ensures IsSortKey(SortBy(params))
  {
    var fallback := "createdAt";
    if SortBy(params) == fallback {
      SplitPlain(fallback);
      assert IsName(fallback);
    }
  }

  /** Whatever was asked for, the order is by a proper key and ends on the id, so no two rows tie. */
  lemma OrderEndsOnId(params: seq<Param>)
    ensures var keys := OrderBy(params);
            1 <= |keys| <= 2 && keys[|keys| - 1].path == ["id"] && keys[0].ascending == keys[|keys| - 1].ascending
    ensures OrderBy(params)[0].path == Split(SortBy(params)) && IsSortKey(SortBy(params))
  {
    SortByIsKey(params);
    var id := "id";
    SplitPlain(id);
  }

  lemma {:induction false} SplitPlain(s: string)
    requires '.' !in s
    ensures Split(s) == [s]
  {
    if s != "" {
      SplitPlain(s[..|s| - 1]);
      assert s == s[..|s| - 1] + [s[|s| - 1]];
    }
  }

  /* ------------------------------ the builder -------------------------- */

  class Builder {
    const params: seq<Param>
    const config: Config
    const number: NumberOf
    var condition: Json
    var countCondition: Json
    var page: nat
    var limit: nat
    var skip: nat
    var orderBy: seq<SortKey>

    /** The total counts the rows the page is cut from. */
    predicate Valid() reads this {
      && condition.Obj? && condition == countCondition
      && 1 <= limit <= MAX_PAGE_SIZE && 1 <= page && skip == Times(page - 1, limit) <= MAX_SKIP
    }

    constructor (params: seq<Param>, config: Config, number: NumberOf)
      ensures Valid() && condition == EMPTY
      ensures this.params == params && this.config == config && this.number == number
    {
      this.params, this.config, this.number := params, config, number;
      condition, countCondition := EMPTY, EMPTY;
      page, limit, skip := 1, 10, 0;
      orderBy := [];
    }

    method MergeWhere(more: Json)
      requires Valid() && more.Obj?
      modifies `condition, `countCondition
      ensures Valid() && condition == Merge(old(condition), more)
    {
      condition := DeepMerge(condition, more);
      countCondition := DeepMerge(countCondition, more);
    }

    method Search(searchTerm: Option<Json>)
      requires Valid()
      modifies `condition, `countCondition
      ensures Valid()
      ensures condition == Searched(config, old(condition), searchTerm)
    {
      if searchTerm.None? || searchTerm == Some(Leaf(Text(""))) || |config.searchable| == 0 {
        return;
      }
      MergeWhere(SearchOf(config, searchTerm.value));
    }

    method Filter()
      requires Valid()
      modifies `condition, `countCondition
      ensures Valid() && condition == Filtered(number, config, old(condition), params)
    {
      for i := 0 to |params|
        invariant Valid() && condition == Filtered(number, config, old(condition), params[..i])
      {
        assert params[..i + 1][..i] == params[..i];
        var more := FilterOf(number, config, params[i]);
        if more.None? {
          continue;
        }
        MergeWhere(more.value);
      }
      assert params[..|params|] == params;
    }

    /** A server-side condition: whatever it pins, it has the last word on, whatever was filtered before. */
    method Where(server: Json)
      requires Valid() && server.Obj?
      modifies `condition, `countCondition
      ensures Valid() && condition == Merge(old(condition), server)
      ensures forall path :: Pins(server, path) ==> At(condition, path) == At(server, path)
    {
      MergeWhere(server);
      forall path | Pins(server, path) ensures At(condition, path) == At(server, path) {
        LaterPinsSurvive(old(condition), server, path);
      }
    }

    method Paginate()
      requires Valid()
      modifies `page, `limit, `skip
      ensures Valid() && condition == old(condition)
      ensures Window(page, limit, skip) == Paging.Paginate(TextOf(params, "limit"), TextOf(params, "page"))
    {
      var limitText, pageText := TextOf(params, "limit"), TextOf(params, "page");
      WindowIsSane(limitText, pageText);
      var window := Paging.Paginate(limitText, pageText);
      limit, page, skip := window.limit, window.page, window.skip;
    }

    method Sort()
      requires Valid()
      modifies `orderBy
      ensures Valid() && orderBy == OrderBy(params)
      ensures 1 <= |orderBy| <= 2 && orderBy[|orderBy| - 1].path == ["id"]
      ensures forall k :: k in orderBy ==> k.ascending == (TextOf(params, "sortOrder") == Some("asc"))
      ensures var requested := Trim(TextOf(params, "sortBy").GetOr(""));
              orderBy[0].path == if IsSortKey(requested) then Split(requested) else ["createdAt"]
    {
      OrderEndsOnId(params);
      var fallback := "createdAt";
      SplitPlain(fallback);
      var requested := Trim(TextOf(params, "sortBy").GetOr(""));
      var sortBy := if IsSortKey(requested) then requested else "createdAt";
      var ascending := TextOf(params, "sortOrder") == Some("asc");
      var primary := SortKey(Split(sortBy), ascending);
      orderBy := if sortBy == "id" then [primary] else [primary, SortKey(["id"], ascending)];
    }

    /** `execute`: one query for the page, in the order asked for, and one for the count. */
    method Execute<T>(db: Database<T>) returns (data: seq<T>, meta: Meta)
      requires Valid()
      ensures data == Slice(db.ordered(condition, orderBy), skip, limit)
      ensures meta == Meta(page, limit, |db.matching(condition)|, CeilDiv(|db.matching(condition)|, limit))
    {
      var total := |db.matching(countCondition)|;
      data := Slice(db.ordered(condition, orderBy), skip, limit);
      meta := Meta(page, limit, total, CeilDiv(total, limit));
    }
  }

  /** What a list call asks for besides its query string. */
  datatype Request = Request(config: Config, number: NumberOf, term: Option<Json>, server: Json)

  /** The condition of the whole chain: the search, then the client's filters, then the server's own. */
  function ConditionOf(r: Request, params: seq<Param>): Json
    requires r.server.Obj?
  {
    Merge(Filtered(r.number, r.config, Searched(r.config, EMPTY, r.term), params), r.server)
  }

  function WindowOf(params: seq<Param>): Window { Paging.Paginate(TextOf(params, "limit"), TextOf(params, "page")) }

  function PageShown<T>(r: Request, params: seq<Param>, db: Database<T>): seq<T>
    requires r.server.Obj?
  {
    Slice(db.ordered(ConditionOf(r, params), OrderBy(params)), WindowOf(params).skip, WindowOf(params).limit)
  }

  /**
   * The usual chain. The tenant condition comes after the client's filters, so no
   * filter reaches past it; the page is sane; and the total belongs to the rows shown.
   */
  method List<T>(r: Request, params: seq<Param>, db: Database<T>) returns (data: seq<T>, meta: Meta)
    requires r.server.Obj?
    ensures forall path :: Pins(r.server, path) ==> At(ConditionOf(r, params), path) == At(r.server, path)
    ensures data == PageShown(r, params, db)
    ensures meta.page == WindowOf(params).page && meta.limit == WindowOf(params).limit
    ensures meta.total == |db.matching(ConditionOf(r, params))| && meta.totalPages == CeilDiv(meta.total, meta.limit)
  {
    var builder := new Builder(params, r.config, r.number);
    builder.Search(r.term);
    builder.Filter();
    builder.Where(r.server);
    builder.Paginate();
    builder.Sort();
    data, meta := builder.Execute(db);
  }

  /* ------------------------- reading every page ------------------------ */

  /** A row's value in a column, as its place in the column's own order. */
  type Column<!T> = (T, seq<string>) -> int

  /** ORDER BY a list of keys. */
  predicate Precedes<T>(column: Column<T>, keys: seq<SortKey>, a: T, b: T) {
    if keys == [] then true
    else
      var x, y := column(a, keys[0].path), column(b, keys[0].path);
      if x == y then Precedes(column, keys[1..], a, b) else (x < y) == keys[0].ascending
  }

  function By<T>(column: Column<T>, keys: seq<SortKey>): (T, T) -> bool { (a, b) => Precedes(column, keys, a, b) }

  lemma {:induction false} PrecedesIsTotal<T>(column: Column<T>, keys: seq<SortKey>, a: T, b: T)
    ensures Precedes(column, keys, a, b) || Precedes(column, keys, b, a)
  {
    if keys != [] {
      PrecedesIsTotal(column, keys[1..], a, b);
    }
  }

  lemma {:induction false} PrecedesIsTransitive<T>(column: Column<T>, keys: seq<SortKey>, a: T, b: T, c: T)
    requires Precedes(column, keys, a, b) && Precedes(column, keys, b, c)
    ensures Precedes(column, keys, a, c)
  {
    if keys != [] {
      var x, y, z := column(a, keys[0].path), column(b, keys[0].path), column(c, keys[0].path);
      if x == y == z {
        PrecedesIsTransitive(column, keys[1..], a, b, c);
      }
    }
  }

  lemma ByIsPreorder<T(!new)>(column: Column<T>, keys: seq<SortKey>)
    ensures TotalPreorder(By(column, keys))
  {
    var le := By(column, keys);
    forall a, b ensures le(a, b) || le(b, a) { PrecedesIsTotal(column, keys, a, b); }
    forall a, b, c | le(a, b) && le(b, c) ensures le(a, c) { PrecedesIsTransitive(column, keys, a, b, c); }
  }

  /** Rows that tie agree in every key, the last included. */
  lemma {:induction false} TiesAgree<T>(column: Column<T>, keys: seq<SortKey>, a: T, b: T)
    requires keys != [] && Precedes(column, keys, a, b) && Precedes(column, keys, b, a)
    ensures column(a, keys[|keys| - 1].path) == column(b, keys[|keys| - 1].path)
  {
    if |keys| > 1 {
      TiesAgree(column, keys[1..], a, b);
    }
  }

  /** No two of the rows have one id. */
  ghost predicate IdsDiffer<T(!new)>(column: Column<T>, rows: multiset<T>) {
    forall a, b :: a in rows && b in rows && column(a, ["id"]) == column(b, ["id"]) ==> a == b
  }

  lemma OrderHasNoTies<T(!new)>(column: Column<T>, params: seq<Param>, rows: multiset<T>)
    requires IdsDiffer(column, rows)
    ensures NoTies(rows, By(column, OrderBy(params)))
  {
    OrderEndsOnId(params);
    var le := By(column, OrderBy(params));
    forall a, b | a in rows && b in rows && le(a, b) && le(b, a) ensures a == b {
      TiesAgree(column, OrderBy(params), a, b);
    }
  }

  /** Whatever a client asks to sort by, two answers in that order hold the rows in the same sequence. */
  lemma OneOrder<T(!new)>(column: Column<T>, params: seq<Param>, a: seq<T>, b: seq<T>)
    requires Ordered(a, By(column, OrderBy(params))) && Ordered(b, By(column, OrderBy(params)))
    requires multiset(a) == multiset(b) && IdsDiffer(column, multiset(a))
    ensures a == b
  {
    OrderHasNoTies(column, params, multiset(a));
    OrderIsUnique(a, b, By(column, OrderBy(params)));
  }

  /** The table sorts: an ordered answer has the matching rows, in an order that agrees with its keys. */
  ghost predicate Sorts<T(!new)>(db: Database<T>, matching: Json -> seq<T>, column: Column<T>) {
    forall c, keys :: multiset(db.ordered(c, keys)) == multiset(matching(c)) && Ordered(db.ordered(c, keys), By(column, keys))
  }

  /** The same query string, asking for page `n`. */
  function PageParams(params: seq<Param>, n: nat): seq<Param> { params + [Param("page", Leaf(Text(Decimal(n))))] }

  /** What a client has seen after asking for pages 1, 2, 3, …, each a call of its own. */
  function Stepped<T>(r: Request, params: seq<Param>, dbs: seq<Database<T>>): seq<T>
    requires r.server.Obj?
  {
    if dbs == [] then []
    else Stepped(r, params, dbs[..|dbs| - 1]) + PageShown(r, PageParams(params, |dbs|), dbs[|dbs| - 1])
  }

  lemma PageParamOnly(r: Request, params: seq<Param>, n: nat)
    requires r.server.Obj?
    ensures var paged := PageParams(params, n);
            && ConditionOf(r, paged) == ConditionOf(r, params) && OrderBy(paged) == OrderBy(params)
            && WindowOf(paged) == Paging.Paginate(TextOf(params, "limit"), PageText(n))
  {
    var paged := PageParams(params, n);
    assert paged[..|params|] == params;
    assert paged[|params|].key in EXCLUDED_FIELDS;
  }

  lemma PageOfAnswer<T>(r: Request, params: seq<Param>, db: Database<T>, n: nat)
    requires r.server.Obj?
    ensures var w := Paging.Paginate(TextOf(params, "limit"), PageText(n));
            PageShown(r, PageParams(params, n), db) == Slice(db.ordered(ConditionOf(r, params), OrderBy(params)), w.skip, w.limit)
  {
    PageParamOnly(r, params, n);
  }

  function AnswersOf<T>(dbs: seq<Database<T>>, c: Json, keys: seq<SortKey>): seq<seq<T>> {
    seq(|dbs|, i requires 0 <= i < |dbs| => dbs[i].ordered(c, keys))
  }

  lemma AnswersAppend<T>(init: seq<Database<T>>, last: Database<T>, c: Json, keys: seq<SortKey>)
    ensures AnswersOf(init + [last], c, keys) == AnswersOf(init, c, keys) + [last.ordered(c, keys)]
  {
  }

  lemma SteppedAppend<T>(r: Request, params: seq<Param>, init: seq<Database<T>>, last: Database<T>)
    requires r.server.Obj?
    ensures var w := Paging.Paginate(TextOf(params, "limit"), PageText(|init| + 1));
            Stepped(r, params, init + [last])
            == Stepped(r, params, init) + Slice(last.ordered(ConditionOf(r, params), OrderBy(params)), w.skip, w.limit)
  {
    assert (init + [last])[..|init|] == init;
    PageOfAnswer(r, params, last, |init| + 1);
  }

  lemma {:induction false} SteppedIsPages<T>(r: Request, params: seq<Param>, dbs: seq<Database<T>>)
    requires r.server.Obj?
    ensures Stepped(r, params, dbs)
         == PagesOf(AnswersOf(dbs, ConditionOf(r, params), OrderBy(params)), TextOf(params, "limit"))
  {
    if dbs != [] {
      var init, last := dbs[..|dbs| - 1], dbs[|dbs| - 1];
      assert dbs == init + [last];
      SteppedIsPages(r, params, init);
      SteppedAppend(r, params, init, last);
      AnswersAppend(init, last, ConditionOf(r, params), OrderBy(params));
      PagesOfAppend(AnswersOf(init, ConditionOf(r, params), OrderBy(params)), last.ordered(ConditionOf(r, params), OrderBy(params)),
                    TextOf(params, "limit"));
    }
  }

  lemma AnswersAreSorted<T(!new)>(dbs: seq<Database<T>>, matching: Json -> seq<T>, column: Column<T>, c: Json, keys: seq<SortKey>)
    requires forall i :: 0 <= i < |dbs| ==> Sorts(dbs[i], matching, column)
    ensures SortedAnswers(AnswersOf(dbs, c, keys), multiset(matching(c)), By(column, keys))
  {
    var answers := AnswersOf(dbs, c, keys);
    forall i | 0 <= i < |answers| ensures multiset(answers[i]) == multiset(matching(c)) && Ordered(answers[i], By(column, keys)) {
      assert Sorts(dbs[i], matching, column) && answers[i] == dbs[i].ordered(c, keys);
    }
  }

  /**
   * Reading a list to its last page, each page a call of its own that the table sorts
   * anew: every matching row is shown exactly once, in the order asked for, whatever the
   * query string.
   */
  lemma ListingLosesNothing<T(!new)>(r: Request, params: seq<Param>, dbs: seq<Database<T>>, matching: Json -> seq<T>, column: Column<T>)
    requires r.server.Obj?
    requires forall i :: 0 <= i < |dbs| ==> Sorts(dbs[i], matching, column)
    requires var rows := matching(ConditionOf(r, params));
             IdsDiffer(column, multiset(rows)) && |rows| <= MAX_SKIP && |dbs| == CeilDiv(|rows|, LimitOf(TextOf(params, "limit")))
    ensures multiset(Stepped(r, params, dbs)) == multiset(matching(ConditionOf(r, params)))
    ensures Ordered(Stepped(r, params, dbs), By(column, OrderBy(params)))
  {
    var c, keys := ConditionOf(r, params), OrderBy(params);
    var rows, answers := matching(c), AnswersOf(dbs, c, keys);
    SteppedIsPages(r, params, dbs);
    ByIsPreorder(column, keys);
    OrderHasNoTies(column, params, multiset(rows));
    AnswersAreSorted(dbs, matching, column, c, keys);
    PagingLosesNothing(answers, rows, TextOf(params, "limit"), By(column, keys));
  }
}
