/**
 * The strategic plan table (`DataTable`): one row per plan, objective or KPI, a "Ver"
 * button that navigates one level down, and optional edit and delete callbacks. The page
 * that the table navigates to reads the `id` query parameter back as `objetivoId`.
 */
module PlanTable {
  import opened Options
  import opened Text

  datatype Nivel = Plan | Objetivo | Kpi

  datatype Item = Item(id: int, nombre: string)

  /** The table's props apart from its data; `hasEdit`/`hasDelete` say whether the callback is given. */
  datatype TableProps = TableProps(nivel: Option<Nivel>, planId: Option<int>, hasEdit: bool, hasDelete: bool)

  datatype Row = Placeholder | ItemRow(id: int, nombre: string)

  datatype Button = View | Edit | Delete

  /** What a click does: assign `document.location.href`, call a callback, or nothing. */
  datatype Effect = Navigate(url: string) | CallEdit(id: int) | CallDelete(id: int) | NoEffect

  const UrlBase := "/estrategico/plan"

  // ---------------------------------------------------------------- navigation

  /** `${planId}` in a template literal: a missing plan id prints `undefined`. */
  function PlanIdText(planId: Option<int>): (t: string)
    ensures '&' !in t && '=' !in t && '?' !in t
  {
    if planId.Some? then IntToString(planId.value) else "undefined"
  }

  /** `handleSelect(id)`: the plan level goes to its objectives, the objective level to its
      KPIs; any other level, or none, navigates nowhere. */
  function HandleSelect(nivel: Option<Nivel>, planId: Option<int>, id: int): (url: Option<string>)
    ensures url.Some? <==> nivel == Some(Plan) || nivel == Some(Objetivo)
  {
    if nivel == Some(Plan) then Some(UrlBase + "/objetivos?id=" + IntToString(id))
    else if nivel == Some(Objetivo) then
      Some(UrlBase + "/objetivos/kpis?planId=" + PlanIdText(planId) + "&id=" + IntToString(id))
    else None
  }

  // ---------------------------------------------------------------- reading the query back

  /** The first position of `c` in `s`, or `|s|` when there is none. */
  function IndexOf(s: string, c: char): (i: nat)
    ensures i <= |s|
    ensures i < |s| ==> s[i] == c
    ensures forall k :: 0 <= k < i ==> s[k] != c
  {
    if s == [] || s[0] == c then 0 else 1 + IndexOf(s[1..], c)
  }

  lemma {:induction false} IndexOfAppend(a: string, b: string, c: char)
    requires c !in a
    ensures IndexOf(a + b, c) == |a| + IndexOf(b, c)
  {
    if a != [] {
      assert a[0] in a;
      assert (a + b)[0] == a[0];
      assert (a + b)[1..] == a[1..] + b;
      assert c !in a[1..] by {
        forall x | x in a[1..] ensures x in a { }
      }
      IndexOfAppend(a[1..], b, c);
    } else {
      assert a + b == b;
    }
  }

  /** `s.split(sep)` */
  function Split(s: string, sep: char): (parts: seq<string>)
    ensures |parts| >= 1
    decreases |s|
  {
    var i := IndexOf(s, sep);
    if i == |s| then [s] else [s[..i]] + Split(s[i + 1..], sep)
  }

  /** `window.location.search` without its `?`: what follows the first `?`. */
  function Query(url: string): string {
    var i := IndexOf(url, '?');
    if i == |url| then "" else url[i + 1..]
  }

  /** The path: what precedes the first `?`. */
  function Path(url: string): (p: string)
    ensures p <= url && '?' !in p
  {
    url[..IndexOf(url, '?')]
  }

  /** The name of a `name=value` pair. */
  function Key(pair: string): string {
    pair[..IndexOf(pair, '=')]
  }

  /** The value of a `name=value` pair; a pair without `=` has the empty value. */
  function Value(pair: string): string {
    var i := IndexOf(pair, '=');
    if i == |pair| then "" else pair[i + 1..]
  }

  /** The value of the first pair called `name`. */
  function Lookup(pairs: seq<string>, name: string): (r: Option<string>)
    ensures r.None? <==> forall k :: 0 <= k < |pairs| ==> Key(pairs[k]) != name
    ensures r.Some? ==>
      exists k :: 0 <= k < |pairs| && Key(pairs[k]) == name && Value(pairs[k]) == r.value
                  && forall j :: 0 <= j < k ==> Key(pairs[j]) != name
  {
    if pairs == [] then None
    else if Key(pairs[0]) == name then Some(Value(pairs[0]))
    else
      var r := Lookup(pairs[1..], name);
      assert forall k :: 1 <= k < |pairs| ==> pairs[k] == pairs[1..][k - 1];
      r
  }

  /** `new URLSearchParams(window.location.search).get(name)`, without percent-decoding.
      A URL without a query has no parameters. */
  function SearchParam(url: string, name: string): (r: Option<string>)
    ensures '?' !in url && name != "" ==> r.None?
  {
    if '?' !in url then SplitWhole("", '&'); Lookup(Split(Query(url), '&'), name)
    else Lookup(Split(Query(url), '&'), name)
  }

  /** `Number(params.get("id")) || 0`: a missing, non-numeric or zero parameter gives 0. */
  function ObjetivoId(param: Option<string>): (n: int)
    ensures param.None? ==> n == 0
    ensures param.Some? && JsNumber(param.value).None? ==> n == 0
    ensures n != 0 ==> param.Some? && JsNumber(param.value) == Some(n)
    ensures param.Some? && JsNumber(param.value).Some? ==> n == JsNumber(param.value).value
  {
    if param.None? then 0
    else match JsNumber(param.value)
      case None => 0
      case Some(v) => v
  }

  /** A decimal integer contains none of the query's separators. */
  lemma IntToStringPlain(n: int)
    ensures '&' !in IntToString(n) && '=' !in IntToString(n) && '?' !in IntToString(n)
  {
    IntToStringChars(n);
  }

  /** A string without `sep` is one part. */
  lemma SplitWhole(s: string, sep: char)
    requires sep !in s
    ensures Split(s, sep) == [s]
  {
  }

  /** A string with `sep` after a part without it splits off that part first. */
  lemma SplitFirst(first: string, rest: string, sep: char)
    requires sep !in first
    ensures Split(first + [sep] + rest, sep) == [first] + Split(rest, sep)
  {
    var s := first + [sep] + rest;
    assert s == first + ([sep] + rest);
    IndexOfAppend(first, [sep] + rest, sep);
    assert s[..|first|] == first;
    assert s[|first| + 1..] == rest;
  }

  /** The pair `name=value` has that name and that value. */
  lemma PairParts(name: string, value: string)
    requires '=' !in name
    ensures Key(name + "=" + value) == name && Value(name + "=" + value) == value
  {
    var q := name + "=" + value;
    assert q == name + ("=" + value);
    IndexOfAppend(name, "=" + value, '=');
    assert q[..|name|] == name;
    assert q[|name| + 1..] == value;
  }

  /** A pair whose parts hold no `&` holds none. */
  lemma PairPlain(name: string, value: string)
    requires '&' !in name && '&' !in value
    ensures '&' !in name + "=" + value
  {
    var q := name + "=" + value;
    forall k | 0 <= k < |q| ensures q[k] != '&' {
      if k < |name| { assert q[k] == name[k]; }
      else if k > |name| { assert q[k] == value[k - |name| - 1]; }
    }
  }

  /** The query of `path?query`, for a path without `?`. */
  lemma QueryOf(path: string, query: string)
    requires '?' !in path
    ensures Query(path + "?" + query) == query && Path(path + "?" + query) == path
  {
    var url := path + "?" + query;
    assert url == path + ("?" + query);
    IndexOfAppend(path, "?" + query, '?');
    assert url[|path| + 1..] == query;
    assert url[..|path|] == path;
  }

  /** The plan level's target: the objectives page, with the plan's id as `id`. */
  lemma PlanTargetReadsBack(planId: Option<int>, id: int)
    ensures var url := HandleSelect(Some(Plan), planId, id).value;
      Path(url) == UrlBase + "/objetivos" && SearchParam(url, "id") == Some(IntToString(id))
  {
    var i := IntToString(id);
    IntToStringPlain(id);
    var pair := "id" + "=" + i;
    assert HandleSelect(Some(Plan), planId, id).value == UrlBase + "/objetivos" + "?" + pair;
    QueryOf(UrlBase + "/objetivos", pair);
    PairPlain("id", i);
    SplitWhole(pair, '&');
    PairParts("id", i);
  }

  /** The objective level's target splits into the `planId` pair and the `id` pair. */
  lemma ObjetivoTargetPairs(planId: Option<int>, id: int)
    ensures var url := HandleSelect(Some(Objetivo), planId, id).value;
      Path(url) == UrlBase + "/objetivos/kpis"
      && Split(Query(url), '&') == ["planId" + "=" + PlanIdText(planId), "id" + "=" + IntToString(id)]
  {
    var i := IntToString(id);
    var p := PlanIdText(planId);
    IntToStringPlain(id);
    var url := HandleSelect(Some(Objetivo), planId, id).value;
    assert url == UrlBase + "/objetivos/kpis?planId=" + p + "&id=" + i;
    ObjetivoUrlShape(p, i);
    PairPlain("planId", p);
    PairPlain("id", i);
    KpiPathPlain();
    TwoPairQuery(UrlBase + "/objetivos/kpis", "planId" + "=" + p, "id" + "=" + i);
  }

  /** The KPI page's path holds no `?`. */
  lemma KpiPathPlain()
    ensures '?' !in UrlBase + "/objetivos/kpis"
  {
  }

  /** `path?first&second` has that path and splits into those two pairs. */
  lemma TwoPairQuery(path: string, first: string, second: string)
    requires '?' !in path && '&' !in first && '&' !in second
    ensures var url := path + "?" + (first + "&" + second);
      Path(url) == path && Split(Query(url), '&') == [first, second]
  {
    QueryOf(path, first + "&" + second);
    SplitFirst(first, second, '&');
    SplitWhole(second, '&');
  }

  /** The objective level's URL as path, `?` and its two pairs joined by `&`. */
  lemma ObjetivoUrlShape(p: string, i: string)
    ensures UrlBase + "/objetivos/kpis?planId=" + p + "&id=" + i
         == UrlBase + "/objetivos/kpis" + "?" + (("planId" + "=" + p) + "&" + ("id" + "=" + i))
  {
    assert UrlBase + "/objetivos/kpis?planId=" == UrlBase + "/objetivos/kpis" + "?" + ("planId" + "=");
  }

  /** The objective level's target: the KPI page, with the plan id as `planId` and the
      objective's id as `id`. */
  lemma ObjetivoTargetReadsBack(planId: Option<int>, id: int)
    ensures var url := HandleSelect(Some(Objetivo), planId, id).value;
      Path(url) == UrlBase + "/objetivos/kpis"
      && SearchParam(url, "planId") == Some(PlanIdText(planId))
      && SearchParam(url, "id") == Some(IntToString(id))
  {
    var i := IntToString(id);
    var p := PlanIdText(planId);
    ObjetivoTargetPairs(planId, id);
    PairParts("planId", p);
    PairParts("id", i);
    var pairs := ["planId" + "=" + p, "id" + "=" + i];
    assert Lookup(pairs, "planId") == Some(p);
    assert pairs[1..] == ["id" + "=" + i];
    assert Lookup(pairs, "id") == Lookup(pairs[1..], "id") == Some(i);
  }

  /** The page reached through "Ver" reads the clicked row's id back as `objetivoId`. */
  lemma TargetPageReadsId(nivel: Nivel, planId: Option<int>, id: int)
    requires nivel != Kpi
    ensures ObjetivoId(SearchParam(HandleSelect(Some(nivel), planId, id).value, "id")) == id
  {
    NumberOfIntToString(id);
    if nivel == Plan {
      PlanTargetReadsBack(planId, id);
    } else {
      ObjetivoTargetReadsBack(planId, id);
    }
  }

  /** A parameter that does not start like a number, such as `abc`, gives `objetivoId` 0. */
  lemma ObjetivoIdOfText(s: string)
    requires s != [] && !IsSpace(s[0]) && !IsSpace(s[|s| - 1])
    requires !IsDigit(s[0]) && s[0] != '-' && s[0] != '+'
    ensures ObjetivoId(Some(s)) == 0
  {
    TrimIdentity(s);
  }

  // ---------------------------------------------------------------- rows and buttons

  /** The table body: the "No hay datos disponibles" row for no data, otherwise one row per
      item, in order. */
  function Rows(data: seq<Item>): (rows: seq<Row>)
    ensures data == [] ==> rows == [Placeholder]
    ensures data != [] ==>
      |rows| == |data| && forall i :: 0 <= i < |data| ==> rows[i] == ItemRow(data[i].id, data[i].nombre)
    ensures Placeholder in rows <==> data == []
  {
    if data == [] then [Placeholder]
    else seq(|data|, i requires 0 <= i < |data| => ItemRow(data[i].id, data[i].nombre))
  }

  /** A click on one of a row's buttons. */
  function Click(props: TableProps, item: Item, button: Button): (e: Effect)
    ensures e.Navigate? <==> button == View && props.nivel in {Some(Plan), Some(Objetivo)}
    ensures e.CallEdit? <==> button == Edit && props.hasEdit
    ensures e.CallDelete? <==> button == Delete && props.hasDelete
    ensures e.CallEdit? || e.CallDelete? ==> e.id == item.id
  {
    match button
    case View =>
      (match HandleSelect(props.nivel, props.planId, item.id)
        case Some(url) => Navigate(url)
        case None => NoEffect)
    case Edit => if props.hasEdit then CallEdit(item.id) else NoEffect
    case Delete => if props.hasDelete then CallDelete(item.id) else NoEffect
  }

  /** Whatever a click does, it concerns the clicked row's id. */
  lemma ClickTargetsItsRow(props: TableProps, item: Item, button: Button)
    ensures var e := Click(props, item, button);
      (e.CallEdit? || e.CallDelete? ==> e.id == item.id)
      && (e.Navigate? ==> ObjetivoId(SearchParam(e.url, "id")) == item.id)
  {
    if button == View && props.nivel in {Some(Plan), Some(Objetivo)} {
      TargetPageReadsId(props.nivel.value, props.planId, item.id);
    }
  }

  // ---------------------------------------------------------------- the three pages

  /** `<DataTable data={planes} nivel="plan" />` */
  const PlanPageTable := TableProps(Some(Plan), None, false, false)

  /** `<DataTable data={objetivos} nivel="objetivo" planId={plan?.id} />` */
  function ObjetivoPageTable(planId: Option<int>): TableProps {
    TableProps(Some(Objetivo), planId, false, false)
  }

  /** `<DataTable data={kpis} />` */
  const KpiPageTable := TableProps(None, None, false, false)

  /** On the KPI page no button does anything; on every page edit and delete do nothing. */
  lemma PagesOnlyNavigate(planId: Option<int>, item: Item, button: Button)
    ensures Click(KpiPageTable, item, button) == NoEffect
    ensures button != View ==>
      Click(PlanPageTable, item, button) == NoEffect && Click(ObjetivoPageTable(planId), item, button) == NoEffect
    ensures button == View ==>
      Click(PlanPageTable, item, button).Navigate? && Click(ObjetivoPageTable(planId), item, button).Navigate?
  {
  }
}
