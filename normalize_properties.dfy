/**
 * What the normaliser guarantees: the shape of each variant's persisted
 * form, what becomes of each panel, page and connector entry (kept in
 * number and order, re-typed by its tag or reported and left as it is),
 * that current documents load unchanged, and that loading is idempotent.
 */
module NormalizeProperties {
  import opened Wrappers
  import opened JsonValue
  import opened State
  import opened Normalize

  // ------------------------------------------------------------ shapes

  lemma {:induction false} SqlConnectorShape(a: SqlConnectorInfo, b: SqlConnectorInfo)
    ensures ShapeIncludes(SqlConnectorToJson(a), SqlConnectorToJson(b))
  {
    var ja, jb := SqlConnectorToJson(a), SqlConnectorToJson(b);
    assert ja.fields.Keys == jb.fields.Keys;
    assert ShapeIncludes(ja.fields["sql"], jb.fields["sql"]);
  }

  lemma {:induction false} HttpConnectorShape(a: HttpConnectorInfo, b: HttpConnectorInfo)
    ensures ShapeIncludes(HttpConnectorToJson(a), HttpConnectorToJson(b))
  {
    var ja, jb := HttpConnectorToJson(a), HttpConnectorToJson(b);
    assert ShapeIncludes(ja.fields["http"], jb.fields["http"]);
  }

  /** Two connectors of the same variant have the same nested field structure. */
  lemma ConnectorShape(a: ConnectorInfo, b: ConnectorInfo)
    requires a.Type() == b.Type()
    ensures ShapeIncludes(ConnectorToJson(a), ConnectorToJson(b))
  {
    match a {
      case SqlConnector(s) => SqlConnectorShape(s, b.sqlInfo);
      case HttpConnector(h) => HttpConnectorShape(h, b.httpInfo);
    }
  }

  /** Two panels of the same variant have the same nested field structure. */
  lemma PanelShape(p: Panel, q: Panel)
    requires p.Type() == q.Type()
    ensures ShapeIncludes(PanelToJson(p), PanelToJson(q))
  {
    var jp, jq := PanelToJson(p), PanelToJson(q);
    var k := TypeName(p.Type());
    match p.payload {
      case SqlPayload(c) => SqlConnectorShape(c, q.payload.sql);
      case HttpPayload(c) => HttpConnectorShape(c, q.payload.http);
      case GraphPayload(_, _, _, _) =>
        assert ShapeIncludes(jp.fields[k].fields["y"], jq.fields[k].fields["y"]);
      case _ =>
    }
    assert ShapeIncludes(jp.fields[k], jq.fields[k]);
  }

  // --------------------------------------------------------- one entry

  /**
   * A panel entry with a known tag becomes that variant: its tag is kept,
   * it has every field of the variant's default, every value the entry
   * held (other than a nested object) is kept, and every path missing from
   * the entry takes the default's value.
   */
  lemma KnownPanelBecomesVariant(page: nat, index: nat, entry: Json, uuids: Slot -> Id, t: PanelType)
    requires PanelTag(entry) == Some(t)
    ensures var r := NormalizedPanel(page, index, entry, uuids);
      && r.JObject?
      && PanelTag(r) == Some(t)
      && Covers(r, DefaultPanelJson(t, page, index, uuids))
      && (forall path :: Lookup(entry, path).Some? && !Lookup(entry, path).value.JObject? ==>
            Lookup(r, path) == Lookup(entry, path))
      && (forall path :: MissingAlong(entry, path) ==>
            Lookup(r, path) == Lookup(DefaultPanelJson(t, page, index, uuids), path))
  {
    var d := DefaultPanelJson(t, page, index, uuids);
    var r := Merge(d, entry);
    assert Lookup(entry, ["type"]) == Some(JString(TypeName(t)));
    MergeKeepsRaw(d, entry, ["type"], JString(TypeName(t)));
    MergeCoversDefault(d, entry);
    forall path | Lookup(entry, path).Some? && !Lookup(entry, path).value.JObject?
      ensures Lookup(r, path) == Lookup(entry, path)
    {
      MergeKeepsRaw(d, entry, path, Lookup(entry, path).value);
    }
    forall path | MissingAlong(entry, path)
      ensures Lookup(r, path) == Lookup(d, path)
    {
      if Lookup(d, path).Some? {
        MergeFillsMissing(d, entry, path, Lookup(d, path).value);
      } else {
        MergeMissingAbsent(d, entry, path);
      }
    }
  }

  /** A path missing from both the default and the raw data is missing from the merge. */
  lemma {:induction false} MergeMissingAbsent(dflt: Json, raw: Json, path: seq<string>)
    requires MissingAlong(raw, path) && Lookup(dflt, path).None?
    ensures Lookup(Merge(dflt, raw), path).None?
    decreases |path|
  {
    var k := path[0];
    if k in raw.fields {
      if dflt.JObject? && k in dflt.fields {
        MergeMissingAbsent(dflt.fields[k], raw.fields[k], path[1..]);
      } else {
        MissingAlongAbsent(raw.fields[k], path[1..]);
      }
    }
  }

  /** The same for a connector entry with a known tag. */
  lemma KnownConnectorBecomesVariant(index: nat, entry: Json, uuids: Slot -> Id, t: ConnectorType)
    requires ConnectorTag(entry) == Some(t)
    ensures var r := NormalizedConnector(index, entry, uuids);
      && r.JObject?
      && ConnectorTag(r) == Some(t)
      && Covers(r, DefaultConnectorJson(t, index, uuids))
      && (forall path :: Lookup(entry, path).Some? && !Lookup(entry, path).value.JObject? ==>
            Lookup(r, path) == Lookup(entry, path))
      && (forall path :: MissingAlong(entry, path) ==>
            Lookup(r, path) == Lookup(DefaultConnectorJson(t, index, uuids), path))
  {
    var d := DefaultConnectorJson(t, index, uuids);
    var r := Merge(d, entry);
    assert Lookup(entry, ["type"]) == Some(JString(ConnectorTypeName(t)));
    MergeKeepsRaw(d, entry, ["type"], JString(ConnectorTypeName(t)));
    MergeCoversDefault(d, entry);
    forall path | Lookup(entry, path).Some? && !Lookup(entry, path).value.JObject?
      ensures Lookup(r, path) == Lookup(entry, path)
    {
      MergeKeepsRaw(d, entry, path, Lookup(entry, path).value);
    }
    forall path | MissingAlong(entry, path)
      ensures Lookup(r, path) == Lookup(d, path)
    {
      if Lookup(d, path).Some? {
        MergeFillsMissing(d, entry, path, Lookup(d, path).value);
      } else {
        MergeMissingAbsent(d, entry, path);
      }
    }
  }

  // ---------------------------------------------------------- the loops

  /** A loop succeeds exactly when every step does. */
  lemma {:induction false} CollectOkIff(steps: seq<Step>)
    ensures Collect(steps).Ok? <==> forall i :: 0 <= i < |steps| ==> steps[i].Ok?
    decreases |steps|
  {
    if steps != [] {
      var n := |steps| - 1;
      CollectOkIff(steps[..n]);
      assert forall i :: 0 <= i < n ==> steps[..n][i] == steps[i];
    }
  }

  /** A loop fails with the error of its first failing step. */
  lemma CollectFirstErr(steps: seq<Step>, j: nat)
    requires j < |steps| && steps[j].Err? && forall i :: 0 <= i < j ==> steps[i].Ok?
    ensures Collect(steps) == Err(steps[j].error)
  {
    CollectOkIff(steps[..j]);
    var prefix := Collect(steps[..j]);
    CollectFailAt(steps, j, prefix.value.0, prefix.value.1);
  }

  /**
   * A successful loop yields one new entry per step, in order, and its
   * reports are exactly those of its steps.
   */
  lemma {:induction false} CollectPointwise(steps: seq<Step>)
    requires Collect(steps).Ok?
    ensures var (done, log) := Collect(steps).value;
      && |done| == |steps|
      && (forall i :: 0 <= i < |steps| ==> steps[i].Ok? && done[i] == steps[i].value.0)
      && (forall i, r :: 0 <= i < |steps| && steps[i].Ok? && r in steps[i].value.1 ==> r in log)
      && (forall r :: r in log ==> exists i :: 0 <= i < |steps| && steps[i].Ok? && r in steps[i].value.1)
    decreases |steps|
  {
    if steps != [] {
      var n := |steps| - 1;
      assert forall i :: 0 <= i < n ==> steps[..n][i] == steps[i];
      CollectPointwise(steps[..n]);
    }
  }

  /** A loop whose every step keeps its entry and reports nothing keeps them all. */
  lemma {:induction false} CollectUnchanged(steps: seq<Step>, js: seq<Json>)
    requires |steps| == |js| && forall i :: 0 <= i < |js| ==> steps[i] == Ok((js[i], []))
    ensures Collect(steps) == Ok((js, []))
    decreases |steps|
  {
    if steps != [] {
      var n := |steps| - 1;
      CollectUnchanged(steps[..n], js[..n]);
      var none: seq<Report> := [];
      assert steps[n] == Ok((js[n], none));
      assert js == js[..n] + [js[n]] && none + none == none;
    }
  }

  /** The panels loop succeeds exactly when no panel is null. */
  lemma PanelsOkIff(page: nat, panels: seq<Json>, uuids: Slot -> Id)
    ensures NormalizePanels(page, panels, uuids).Ok? <==> (forall j :: 0 <= j < |panels| ==> panels[j] != JNull)
  {
    CollectOkIff(PanelSteps(page, panels, uuids));
  }

  /** The panels loop fails at the first null panel. */
  lemma PanelsFirstNull(page: nat, panels: seq<Json>, uuids: Slot -> Id, j: nat)
    requires j < |panels| && panels[j] == JNull
    requires forall k :: 0 <= k < j ==> panels[k] != JNull
    ensures NormalizePanels(page, panels, uuids) == Err(NullPanel(page, j))
  {
    CollectFirstErr(PanelSteps(page, panels, uuids), j);
  }

  /** The panels loop keeps the number and order of the panels and re-types each one on its own. */
  lemma PanelsPointwise(page: nat, panels: seq<Json>, uuids: Slot -> Id)
    requires NormalizePanels(page, panels, uuids).Ok?
    ensures var done := NormalizePanels(page, panels, uuids).value.0;
            && |done| == |panels|
            && (forall j :: 0 <= j < |panels| ==> done[j] == NormalizedPanel(page, j, panels[j], uuids))
  {
    var steps := PanelSteps(page, panels, uuids);
    CollectPointwise(steps);
  }

  /** What one step of the panels loop reports. */
  lemma PanelStepReports(page: nat, i: nat, entry: Json, uuids: Slot -> Id)
    ensures var step := NormalizePanel(page, i, entry, uuids);
      step.Ok? ==> step.value.1 == if PanelTag(entry).None? then [UnknownPanelType(page, i)] else []
  {
  }

  /** The panels loop reports exactly the entries with an unknown tag. */
  lemma PanelsReports(page: nat, panels: seq<Json>, uuids: Slot -> Id)
    requires NormalizePanels(page, panels, uuids).Ok?
    ensures var log := NormalizePanels(page, panels, uuids).value.1;
            && (forall j :: 0 <= j < |panels| ==> (UnknownPanelType(page, j) in log <==> PanelTag(panels[j]).None?))
            && (forall r :: r in log ==> r.UnknownPanelType? && r.page == page && r.index < |panels|)
  {
    var steps := PanelSteps(page, panels, uuids);
    CollectPointwise(steps);
    var log := Collect(steps).value.1;
    forall j | 0 <= j < |panels| ensures UnknownPanelType(page, j) in log <==> PanelTag(panels[j]).None? {
      if UnknownPanelType(page, j) in log {
        var i :| 0 <= i < |steps| && steps[i].Ok? && UnknownPanelType(page, j) in steps[i].value.1;
        assert steps[i] == NormalizePanel(page, i, panels[i], uuids);
        PanelStepReports(page, i, panels[i], uuids);
      } else {
        assert steps[j] == NormalizePanel(page, j, panels[j], uuids);
        PanelStepReports(page, j, panels[j], uuids);
      }
    }
    forall r | r in log ensures r.UnknownPanelType? && r.page == page && r.index < |panels| {
      var i :| 0 <= i < |steps| && steps[i].Ok? && r in steps[i].value.1;
      assert steps[i] == NormalizePanel(page, i, panels[i], uuids);
      PanelStepReports(page, i, panels[i], uuids);
    }
  }

  /**
   * The reports the panels loop of page `page` should make: one per entry
   * with an unknown tag, in the order of the entries.
   */
  function UnknownPanels(page: nat, panels: seq<Json>): (log: seq<Report>)
    ensures forall k :: 0 <= k < |log| ==>
      && log[k] == UnknownPanelType(page, log[k].index)
      && log[k].index < |panels| && PanelTag(panels[log[k].index]).None?
    ensures forall k, l :: 0 <= k < l < |log| ==> log[k].index < log[l].index
    ensures forall j :: 0 <= j < |panels| && PanelTag(panels[j]).None? ==> UnknownPanelType(page, j) in log
    decreases |panels|
  {
    if panels == [] then []
    else
      var n := |panels| - 1;
      var front := UnknownPanels(page, panels[..n]);
      assert forall k :: 0 <= k < |front| ==> front[k].index < n && panels[front[k].index] == panels[..n][front[k].index];
      if PanelTag(panels[n]).None? then front + [UnknownPanelType(page, n)] else front
  }

  /** The panels loop reports each panel with an unknown tag exactly once, in order. */
  lemma {:induction false} PanelsLog(page: nat, panels: seq<Json>, uuids: Slot -> Id)
    requires NormalizePanels(page, panels, uuids).Ok?
    ensures NormalizePanels(page, panels, uuids).value.1 == UnknownPanels(page, panels)
    decreases |panels|
  {
    if panels != [] {
      var n := |panels| - 1;
      var steps := PanelSteps(page, panels, uuids);
      assert steps[..n] == PanelSteps(page, panels[..n], uuids);
      PanelsLog(page, panels[..n], uuids);
      assert steps[n] == NormalizePanel(page, n, panels[n], uuids);
      PanelStepReports(page, n, panels[n], uuids);
    }
  }

  /**
   * The array an entry holds under `key`, or the empty array a default
   * contributes when the key is missing.
   */
  function ArrayField(entry: Json, key: string): seq<Json>
  {
    if entry.JObject? && key in entry.fields && entry.fields[key].JArray?
    then entry.fields[key].items else []
  }

  /** Merging the page default into an object entry. */
  lemma MergedPage(page: nat, entry: Json, uuids: Slot -> Id)
    requires entry.JObject?
    ensures var merged := Merge(DefaultPageJson(page, uuids), entry);
      && merged.JObject?
      && merged.fields.Keys == entry.fields.Keys + {"panels", "name", "id"}
      && merged.fields["panels"] == (if "panels" in entry.fields then entry.fields["panels"] else JArray([]))
      && merged.fields["name"] == (if "name" in entry.fields then entry.fields["name"] else JString(""))
      && merged.fields["id"] == (if "id" in entry.fields then entry.fields["id"] else JString(uuids(PageSlot(page))))
      && (forall k :: k in entry.fields && k !in {"panels", "name", "id"} ==> merged.fields[k] == entry.fields[k])
  {
    var d := DefaultPageJson(page, uuids);
    assert |d.fields["panels"].items| == 0;
    assert d == JObject(map["panels" := JArray([]), "name" := JString(""), "id" := JString(uuids(PageSlot(page)))]);
  }

  /** A page entry the loader can load: an object whose panels, if present, are an array without nulls. */
  predicate PageLoads(entry: Json)
  {
    && entry.JObject?
    && ("panels" in entry.fields ==> entry.fields["panels"].JArray?)
    && (forall j :: 0 <= j < |ArrayField(entry, "panels")| ==> ArrayField(entry, "panels")[j] != JNull)
  }

  /**
   * A page loads exactly when `PageLoads` holds; otherwise the first
   * problem is reported.
   */
  lemma PageOkIff(page: nat, entry: Json, uuids: Slot -> Id)
    ensures NormalizePage(page, entry, uuids).Ok? <==> PageLoads(entry)
    ensures !entry.JObject? ==> NormalizePage(page, entry, uuids) == Err(PageNotObject(page))
    ensures entry.JObject? && "panels" in entry.fields && !entry.fields["panels"].JArray? ==>
      NormalizePage(page, entry, uuids) == Err(PanelsNotArray(page))
  {
    if entry.JObject? {
      MergedPage(page, entry, uuids);
      var panels := ArrayField(entry, "panels");
      if "panels" !in entry.fields || entry.fields["panels"].JArray? {
        PanelsOkIff(page, panels, uuids);
      }
    }
  }

  /** A page whose panels array holds a null fails at the first null panel. */
  lemma PageFirstNull(page: nat, entry: Json, uuids: Slot -> Id, j: nat)
    requires entry.JObject? && "panels" in entry.fields && entry.fields["panels"].JArray?
    requires j < |entry.fields["panels"].items| && entry.fields["panels"].items[j] == JNull
    requires forall k :: 0 <= k < j ==> entry.fields["panels"].items[k] != JNull
    ensures NormalizePage(page, entry, uuids) == Err(NullPanel(page, j))
  {
    MergedPage(page, entry, uuids);
    PanelsFirstNull(page, ArrayField(entry, "panels"), uuids, j);
  }

  /**
   * A loaded page keeps the entry's own fields, defaults the missing name
   * and id, keeps the number and order of its panels and re-types each one;
   * its reports are those of its panels with an unknown type.
   */
  lemma PageStructure(page: nat, entry: Json, uuids: Slot -> Id)
    requires NormalizePage(page, entry, uuids).Ok?
    ensures var (p, log) := NormalizePage(page, entry, uuids).value;
      var panels := ArrayField(entry, "panels");
      && entry.JObject? && p.JObject?
      && p.fields.Keys == entry.fields.Keys + {"panels", "name", "id"}
      && p.fields["name"] == (if "name" in entry.fields then entry.fields["name"] else JString(""))
      && p.fields["id"] == (if "id" in entry.fields then entry.fields["id"] else JString(uuids(PageSlot(page))))
      && (forall k :: k in entry.fields && k !in {"panels", "name", "id"} ==> p.fields[k] == entry.fields[k])
      && p.fields["panels"].JArray?
      && |p.fields["panels"].items| == |panels|
      && (forall j :: 0 <= j < |panels| ==>
            p.fields["panels"].items[j] == NormalizedPanel(page, j, panels[j], uuids))
      && (forall j :: 0 <= j < |panels| ==> (UnknownPanelType(page, j) in log <==> PanelTag(panels[j]).None?))
      && (forall r :: r in log ==> r.UnknownPanelType? && r.page == page && r.index < |panels|)
  {
    PageOkIff(page, entry, uuids);
    MergedPage(page, entry, uuids);
    PanelsPointwise(page, ArrayField(entry, "panels"), uuids);
    PanelsReports(page, ArrayField(entry, "panels"), uuids);
  }

  /** A page that loads reports exactly `UnknownPanels` of its panels array. */
  lemma PageLog(page: nat, entry: Json, uuids: Slot -> Id)
    requires NormalizePage(page, entry, uuids).Ok?
    ensures NormalizePage(page, entry, uuids).value.1 == UnknownPanels(page, ArrayField(entry, "panels"))
  {
    PageOkIff(page, entry, uuids);
    MergedPage(page, entry, uuids);
    var merged := Merge(DefaultPageJson(page, uuids), entry);
    assert Field(merged, "panels") == Some(JArray(ArrayField(entry, "panels")));
    PanelsLog(page, ArrayField(entry, "panels"), uuids);
  }

  /**
   * The reports the pages loop should make: page by page, in page order,
   * the unknown panels of each page's panels array.
   */
  function UnknownPanelsOfPages(pages: seq<Json>): (log: seq<Report>)
    ensures forall k :: 0 <= k < |log| ==> log[k].UnknownPanelType? && log[k].page < |pages|
    ensures forall k, l :: 0 <= k < l < |log| ==> log[k].page <= log[l].page
    decreases |pages|
  {
    if pages == [] then []
    else
      var n := |pages| - 1;
      UnknownPanelsOfPages(pages[..n]) + UnknownPanels(n, ArrayField(pages[n], "panels"))
  }

  /** The pages loop reports each page's unknown panels exactly once, pages in order and panels in order. */
  lemma {:induction false} PagesLog(pages: seq<Json>, uuids: Slot -> Id)
    requires NormalizePages(pages, uuids).Ok?
    ensures NormalizePages(pages, uuids).value.1 == UnknownPanelsOfPages(pages)
    decreases |pages|
  {
    if pages != [] {
      var n := |pages| - 1;
      var steps := PageSteps(pages, uuids);
      assert steps[..n] == PageSteps(pages[..n], uuids);
      PagesLog(pages[..n], uuids);
      assert steps[n] == NormalizePage(n, pages[n], uuids);
      PageLog(n, pages[n], uuids);
    }
  }

  /** The pages loop succeeds exactly when every page loads. */
  lemma PagesOkIff(pages: seq<Json>, uuids: Slot -> Id)
    ensures NormalizePages(pages, uuids).Ok? <==> (forall j :: 0 <= j < |pages| ==> PageLoads(pages[j]))
  {
    CollectOkIff(PageSteps(pages, uuids));
    forall j | 0 <= j < |pages| ensures NormalizePage(j, pages[j], uuids).Ok? <==> PageLoads(pages[j]) {
      PageOkIff(j, pages[j], uuids);
    }
  }

  /** The pages loop fails with the error of the first page that does not load. */
  lemma PagesFirstFailure(pages: seq<Json>, uuids: Slot -> Id, j: nat)
    requires j < |pages| && !PageLoads(pages[j])
    requires forall k :: 0 <= k < j ==> PageLoads(pages[k])
    ensures NormalizePage(j, pages[j], uuids).Err?
    ensures NormalizePages(pages, uuids) == Err(NormalizePage(j, pages[j], uuids).error)
  {
    forall k | 0 <= k <= j ensures NormalizePage(k, pages[k], uuids).Ok? <==> PageLoads(pages[k]) {
      PageOkIff(k, pages[k], uuids);
    }
    CollectFirstErr(PageSteps(pages, uuids), j);
  }

  /**
   * The pages loop keeps the number and order of the pages, loads each one
   * on its own, and collects exactly the reports of every page.
   */
  lemma PagesPointwise(pages: seq<Json>, uuids: Slot -> Id)
    requires NormalizePages(pages, uuids).Ok?
    ensures var (done, log) := NormalizePages(pages, uuids).value;
            && |done| == |pages|
            && (forall j :: 0 <= j < |pages| ==>
                  NormalizePage(j, pages[j], uuids).Ok? && done[j] == NormalizePage(j, pages[j], uuids).value.0)
            && (forall j, r :: 0 <= j < |pages| && r in NormalizePage(j, pages[j], uuids).value.1 ==> r in log)
            && (forall r :: r in log ==>
                  && r.UnknownPanelType? && r.page < |pages| && NormalizePage(r.page, pages[r.page], uuids).Ok?
                  && r in NormalizePage(r.page, pages[r.page], uuids).value.1)
  {
    var steps := PageSteps(pages, uuids);
    CollectPointwise(steps);
    var log := Collect(steps).value.1;
    forall r | r in log
      ensures r.UnknownPanelType? && r.page < |pages| && NormalizePage(r.page, pages[r.page], uuids).Ok?
      ensures r in NormalizePage(r.page, pages[r.page], uuids).value.1
    {
      var i :| 0 <= i < |steps| && steps[i].Ok? && r in steps[i].value.1;
      PageStructure(i, pages[i], uuids);
    }
  }

  /** The connectors loop succeeds exactly when no connector is null. */
  lemma ConnectorsOkIff(connectors: seq<Json>, uuids: Slot -> Id)
    ensures NormalizeConnectors(connectors, uuids).Ok? <==> (forall j :: 0 <= j < |connectors| ==> connectors[j] != JNull)
  {
    CollectOkIff(ConnectorSteps(connectors, uuids));
  }

  /** The connectors loop fails at the first null connector. */
  lemma ConnectorsFirstNull(connectors: seq<Json>, uuids: Slot -> Id, j: nat)
    requires j < |connectors| && connectors[j] == JNull
    requires forall k :: 0 <= k < j ==> connectors[k] != JNull
    ensures NormalizeConnectors(connectors, uuids) == Err(NullConnector(j))
  {
    CollectFirstErr(ConnectorSteps(connectors, uuids), j);
  }

  /** The connectors loop keeps the number and order of the connectors and re-types each one on its own. */
  lemma ConnectorsPointwise(connectors: seq<Json>, uuids: Slot -> Id)
    requires NormalizeConnectors(connectors, uuids).Ok?
    ensures var done := NormalizeConnectors(connectors, uuids).value.0;
            && |done| == |connectors|
            && (forall j :: 0 <= j < |connectors| ==> done[j] == NormalizedConnector(j, connectors[j], uuids))
  {
    var steps := ConnectorSteps(connectors, uuids);
    CollectPointwise(steps);
  }

  /** What one step of the connectors loop reports. */
  lemma ConnectorStepReports(i: nat, entry: Json, uuids: Slot -> Id)
    ensures var step := NormalizeConnector(i, entry, uuids);
      step.Ok? ==> step.value.1 == if ConnectorTag(entry).None? then [UnknownConnectorType(i)] else []
  {
  }

  /** The connectors loop reports exactly the entries with an unknown tag. */
  lemma ConnectorsReports(connectors: seq<Json>, uuids: Slot -> Id)
    requires NormalizeConnectors(connectors, uuids).Ok?
    ensures var log := NormalizeConnectors(connectors, uuids).value.1;
            && (forall j :: 0 <= j < |connectors| ==> (UnknownConnectorType(j) in log <==> ConnectorTag(connectors[j]).None?))
            && (forall r :: r in log ==> r.UnknownConnectorType? && r.index < |connectors|)
  {
    var steps := ConnectorSteps(connectors, uuids);
    CollectPointwise(steps);
    var log := Collect(steps).value.1;
    forall j | 0 <= j < |connectors| ensures UnknownConnectorType(j) in log <==> ConnectorTag(connectors[j]).None? {
      if UnknownConnectorType(j) in log {
        var i :| 0 <= i < |steps| && steps[i].Ok? && UnknownConnectorType(j) in steps[i].value.1;
        assert steps[i] == NormalizeConnector(i, connectors[i], uuids);
        ConnectorStepReports(i, connectors[i], uuids);
      } else {
        assert steps[j] == NormalizeConnector(j, connectors[j], uuids);
        ConnectorStepReports(j, connectors[j], uuids);
      }
    }
    forall r | r in log ensures r.UnknownConnectorType? && r.index < |connectors| {
      var i :| 0 <= i < |steps| && steps[i].Ok? && r in steps[i].value.1;
      assert steps[i] == NormalizeConnector(i, connectors[i], uuids);
      ConnectorStepReports(i, connectors[i], uuids);
    }
  }

  /** The reports the connectors loop should make: one per connector with an unknown tag, in order. */
  function UnknownConnectors(connectors: seq<Json>): (log: seq<Report>)
    ensures forall k :: 0 <= k < |log| ==>
      && log[k] == UnknownConnectorType(log[k].index)
      && log[k].index < |connectors| && ConnectorTag(connectors[log[k].index]).None?
    ensures forall k, l :: 0 <= k < l < |log| ==> log[k].index < log[l].index
    ensures forall j :: 0 <= j < |connectors| && ConnectorTag(connectors[j]).None? ==> UnknownConnectorType(j) in log
    decreases |connectors|
  {
    if connectors == [] then []
    else
      var n := |connectors| - 1;
      var front := UnknownConnectors(connectors[..n]);
      assert forall k :: 0 <= k < |front| ==> front[k].index < n && connectors[front[k].index] == connectors[..n][front[k].index];
      if ConnectorTag(connectors[n]).None? then front + [UnknownConnectorType(n)] else front
  }

  /** The connectors loop reports each connector with an unknown tag exactly once, in order. */
  lemma {:induction false} ConnectorsLog(connectors: seq<Json>, uuids: Slot -> Id)
    requires NormalizeConnectors(connectors, uuids).Ok?
    ensures NormalizeConnectors(connectors, uuids).value.1 == UnknownConnectors(connectors)
    decreases |connectors|
  {
    if connectors != [] {
      var n := |connectors| - 1;
      var steps := ConnectorSteps(connectors, uuids);
      assert steps[..n] == ConnectorSteps(connectors[..n], uuids);
      ConnectorsLog(connectors[..n], uuids);
      assert steps[n] == NormalizeConnector(n, connectors[n], uuids);
      ConnectorStepReports(n, connectors[n], uuids);
    }
  }

  /** Merging the project default into an object document. */
  lemma MergedDocument(raw: Json, uuids: Slot -> Id)
    requires raw.JObject?
    ensures var obj := Merge(DefaultDocumentJson(uuids), raw);
      && obj.JObject?
      && obj.fields.Keys == raw.fields.Keys + {"pages", "projectName", "connectors", "id"}
      && obj.fields["pages"] == (if "pages" in raw.fields then raw.fields["pages"] else JArray([]))
      && obj.fields["connectors"] == (if "connectors" in raw.fields then raw.fields["connectors"] else JArray([]))
      && obj.fields["projectName"] == (if "projectName" in raw.fields then raw.fields["projectName"] else JString(""))
      && obj.fields["id"] == (if "id" in raw.fields then raw.fields["id"] else JString(uuids(DocumentSlot)))
      && (forall k :: k in raw.fields && k !in {"pages", "projectName", "connectors", "id"} ==> obj.fields[k] == raw.fields[k])
  {
    var d := DefaultDocumentJson(uuids);
    assert |d.fields["pages"].items| == 0 && |d.fields["connectors"].items| == 0;
    assert d == JObject(map["pages" := JArray([]), "projectName" := JString(""),
                            "connectors" := JArray([]), "id" := JString(uuids(DocumentSlot))]);
  }

  /** A document the loader can load. */
  predicate DocumentLoads(raw: Json)
  {
    && raw.JObject?
    && ("pages" in raw.fields ==> raw.fields["pages"].JArray?)
    && (forall j :: 0 <= j < |ArrayField(raw, "pages")| ==> PageLoads(ArrayField(raw, "pages")[j]))
    && ("connectors" in raw.fields ==> raw.fields["connectors"].JArray?)
    && (forall j :: 0 <= j < |ArrayField(raw, "connectors")| ==> ArrayField(raw, "connectors")[j] != JNull)
  }

  /** rawStateToObjects succeeds exactly when `DocumentLoads` holds. */
  lemma DocumentOkIff(raw: Json, uuids: Slot -> Id)
    ensures NormalizeDocument(raw, uuids).Ok? <==> DocumentLoads(raw)
  {
    if raw.JObject? {
      MergedDocument(raw, uuids);
      var ps, cs := ArrayField(raw, "pages"), ArrayField(raw, "connectors");
      PagesOkIff(ps, uuids);
      ConnectorsOkIff(cs, uuids);
    }
  }

  /**
   * A failing load stops at the first problem: the document, then its pages
   * array, then the pages loop, then the connectors array, then the
   * connectors loop.
   */
  lemma DocumentErrorOrder(raw: Json, uuids: Slot -> Id)
    ensures !raw.JObject? ==> NormalizeDocument(raw, uuids) == Err(DocumentNotObject)
    ensures raw.JObject? && "pages" in raw.fields && !raw.fields["pages"].JArray? ==>
      NormalizeDocument(raw, uuids) == Err(PagesNotArray)
    ensures var ps := ArrayField(raw, "pages");
      raw.JObject? && ("pages" in raw.fields ==> raw.fields["pages"].JArray?) &&
      NormalizePages(ps, uuids).Err? ==>
      NormalizeDocument(raw, uuids) == Err(NormalizePages(ps, uuids).error)
    ensures var ps := ArrayField(raw, "pages");
      raw.JObject? && ("pages" in raw.fields ==> raw.fields["pages"].JArray?) &&
      NormalizePages(ps, uuids).Ok? && "connectors" in raw.fields && !raw.fields["connectors"].JArray? ==>
      NormalizeDocument(raw, uuids) == Err(ConnectorsNotArray)
    ensures var ps, cs := ArrayField(raw, "pages"), ArrayField(raw, "connectors");
      raw.JObject? && ("pages" in raw.fields ==> raw.fields["pages"].JArray?) &&
      NormalizePages(ps, uuids).Ok? && ("connectors" in raw.fields ==> raw.fields["connectors"].JArray?) &&
      NormalizeConnectors(cs, uuids).Err? ==>
      NormalizeDocument(raw, uuids) == Err(NormalizeConnectors(cs, uuids).error)
  {
    if raw.JObject? {
      MergedDocument(raw, uuids);
    }
  }

  /**
   * A loaded document keeps the raw document's own fields, defaults the
   * missing project name and id, and keeps the number and order of its
   * pages and connectors, each loaded on its own; its reports are those of
   * its pages and those of its connectors with an unknown type.
   */
  lemma DocumentStructure(raw: Json, uuids: Slot -> Id)
    requires NormalizeDocument(raw, uuids).Ok?
    ensures var Loaded(doc, log) := NormalizeDocument(raw, uuids).value;
      var ps, cs := ArrayField(raw, "pages"), ArrayField(raw, "connectors");
      && raw.JObject? && doc.JObject?
      && doc.fields.Keys == raw.fields.Keys + {"pages", "projectName", "connectors", "id"}
      && doc.fields["projectName"] == (if "projectName" in raw.fields then raw.fields["projectName"] else JString(""))
      && doc.fields["id"] == (if "id" in raw.fields then raw.fields["id"] else JString(uuids(DocumentSlot)))
      && (forall k :: k in raw.fields && k !in {"pages", "projectName", "connectors", "id"} ==> doc.fields[k] == raw.fields[k])
      && doc.fields["pages"].JArray? && |doc.fields["pages"].items| == |ps|
      && (forall j :: 0 <= j < |ps| ==>
            NormalizePage(j, ps[j], uuids).Ok? && doc.fields["pages"].items[j] == NormalizePage(j, ps[j], uuids).value.0)
      && doc.fields["connectors"].JArray? && |doc.fields["connectors"].items| == |cs|
      && (forall j :: 0 <= j < |cs| ==> doc.fields["connectors"].items[j] == NormalizedConnector(j, cs[j], uuids))
      && (forall j, r :: 0 <= j < |ps| && r in NormalizePage(j, ps[j], uuids).value.1 ==> r in log)
      && (forall j :: 0 <= j < |cs| ==> (UnknownConnectorType(j) in log <==> ConnectorTag(cs[j]).None?))
      && (forall r :: r in log ==>
            || (r.UnknownPanelType? && r.page < |ps| && NormalizePage(r.page, ps[r.page], uuids).Ok? &&
                r in NormalizePage(r.page, ps[r.page], uuids).value.1)
            || (r.UnknownConnectorType? && r.index < |cs|))
  {
    DocumentOkIff(raw, uuids);
    MergedDocument(raw, uuids);
    var ps, cs := ArrayField(raw, "pages"), ArrayField(raw, "connectors");
    PagesPointwise(ps, uuids);
    ConnectorsPointwise(cs, uuids);
    ConnectorsReports(cs, uuids);
  }

  /**
   * A document that loads reports exactly the unknown panels of its pages,
   * page by page, and then its unknown connectors, in order.
   */
  lemma DocumentLog(raw: Json, uuids: Slot -> Id)
    requires NormalizeDocument(raw, uuids).Ok?
    ensures NormalizeDocument(raw, uuids).value.reports ==
      UnknownPanelsOfPages(ArrayField(raw, "pages")) + UnknownConnectors(ArrayField(raw, "connectors"))
  {
    DocumentOkIff(raw, uuids);
    MergedDocument(raw, uuids);
    var obj := Merge(DefaultDocumentJson(uuids), raw);
    var ps, cs := ArrayField(raw, "pages"), ArrayField(raw, "connectors");
    assert Field(obj, "pages") == Some(JArray(ps));
    assert Field(obj, "connectors") == Some(JArray(cs));
    PagesLog(ps, uuids);
    ConnectorsLog(cs, uuids);
  }
}
