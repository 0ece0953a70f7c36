/**
 * rawStateToObjects is idempotent: a document it has loaded loads again to
 * itself with the same reports, whatever ids the second run would draw. A
 * document written from the typed model loads to itself with no reports,
 * so saving and reloading a project changes nothing.
 */
module NormalizeFixpoint {
  import opened Wrappers
  import opened JsonValue
  import opened State
  import opened Normalize
  import opened NormalizeProperties

  // ------------------------------------------------------ the merged form

  /** How a merged page comes out once its panels loop is known. */
  lemma PageFromMerged(page: nat, merged: Json, u: Slot -> Id, panels: seq<Json>, done: seq<Json>, log: seq<Report>)
    requires merged.JObject? && Field(merged, "panels") == Some(JArray(panels))
    requires NormalizePanels(page, panels, u) == Ok((done, log))
    ensures LoadMergedPage(page, merged, u) == Ok((JObject(merged.fields["panels" := JArray(done)]), log))
  {
  }

  /** How a merged document comes out once its two loops are known. */
  lemma DocumentFromMerged(obj: Json, u: Slot -> Id, ps: seq<Json>, cs: seq<Json>,
                           newPages: seq<Json>, pageLog: seq<Report>,
                           newConnectors: seq<Json>, connectorLog: seq<Report>)
    requires obj.JObject? && Field(obj, "pages") == Some(JArray(ps)) && Field(obj, "connectors") == Some(JArray(cs))
    requires NormalizePages(ps, u) == Ok((newPages, pageLog))
    requires NormalizeConnectors(cs, u) == Ok((newConnectors, connectorLog))
    ensures LoadMergedDocument(obj, u) ==
      Ok(Loaded(JObject(obj.fields["pages" := JArray(newPages)]["connectors" := JArray(newConnectors)]),
                pageLog + connectorLog))
  {
  }

  // ------------------------------------------------------ loading twice

  /** A re-typed panel re-types to itself, with the same report. */
  lemma PanelFixpoint(page: nat, i: nat, e: Json, u1: Slot -> Id, u2: Slot -> Id)
    requires e != JNull
    ensures NormalizePanel(page, i, NormalizedPanel(page, i, e, u1), u2) == NormalizePanel(page, i, e, u1)
  {
    match PanelTag(e)
    case None =>
    case Some(t) =>
      var q := NormalizedPanel(page, i, e, u1);
      KnownPanelBecomesVariant(page, i, e, u1, t);
      var d1, d2 := DefaultPanelJson(t, page, i, u1), DefaultPanelJson(t, page, i, u2);
      PanelShape(DefaultPanel(t, u1(PanelSlot(page, i)), u1(PanelConnectorSlot(page, i))),
                 DefaultPanel(t, u2(PanelSlot(page, i)), u2(PanelConnectorSlot(page, i))));
      CoversWeaken(q, d1, d2);
      MergeCovered(d2, q);
  }

  /** A loaded panels array loads again to itself with the same reports. */
  lemma PanelsFixpoint(page: nat, es: seq<Json>, u1: Slot -> Id, u2: Slot -> Id)
    requires NormalizePanels(page, es, u1).Ok?
    ensures var (qs, log) := NormalizePanels(page, es, u1).value;
      NormalizePanels(page, qs, u2) == Ok((qs, log))
  {
    var qs := NormalizePanels(page, es, u1).value.0;
    PanelsPointwise(page, es, u1);
    PanelsOkIff(page, es, u1);
    forall i | 0 <= i < |es|
      ensures NormalizePanel(page, i, qs[i], u2) == NormalizePanel(page, i, es[i], u1)
    {
      PanelFixpoint(page, i, es[i], u1, u2);
    }
    assert PanelSteps(page, qs, u2) == PanelSteps(page, es, u1);
  }

  /** A loaded page loads again to itself with the same reports. */
  lemma PageFixpoint(j: nat, e: Json, u1: Slot -> Id, u2: Slot -> Id)
    requires NormalizePage(j, e, u1).Ok?
    ensures var (p, log) := NormalizePage(j, e, u1).value;
      NormalizePage(j, p, u2) == Ok((p, log))
  {
    PageOkIff(j, e, u1);
    MergedPage(j, e, u1);
    var merged := Merge(DefaultPageJson(j, u1), e);
    var es := ArrayField(e, "panels");
    var (qs, log) := NormalizePanels(j, es, u1).value;
    PageFromMerged(j, merged, u1, es, qs, log);
    var p := JObject(merged.fields["panels" := JArray(qs)]);
    PanelsFixpoint(j, es, u1, u2);
    DefaultPageCovered(j, p, u2);
    assert p.fields["panels" := JArray(qs)] == p.fields;
    PageFromMerged(j, p, u2, qs, qs, log);
  }

  /** A loaded pages array loads again to itself with the same reports. */
  lemma PagesFixpoint(ps: seq<Json>, u1: Slot -> Id, u2: Slot -> Id)
    requires NormalizePages(ps, u1).Ok?
    ensures var (done, log) := NormalizePages(ps, u1).value;
      NormalizePages(done, u2) == Ok((done, log))
  {
    var done := NormalizePages(ps, u1).value.0;
    PagesPointwise(ps, u1);
    forall j | 0 <= j < |ps|
      ensures NormalizePage(j, done[j], u2) == NormalizePage(j, ps[j], u1)
    {
      PageFixpoint(j, ps[j], u1, u2);
    }
    assert PageSteps(done, u2) == PageSteps(ps, u1);
  }

  /** A re-typed connector re-types to itself, with the same report. */
  lemma ConnectorFixpoint(i: nat, e: Json, u1: Slot -> Id, u2: Slot -> Id)
    requires e != JNull
    ensures NormalizeConnector(i, NormalizedConnector(i, e, u1), u2) == NormalizeConnector(i, e, u1)
  {
    match ConnectorTag(e)
    case None =>
    case Some(t) =>
      var q := NormalizedConnector(i, e, u1);
      KnownConnectorBecomesVariant(i, e, u1, t);
      var d1, d2 := DefaultConnectorJson(t, i, u1), DefaultConnectorJson(t, i, u2);
      ConnectorShape(DefaultConnector(t, u1(ConnectorSlot(i))), DefaultConnector(t, u2(ConnectorSlot(i))));
      CoversWeaken(q, d1, d2);
      MergeCovered(d2, q);
  }

  /** A loaded connectors array loads again to itself with the same reports. */
  lemma ConnectorsFixpoint(cs: seq<Json>, u1: Slot -> Id, u2: Slot -> Id)
    requires NormalizeConnectors(cs, u1).Ok?
    ensures var (done, log) := NormalizeConnectors(cs, u1).value;
      NormalizeConnectors(done, u2) == Ok((done, log))
  {
    var done := NormalizeConnectors(cs, u1).value.0;
    ConnectorsPointwise(cs, u1);
    ConnectorsOkIff(cs, u1);
    forall i | 0 <= i < |cs|
      ensures NormalizeConnector(i, done[i], u2) == NormalizeConnector(i, cs[i], u1)
    {
      ConnectorFixpoint(i, cs[i], u1, u2);
    }
    assert ConnectorSteps(done, u2) == ConnectorSteps(cs, u1);
  }

  /** Merging the default document into one that has all its fields changes nothing. */
  lemma DefaultDocumentCovered(doc: Json, u: Slot -> Id)
    requires doc.JObject? && {"pages", "projectName", "connectors", "id"} <= doc.fields.Keys
    ensures Merge(DefaultDocumentJson(u), doc) == doc
  {
    var d := DefaultDocumentJson(u);
    MergedDocument(doc, u);
    assert Covers(doc, d);
    MergeCovered(d, doc);
  }

  /** Merging the default page into one that has all its fields changes nothing. */
  lemma DefaultPageCovered(j: nat, p: Json, u: Slot -> Id)
    requires p.JObject? && {"panels", "name", "id"} <= p.fields.Keys
    ensures Merge(DefaultPageJson(j, u), p) == p
  {
    var d := DefaultPageJson(j, u);
    MergedPage(j, p, u);
    assert Covers(p, d);
    MergeCovered(d, p);
  }

  /**
   * A loaded document holds the results of its two loops under "pages" and
   * "connectors" and covers every default document.
   */
  lemma LoadedDocument(raw: Json, u1: Slot -> Id, u2: Slot -> Id)
    requires NormalizeDocument(raw, u1).Ok?
    ensures var Loaded(doc, log) := NormalizeDocument(raw, u1).value;
      var ps, cs := ArrayField(raw, "pages"), ArrayField(raw, "connectors");
      && NormalizePages(ps, u1).Ok? && NormalizeConnectors(cs, u1).Ok?
      && doc.JObject?
      && Field(doc, "pages") == Some(JArray(NormalizePages(ps, u1).value.0))
      && Field(doc, "connectors") == Some(JArray(NormalizeConnectors(cs, u1).value.0))
      && log == NormalizePages(ps, u1).value.1 + NormalizeConnectors(cs, u1).value.1
      && Merge(DefaultDocumentJson(u2), doc) == doc
  {
    DocumentOkIff(raw, u1);
    MergedDocument(raw, u1);
    var obj := Merge(DefaultDocumentJson(u1), raw);
    var ps, cs := ArrayField(raw, "pages"), ArrayField(raw, "connectors");
    var (newPages, pageLog) := NormalizePages(ps, u1).value;
    var (newConnectors, connectorLog) := NormalizeConnectors(cs, u1).value;
    DocumentFromMerged(obj, u1, ps, cs, newPages, pageLog, newConnectors, connectorLog);
    var doc := JObject(obj.fields["pages" := JArray(newPages)]["connectors" := JArray(newConnectors)]);
    DefaultDocumentCovered(doc, u2);
  }

  /** rawStateToObjects applied to its own result changes nothing. */
  lemma NormalizeIdempotent(raw: Json, u1: Slot -> Id, u2: Slot -> Id)
    requires NormalizeDocument(raw, u1).Ok?
    ensures var loaded := NormalizeDocument(raw, u1).value;
      NormalizeDocument(loaded.doc, u2) == Ok(loaded)
  {
    var Loaded(doc, log) := NormalizeDocument(raw, u1).value;
    LoadedDocument(raw, u1, u2);
    var ps, cs := ArrayField(raw, "pages"), ArrayField(raw, "connectors");
    var (newPages, pageLog) := NormalizePages(ps, u1).value;
    var (newConnectors, connectorLog) := NormalizeConnectors(cs, u1).value;
    PagesFixpoint(ps, u1, u2);
    ConnectorsFixpoint(cs, u1, u2);
    assert doc.fields["pages" := JArray(newPages)]["connectors" := JArray(newConnectors)] == doc.fields;
    DocumentFromMerged(doc, u2, newPages, newConnectors, newPages, pageLog, newConnectors, connectorLog);
  }

  // --------------------------------------------- documents the model writes

  /** A panel written from the typed model loads to itself with no report. */
  lemma TypedPanelUnchanged(page: nat, i: nat, p: Panel, u: Slot -> Id)
    ensures NormalizePanel(page, i, PanelToJson(p), u) == Ok((PanelToJson(p), []))
  {
    var j, t := PanelToJson(p), p.Type();
    assert PanelTag(j) == Some(t);
    var d := DefaultPanel(t, u(PanelSlot(page, i)), u(PanelConnectorSlot(page, i)));
    PanelShape(p, d);
    ShapeIncludesCovers(j, PanelToJson(d));
    MergeCovered(PanelToJson(d), j);
  }

  /** A page written from the typed model loads to itself with no report. */
  lemma TypedPageUnchanged(j: nat, pg: ProjectPage, u: Slot -> Id)
    ensures NormalizePage(j, PageToJson(pg), u) == Ok((PageToJson(pg), []))
  {
    var p := PageToJson(pg);
    var js := p.fields["panels"].items;
    DefaultPageCovered(j, p, u);
    forall i | 0 <= i < |js| ensures NormalizePanel(j, i, js[i], u) == Ok((js[i], [])) {
      TypedPanelUnchanged(j, i, pg.panels[i], u);
    }
    CollectUnchanged(PanelSteps(j, js, u), js);
    PageFromMerged(j, p, u, js, js, []);
    assert p.fields["panels" := JArray(js)] == p.fields;
  }

  /** A connector written from the typed model loads to itself with no report. */
  lemma TypedConnectorUnchanged(i: nat, c: ConnectorInfo, u: Slot -> Id)
    ensures NormalizeConnector(i, ConnectorToJson(c), u) == Ok((ConnectorToJson(c), []))
  {
    var j, t := ConnectorToJson(c), c.Type();
    assert ConnectorTag(j) == Some(t);
    var d := DefaultConnector(t, u(ConnectorSlot(i)));
    ConnectorShape(c, d);
    ShapeIncludesCovers(j, ConnectorToJson(d));
    MergeCovered(ConnectorToJson(d), j);
  }

  /** The pages of a project written from the typed model load to themselves with no report. */
  lemma TypedPagesUnchanged(s: ProjectState, u: Slot -> Id)
    ensures var ps := ProjectToJson(s).fields["pages"].items;
      NormalizePages(ps, u) == Ok((ps, []))
  {
    var ps := ProjectToJson(s).fields["pages"].items;
    forall i | 0 <= i < |ps| ensures NormalizePage(i, ps[i], u) == Ok((ps[i], [])) {
      TypedPageUnchanged(i, s.pages[i], u);
    }
    CollectUnchanged(PageSteps(ps, u), ps);
  }

  /** The connectors of a project written from the typed model load to themselves with no report. */
  lemma TypedConnectorsUnchanged(s: ProjectState, u: Slot -> Id)
    ensures var cs := ProjectToJson(s).fields["connectors"].items;
      NormalizeConnectors(cs, u) == Ok((cs, []))
  {
    var cs := ProjectToJson(s).fields["connectors"].items;
    forall i | 0 <= i < |cs| ensures NormalizeConnector(i, cs[i], u) == Ok((cs[i], [])) {
      TypedConnectorUnchanged(i, s.connectors[i], u);
    }
    CollectUnchanged(ConnectorSteps(cs, u), cs);
  }

  /**
   * A project written from the typed model loads to itself with no report:
   * the loader only fills in what an older document lacks.
   */
  lemma TypedProjectUnchanged(s: ProjectState, u: Slot -> Id)
    ensures NormalizeDocument(ProjectToJson(s), u) == Ok(Loaded(ProjectToJson(s), []))
  {
    var doc := ProjectToJson(s);
    ProjectSaved(s);
    var ps, cs := doc.fields["pages"].items, doc.fields["connectors"].items;
    DefaultDocumentCovered(doc, u);
    TypedPagesUnchanged(s, u);
    TypedConnectorsUnchanged(s, u);
    var none: seq<Report> := [];
    DocumentFromMerged(doc, u, ps, cs, ps, none, cs, none);
    assert doc.fields["pages" := JArray(ps)]["connectors" := JArray(cs)] == doc.fields;
    assert none + none == none;
  }

  /** The example project loads to itself with no report. */
  lemma DefaultProjectUnchanged(ids: ExampleIds, u: Slot -> Id)
    ensures NormalizeDocument(ProjectToJson(DefaultProject(ids)), u) == Ok(Loaded(ProjectToJson(DefaultProject(ids)), []))
  {
    TypedProjectUnchanged(DefaultProject(ids), u);
  }
}
