/**
 * rawStateToObjects: the load-time normaliser. It lays the loaded document
 * over a default project, each page over a default page, and each panel and
 * connector over a default of the variant its "type" tag names, so that
 * fields added to a variant since the document was saved get their defaults
 * while everything the document holds is kept.
 *
 * The functions give the normaliser's meaning as left folds over the pages,
 * panels and connectors, in the order the loops visit them, so that the
 * first failing entry decides the error; `RawStateToObjects` is the loop
 * program that replaces the slots in place, proved equal to them.
 *
 * JavaScript's TypeErrors become `LoadError`s: a null panel or connector
 * (reading `.type` of null), and, under the assumed `Merge`, a document or
 * page that is not an object and a `pages`, `panels` or `connectors` field
 * that is not an array. An entry
 * whose tag is not one of the variants' is left as it is and reported (the
 * console.error call); the text of the message is not modelled.
 */
module Normalize {
  import opened Wrappers
  import opened JsonValue
  import opened State

  /** Where the loader builds a default, and so draws a uuid: `uuids(slot)`. */
  datatype Slot =
    | DocumentSlot
    | PageSlot(page: nat)
    | PanelSlot(page: nat, index: nat)
    | PanelConnectorSlot(page: nat, index: nat)
    | ConnectorSlot(index: nat)

  /** A console.error report of an entry left as it was. */
  datatype Report = UnknownPanelType(page: nat, index: nat) | UnknownConnectorType(index: nat)

  /** The TypeError that aborts a load. */
  datatype LoadError =
    | DocumentNotObject
    | PagesNotArray
    | PageNotObject(page: nat)
    | PanelsNotArray(page: nat)
    | NullPanel(page: nat, index: nat)
    | ConnectorsNotArray
    | NullConnector(index: nat)

  /** A loaded document and what was reported while loading it. */
  datatype Loaded = Loaded(doc: Json, reports: seq<Report>)

  /** What one step of a loop yields: the new entry and its reports, or the error that aborts the loop. */
  type Step = Result<(Json, seq<Report>), LoadError>

  /**
   * A loop over entries: the first failing step aborts it with its error,
   * otherwise the new entries and the reports are collected in order.
   */
  function Collect(steps: seq<Step>): Result<(seq<Json>, seq<Report>), LoadError>
  {
    if steps == [] then Ok(([], []))
    else
      match Collect(steps[..|steps| - 1])
      case Err(e) => Err(e)
      case Ok((done, log)) =>
        match steps[|steps| - 1]
        case Err(e) => Err(e)
        case Ok((x, r)) => Ok((done + [x], log + r))
  }

  /** The variant an entry's `type` field names (the `switch (panel.type)`). */
  function PanelTag(entry: Json): (r: Option<PanelType>)
    ensures r.Some? <==> exists t :: Field(entry, "type") == Some(JString(TypeName(t)))
    ensures r.Some? ==> Field(entry, "type") == Some(JString(TypeName(r.value)))
  {
    match Field(entry, "type")
    case Some(JString(s)) => ParsePanelType(s)
    case _ => None
  }

  /** The variant a connector entry's `type` field names (the `switch (c.type)`). */
  function ConnectorTag(entry: Json): (r: Option<ConnectorType>)
    ensures r.Some? <==> exists t :: Field(entry, "type") == Some(JString(ConnectorTypeName(t)))
    ensures r.Some? ==> Field(entry, "type") == Some(JString(ConnectorTypeName(r.value)))
  {
    match Field(entry, "type")
    case Some(JString(s)) => ParseConnectorType(s)
    case _ => None
  }

  /** `new ProjectState()` as the loader builds it. */
  function DefaultDocumentJson(uuids: Slot -> Id): Json
  {
    ProjectToJson(NewProjectState(uuids(DocumentSlot), None, None, None))
  }

  /** `new ProjectPage()` for page `page`. */
  function DefaultPageJson(page: nat, uuids: Slot -> Id): Json
  {
    PageToJson(NewPage(uuids(PageSlot(page)), None, None))
  }

  /** The default panel of variant `t` for slot `index` of page `page`. */
  function DefaultPanelJson(t: PanelType, page: nat, index: nat, uuids: Slot -> Id): Json
  {
    PanelToJson(DefaultPanel(t, uuids(PanelSlot(page, index)), uuids(PanelConnectorSlot(page, index))))
  }

  /** The default connector of variant `t` for connector slot `index`. */
  function DefaultConnectorJson(t: ConnectorType, index: nat, uuids: Slot -> Id): Json
  {
    ConnectorToJson(DefaultConnector(t, uuids(ConnectorSlot(index))))
  }

  /** What slot `index` of page `page` holds after the loop (an entry that is not null). */
  function NormalizedPanel(page: nat, index: nat, entry: Json, uuids: Slot -> Id): Json
  {
    match PanelTag(entry)
    case Some(t) => Merge(DefaultPanelJson(t, page, index, uuids), entry)
    case None => entry
  }

  /** One step of the panels loop. */
  function NormalizePanel(page: nat, index: nat, entry: Json, uuids: Slot -> Id): Result<(Json, seq<Report>), LoadError>
  {
    if entry.JNull? then Err(NullPanel(page, index))
    else if PanelTag(entry).Some? then Ok((NormalizedPanel(page, index, entry, uuids), []))
    else Ok((entry, [UnknownPanelType(page, index)]))
  }

  /** The steps of the panels loop of page `page`, one per entry. */
  function PanelSteps(page: nat, panels: seq<Json>, uuids: Slot -> Id): (steps: seq<Step>)
    ensures |steps| == |panels|
    ensures forall i :: 0 <= i < |panels| ==> steps[i] == NormalizePanel(page, i, panels[i], uuids)
  {
    seq(|panels|, i requires 0 <= i < |panels| => NormalizePanel(page, i, panels[i], uuids))
  }

  /** The panels loop of page `page`. */
  function NormalizePanels(page: nat, panels: seq<Json>, uuids: Slot -> Id): Result<(seq<Json>, seq<Report>), LoadError>
  {
    Collect(PanelSteps(page, panels, uuids))
  }

  /** One step of the pages loop: merge onto a default page, then re-type its panels. */
  function NormalizePage(page: nat, entry: Json, uuids: Slot -> Id): Result<(Json, seq<Report>), LoadError>
  {
    LoadMergedPage(page, Merge(DefaultPageJson(page, uuids), entry), uuids)
  }

  /** The rest of one step of the pages loop, once the entry is merged onto its default. */
  function LoadMergedPage(page: nat, merged: Json, uuids: Slot -> Id): Result<(Json, seq<Report>), LoadError>
  {
    if !merged.JObject? then Err(PageNotObject(page))
    else
      match Field(merged, "panels")
      case Some(JArray(panels)) =>
        (match NormalizePanels(page, panels, uuids)
         case Err(e) => Err(e)
         case Ok((done, log)) => Ok((JObject(merged.fields["panels" := JArray(done)]), log)))
      case _ => Err(PanelsNotArray(page))
  }

  /** The steps of the pages loop, one per entry. */
  function PageSteps(pages: seq<Json>, uuids: Slot -> Id): (steps: seq<Step>)
    ensures |steps| == |pages|
    ensures forall i :: 0 <= i < |pages| ==> steps[i] == NormalizePage(i, pages[i], uuids)
  {
    seq(|pages|, i requires 0 <= i < |pages| => NormalizePage(i, pages[i], uuids))
  }

  /** The pages loop. */
  function NormalizePages(pages: seq<Json>, uuids: Slot -> Id): Result<(seq<Json>, seq<Report>), LoadError>
  {
    Collect(PageSteps(pages, uuids))
  }

  /** What connector slot `index` holds after the loop (an entry that is not null). */
  function NormalizedConnector(index: nat, entry: Json, uuids: Slot -> Id): Json
  {
    match ConnectorTag(entry)
    case Some(t) => Merge(DefaultConnectorJson(t, index, uuids), entry)
    case None => entry
  }

  /** One step of the connectors loop. */
  function NormalizeConnector(index: nat, entry: Json, uuids: Slot -> Id): Result<(Json, seq<Report>), LoadError>
  {
    if entry.JNull? then Err(NullConnector(index))
    else if ConnectorTag(entry).Some? then Ok((NormalizedConnector(index, entry, uuids), []))
    else Ok((entry, [UnknownConnectorType(index)]))
  }

  /** The steps of the connectors loop, one per entry. */
  function ConnectorSteps(connectors: seq<Json>, uuids: Slot -> Id): (steps: seq<Step>)
    ensures |steps| == |connectors|
    ensures forall i :: 0 <= i < |connectors| ==> steps[i] == NormalizeConnector(i, connectors[i], uuids)
  {
    seq(|connectors|, i requires 0 <= i < |connectors| => NormalizeConnector(i, connectors[i], uuids))
  }

  /** The connectors loop. */
  function NormalizeConnectors(connectors: seq<Json>, uuids: Slot -> Id): Result<(seq<Json>, seq<Report>), LoadError>
  {
    Collect(ConnectorSteps(connectors, uuids))
  }

  /** rawStateToObjects as a function of the loaded document. */
  function NormalizeDocument(raw: Json, uuids: Slot -> Id): Result<Loaded, LoadError>
  {
    LoadMergedDocument(Merge(DefaultDocumentJson(uuids), raw), uuids)
  }

  /** The rest of rawStateToObjects, once the document is merged onto its default. */
  function LoadMergedDocument(obj: Json, uuids: Slot -> Id): Result<Loaded, LoadError>
  {
    if !obj.JObject? then Err(DocumentNotObject)
    else
      match Field(obj, "pages")
      case Some(JArray(pages)) =>
        (match NormalizePages(pages, uuids)
         case Err(e) => Err(e)
         case Ok((newPages, pageLog)) =>
           match Field(obj, "connectors")
           case Some(JArray(connectors)) =>
             (match NormalizeConnectors(connectors, uuids)
              case Err(e) => Err(e)
              case Ok((newConnectors, connectorLog)) =>
                Ok(Loaded(JObject(obj.fields["pages" := JArray(newPages)]["connectors" := JArray(newConnectors)]),
                          pageLog + connectorLog)))
           case _ => Err(ConnectorsNotArray))
      case _ => Err(PagesNotArray)
  }

  // ------------------------------------------------------ the loop program

  /** One more step of a loop. */
  lemma CollectStep(steps: seq<Step>, n: nat, done: seq<Json>, log: seq<Report>)
    requires n < |steps| && Collect(steps[..n]) == Ok((done, log))
    ensures Collect(steps[..n + 1]) ==
            if steps[n].Ok? then Ok((done + [steps[n].value.0], log + steps[n].value.1)) else Err(steps[n].error)
  {
    assert steps[..n + 1][..n] == steps[..n];
  }

  /** Once a prefix of a loop fails, every longer prefix fails the same way. */
  lemma {:induction false} CollectErrPersists(steps: seq<Step>, k: nat, n: nat)
    requires k <= n <= |steps| && Collect(steps[..k]).Err?
    ensures Collect(steps[..n]) == Collect(steps[..k])
    decreases n
  {
    if n > k {
      CollectErrPersists(steps, k, n - 1);
      assert steps[..n][..n - 1] == steps[..n - 1];
    }
  }

  /** A step that fails after a successful prefix makes the whole loop fail with its error. */
  lemma CollectFailAt(steps: seq<Step>, n: nat, done: seq<Json>, log: seq<Report>)
    requires n < |steps| && Collect(steps[..n]) == Ok((done, log)) && steps[n].Err?
    ensures Collect(steps) == Err(steps[n].error)
  {
    CollectStep(steps, n, done, log);
    CollectErrPersists(steps, n + 1, |steps|);
    assert steps[..|steps|] == steps;
  }

  /** The body of the panels loop for slot `i` of page `pageI`. */
  method NormalizePanelSlot(pageI: nat, i: nat, panel: Json, uuids: Slot -> Id)
    returns (r: Result<(Json, seq<Report>), LoadError>)
    ensures r == NormalizePanel(pageI, i, panel, uuids)
  {
    if panel.JNull? {
      return Err(NullPanel(pageI, i));
    }
    match PanelTag(panel) {
      case Some(t) =>
        r := Ok((Merge(DefaultPanelJson(t, pageI, i, uuids), panel), []));
      case None =>
        r := Ok((panel, [UnknownPanelType(pageI, i)]));
    }
  }

  /**
   * The panels loop of one page, replacing `panels[i]` in place. Returns the
   * reports or the error that aborts the loop.
   */
  method NormalizePanelsInPlace(pageI: nat, panels: array<Json>, uuids: Slot -> Id)
    returns (r: Result<seq<Report>, LoadError>)
    modifies panels
    ensures var fold := NormalizePanels(pageI, old(panels[..]), uuids);
            (fold.Ok? ==> r == Ok(fold.value.1) && panels[..] == fold.value.0) &&
            (fold.Err? ==> r == Err(fold.error))
  {
    ghost var rawPanels := panels[..];
    ghost var steps := PanelSteps(pageI, rawPanels, uuids);
    var log: seq<Report> := [];
    var i := 0;
    while i < panels.Length
      invariant 0 <= i <= panels.Length
      invariant panels[i..] == rawPanels[i..]
      invariant Collect(steps[..i]) == Ok((panels[..i], log))
    {
      assert panels[i] == rawPanels[i];
      var step := NormalizePanelSlot(pageI, i, panels[i], uuids);
      assert step == steps[i];
      CollectStep(steps, i, panels[..i], log);
      if step.Err? {
        CollectErrPersists(steps, i + 1, panels.Length);
        assert steps[..panels.Length] == steps;
        return Err(step.error);
      }
      ghost var before := panels[..i];
      panels[i] := step.value.0;
      log := log + step.value.1;
      assert panels[..i + 1] == before + [panels[i]];
      i := i + 1;
    }
    assert panels[..] == panels[..i];
    assert steps[..i] == steps;
    r := Ok(log);
  }

  /** The body of the connectors loop for slot `i`. */
  method NormalizeConnectorSlot(i: nat, c: Json, uuids: Slot -> Id)
    returns (r: Result<(Json, seq<Report>), LoadError>)
    ensures r == NormalizeConnector(i, c, uuids)
  {
    if c.JNull? {
      return Err(NullConnector(i));
    }
    match ConnectorTag(c) {
      case Some(t) =>
        r := Ok((Merge(DefaultConnectorJson(t, i, uuids), c), []));
      case None =>
        r := Ok((c, [UnknownConnectorType(i)]));
    }
  }

  /** The connectors loop, replacing `connectors[i]` in place. */
  method NormalizeConnectorsInPlace(connectors: array<Json>, uuids: Slot -> Id)
    returns (r: Result<seq<Report>, LoadError>)
    modifies connectors
    ensures var fold := NormalizeConnectors(old(connectors[..]), uuids);
            (fold.Ok? ==> r == Ok(fold.value.1) && connectors[..] == fold.value.0) &&
            (fold.Err? ==> r == Err(fold.error))
  {
    ghost var rawConnectors := connectors[..];
    ghost var steps := ConnectorSteps(rawConnectors, uuids);
    var log: seq<Report> := [];
    var i := 0;
    while i < connectors.Length
      invariant 0 <= i <= connectors.Length
      invariant connectors[i..] == rawConnectors[i..]
      invariant Collect(steps[..i]) == Ok((connectors[..i], log))
    {
      assert connectors[i] == rawConnectors[i];
      var step := NormalizeConnectorSlot(i, connectors[i], uuids);
      assert step == steps[i];
      CollectStep(steps, i, connectors[..i], log);
      if step.Err? {
        CollectErrPersists(steps, i + 1, connectors.Length);
        assert steps[..connectors.Length] == steps;
        return Err(step.error);
      }
      ghost var before := connectors[..i];
      connectors[i] := step.value.0;
      log := log + step.value.1;
      assert connectors[..i + 1] == before + [connectors[i]];
      i := i + 1;
    }
    assert connectors[..] == connectors[..i];
    assert steps[..i] == steps;
    r := Ok(log);
  }

  /**
   * The body of the pages loop for page `pageI`: merge the entry onto a
   * default page, then re-type its panels in place.
   */
  method NormalizePageStep(pageI: nat, entry: Json, uuids: Slot -> Id)
    returns (r: Result<(Json, seq<Report>), LoadError>)
    ensures r == NormalizePage(pageI, entry, uuids)
  {
    var page := Merge(DefaultPageJson(pageI, uuids), entry);
    if !page.JObject? {
      return Err(PageNotObject(pageI));
    }
    var panelsField := Field(page, "panels");
    if !(panelsField.Some? && panelsField.value.JArray?) {
      return Err(PanelsNotArray(pageI));
    }
    var rawPanels := panelsField.value.items;
    var panels := new Json[|rawPanels|](k requires 0 <= k < |rawPanels| => rawPanels[k]);
    assert panels[..] == rawPanels;
    var panelsResult := NormalizePanelsInPlace(pageI, panels, uuids);
    if panelsResult.Err? {
      return Err(panelsResult.error);
    }
    r := Ok((JObject(page.fields["panels" := JArray(panels[..])]), panelsResult.value));
  }

  /** The pages loop, replacing `pages[pageI]` in place by the normalised page. */
  method NormalizePagesInPlace(pages: array<Json>, uuids: Slot -> Id)
    returns (r: Result<seq<Report>, LoadError>)
    modifies pages
    ensures var fold := NormalizePages(old(pages[..]), uuids);
            (fold.Ok? ==> r == Ok(fold.value.1) && pages[..] == fold.value.0) &&
            (fold.Err? ==> r == Err(fold.error))
  {
    ghost var rawPages := pages[..];
    ghost var steps := PageSteps(rawPages, uuids);
    var log: seq<Report> := [];
    var pageI := 0;
    while pageI < pages.Length
      invariant 0 <= pageI <= pages.Length
      invariant pages[pageI..] == rawPages[pageI..]
      invariant Collect(steps[..pageI]) == Ok((pages[..pageI], log))
    {
      assert pages[pageI] == rawPages[pageI];
      var step := NormalizePageStep(pageI, pages[pageI], uuids);
      assert step == steps[pageI];
      CollectStep(steps, pageI, pages[..pageI], log);
      if step.Err? {
        CollectErrPersists(steps, pageI + 1, pages.Length);
        assert steps[..pages.Length] == steps;
        return Err(step.error);
      }
      ghost var before := pages[..pageI];
      pages[pageI] := step.value.0;
      log := log + step.value.1;
      assert pages[..pageI + 1] == before + [pages[pageI]];
      pageI := pageI + 1;
    }
    assert pages[..] == pages[..pageI];
    assert steps[..pageI] == steps;
    r := Ok(log);
  }

  /**
   * rawStateToObjects: the document is a value, so the deep copy the source
   * makes first is implicit; the pages, each page's panels and the
   * connectors are copied into arrays whose slots the loops replace.
   */
  method RawStateToObjects(raw: Json, uuids: Slot -> Id) returns (r: Result<Loaded, LoadError>)
    ensures r == NormalizeDocument(raw, uuids)
  {
    var obj := Merge(DefaultDocumentJson(uuids), raw);
    if !obj.JObject? {
      return Err(DocumentNotObject);
    }
    var pagesField := Field(obj, "pages");
    if !(pagesField.Some? && pagesField.value.JArray?) {
      return Err(PagesNotArray);
    }
    var rawPages := pagesField.value.items;
    var pages := new Json[|rawPages|](k requires 0 <= k < |rawPages| => rawPages[k]);
    assert pages[..] == rawPages;
    var pagesResult := NormalizePagesInPlace(pages, uuids);
    if pagesResult.Err? {
      return Err(pagesResult.error);
    }
    var connectorsField := Field(obj, "connectors");
    if !(connectorsField.Some? && connectorsField.value.JArray?) {
      return Err(ConnectorsNotArray);
    }
    var rawConnectors := connectorsField.value.items;
    var connectors := new Json[|rawConnectors|](k requires 0 <= k < |rawConnectors| => rawConnectors[k]);
    assert connectors[..] == rawConnectors;
    var connectorsResult := NormalizeConnectorsInPlace(connectors, uuids);
    if connectorsResult.Err? {
      return Err(connectorsResult.error);
    }
    assert NormalizePages(rawPages, uuids) == Ok((pages[..], pagesResult.value));
    assert NormalizeConnectors(rawConnectors, uuids) == Ok((connectors[..], connectorsResult.value));
    r := Ok(Loaded(JObject(obj.fields["pages" := JArray(pages[..])]["connectors" := JArray(connectors[..])]),
                   pagesResult.value + connectorsResult.value));
  }
}
