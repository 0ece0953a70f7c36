/**
 * The panel component of the notebook UI: evaluation dispatch on a panel's
 * type, the header's move, run and remove controls, the "last run" label,
 * the name and content editors, and the type selector, which rebuilds the
 * panel as a new variant.
 *
 * The result cache belongs to the project store, which is not part of this
 * model; its slots appear here as values. The four evaluators that run a
 * script, a literal parser, a SQL engine or a network call are parameters:
 * only their dispatch is modelled. The component's callbacks (updatePanel,
 * movePanel, removePanel, reevalPanel) are recorded as requests.
 */
module PanelView {
  import opened Wrappers
  import opened JsonValue
  import opened State

  /** The moment a panel last ran, as the result cache records it. */
  datatype Timestamp = Timestamp(millis: int)

  /** One slot of the result cache. */
  datatype PanelResult = PanelResult(value: Option<Json>, exception: Option<string>, lastRun: Option<Timestamp>)

  /** The page's result cache, by panel position; a slot may be a hole. */
  type Results = seq<Option<PanelResult>>

  /** What evaluating a panel settles to: a value (maybe undefined) or a thrown error. */
  datatype Outcome = Returned(value: Option<Json>) | Raised(message: string)

  /** The evaluators of the four panel types that compute their own value. */
  datatype Evaluators = Evaluators(
    program: (Panel, Results) -> Outcome,
    literal: Panel -> Outcome,
    sql: (Panel, Results) -> Outcome,
    http: Panel -> Outcome)

  /** What reading `.type` of `page.panels[panelId]` throws when there is no such panel. */
  const UndefinedPanelMessage := "Cannot read properties of undefined (reading 'type')"

  /** The slot `results[i]`: absent out of range and at a hole. */
  function ResultAt(results: Results, i: int): Option<PanelResult>
  {
    if 0 <= i < |results| then results[i] else None
  }

  /** `(panelResults[i] || {}).value`. */
  function SlotValue(results: Results, i: int): Option<Json>
  {
    match ResultAt(results, i)
    case None => None
    case Some(slot) => slot.value
  }

  /** The table and graph panels, whose value is another panel's result. */
  predicate IsDerived(t: PanelType)
  {
    t == TableType || t == GraphType
  }

  /**
   * evalPanel: a missing panel throws; a table or graph panel returns the
   * value cached at its `panelSource` and never throws, absent when that slot
   * is out of range, a hole, or holds no value; every other panel is handed
   * to the evaluator of its own type, whose outcome is the result.
   */
  function EvalPanel(page: ProjectPage, panelId: int, results: Results, ev: Evaluators): (r: Outcome)
    ensures !(0 <= panelId < |page.panels|) ==> r == Raised(UndefinedPanelMessage)
    ensures 0 <= panelId < |page.panels| && IsDerived(page.panels[panelId].Type()) ==>
      var src := page.panels[panelId].payload.panelSource;
      r.Returned? &&
      (r.value.Some? <==> 0 <= src < |results| && results[src].Some? && results[src].value.value.Some?) &&
      (r.value.Some? ==> r.value == results[src].value.value)
    ensures 0 <= panelId < |page.panels| ==>
      var panel := page.panels[panelId];
      && (panel.Type() == ProgramType ==> r == ev.program(panel, results))
      && (panel.Type() == LiteralType ==> r == ev.literal(panel))
      && (panel.Type() == SqlType ==> r == ev.sql(panel, results))
      && (panel.Type() == HttpType ==> r == ev.http(panel))
  {
    if !(0 <= panelId < |page.panels|) then Raised(UndefinedPanelMessage)
    else
      var panel := page.panels[panelId];
      match panel.payload
      case ProgramPayload(_) => ev.program(panel, results)
      case LiteralPayload(_) => ev.literal(panel)
      case SqlPayload(_) => ev.sql(panel, results)
      case GraphPayload(src, _, _, _) => Returned(SlotValue(results, src))
      case TablePayload(_, src) => Returned(SlotValue(results, src))
      case HttpPayload(_) => ev.http(panel)
  }

  /** `e1` and `e2` have the same evaluator for panels of type `t`. */
  ghost predicate SameEvaluatorFor(t: PanelType, e1: Evaluators, e2: Evaluators)
  {
    match t
    case ProgramType => forall p, rs :: e1.program(p, rs) == e2.program(p, rs)
    case LiteralType => forall p :: e1.literal(p) == e2.literal(p)
    case SqlType => forall p, rs :: e1.sql(p, rs) == e2.sql(p, rs)
    case HttpType => forall p :: e1.http(p) == e2.http(p)
    case TableType => true
    case GraphType => true
  }

  /**
   * Each panel type goes to one branch only: the outcome depends on no
   * evaluator but the one of the panel's own type, and for a table or graph
   * panel on none at all.
   */
  lemma EvalUsesOwnEvaluator(page: ProjectPage, panelId: int, results: Results, e1: Evaluators, e2: Evaluators)
    requires 0 <= panelId < |page.panels|
    requires SameEvaluatorFor(page.panels[panelId].Type(), e1, e2)
    ensures EvalPanel(page, panelId, results, e1) == EvalPanel(page, panelId, results, e2)
  {
  }

  /**
   * The header's "last run" label: "Not run" exactly when the panel's slot is
   * absent or records no run; otherwise "Last run " and the rendered time
   * (`show` is the platform's conversion of a date to a string).
   */
  function LastRunLabel(results: Results, panelIndex: int, show: Timestamp -> string): (text: string)
    ensures text == "Not run" <==>
      ResultAt(results, panelIndex).None? || ResultAt(results, panelIndex).value.lastRun.None?
    ensures ResultAt(results, panelIndex).Some? && ResultAt(results, panelIndex).value.lastRun.Some? ==>
      text == "Last run " + show(ResultAt(results, panelIndex).value.lastRun.value)
  {
    match ResultAt(results, panelIndex)
    case Some(PanelResult(_, _, Some(t))) =>
      var shown := "Last run " + show(t);
      assert |shown| >= 9;
      shown
    case _ => "Not run"
  }

  /** The error the type selector throws on a value that names no panel type. */
  function InvalidTypeMessage(value: string): string
  {
    "Invalid panel type: " + value
  }

  /**
   * The type selector's rebuild of `p` as the variant named `value`: a new
   * panel with that tag, the old name and content, the fresh id `id`, and
   * every type-specific field at the variant's default (the sql and http
   * variants build a connector with id `connectorId`). A value naming no
   * panel type is an error.
   */
  function ChangeType(p: Panel, value: string, id: Id, connectorId: Id): (r: Result<Panel, string>)
    ensures r.Ok? <==> exists t :: TypeName(t) == value
    ensures r.Err? ==> r.error == InvalidTypeMessage(value)
    ensures r.Ok? ==>
      TypeName(r.value.Type()) == value &&
      r.value.name == p.name && r.value.content == p.content && r.value.id == id &&
      r.value == DefaultPanel(r.value.Type(), id, connectorId).(name := p.name, content := p.content)
  {
    match ParsePanelType(value)
    case None => Err(InvalidTypeMessage(value))
    case Some(t) =>
      var q := Panel(p.content, p.name, id, DefaultPayload(t, connectorId));
      assert q.Type() == t;
      Ok(q)
  }

  /**
   * Only the last of two type changes matters: the type-specific fields and
   * the id of the panel in between leave no trace.
   */
  lemma ChangeTypeTwice(p: Panel, first: string, second: string, id1: Id, cid1: Id, id2: Id, cid2: Id)
    requires ChangeType(p, first, id1, cid1).Ok?
    ensures ChangeType(ChangeType(p, first, id1, cid1).value, second, id2, cid2) == ChangeType(p, second, id2, cid2)
  {
  }

  /** Changing a panel to its own type resets exactly its type-specific fields and its id. */
  lemma ChangeToOwnType(p: Panel, id: Id, connectorId: Id)
    ensures ChangeType(p, TypeName(p.Type()), id, connectorId) ==
      Ok(p.(id := id, payload := DefaultPayload(p.Type(), connectorId)))
  {
  }

  /** A callback of the component, as the project store receives it. */
  datatype Request =
    | UpdatePanel(panel: Panel)
    | MovePanel(from: int, to: int)
    | RemovePanel(index: int)
    | ReevalPanel(index: int)

  /** Every panel index a request names is a position among `panelCount` panels. */
  predicate InRange(r: Request, panelCount: int)
  {
    match r
    case UpdatePanel(_) => true
    case MovePanel(from, to) => 0 <= from < panelCount && 0 <= to < panelCount
    case RemovePanel(i) => 0 <= i < panelCount
    case ReevalPanel(i) => 0 <= i < panelCount
  }

  /** What the move-up button requests: nothing when it is disabled, at index 0. */
  function MoveUpRequest(panelIndex: int, panelCount: int): (r: Option<Request>)
    requires 0 <= panelIndex < panelCount
    ensures r.None? <==> panelIndex == 0
    ensures r.Some? ==>
      r.value.MovePanel? && r.value.from == panelIndex &&
      r.value.to < panelIndex && InRange(r.value, panelCount)
  {
    if panelIndex == 0 then None else Some(MovePanel(panelIndex, panelIndex - 1))
  }

  /** What the move-down button requests: nothing when it is disabled, at the last index. */
  function MoveDownRequest(panelIndex: int, panelCount: int): (r: Option<Request>)
    requires 0 <= panelIndex < panelCount
    ensures r.None? <==> panelIndex == panelCount - 1
    ensures r.Some? ==>
      r.value.MovePanel? && r.value.from == panelIndex &&
      r.value.to > panelIndex && InRange(r.value, panelCount)
  {
    if panelIndex == panelCount - 1 then None else Some(MovePanel(panelIndex, panelIndex + 1))
  }

  /** Moving a panel down and then back up returns it to where it was. */
  lemma MoveDownThenUp(panelIndex: int, panelCount: int)
    requires 0 <= panelIndex < panelCount && MoveDownRequest(panelIndex, panelCount).Some?
    ensures var down := MoveDownRequest(panelIndex, panelCount).value;
      MoveUpRequest(down.to, panelCount) == Some(MovePanel(down.to, panelIndex))
  {
  }

  /**
   * The controls of one rendered panel: the panel it shows, its position
   * among the page's `panelCount` panels, and the requests its handlers
   * have issued so far.
   */
  class PanelControls {
    var panel: Panel
    var panelIndex: int
    var panelCount: int
    var requests: seq<Request>

    /** The panel is one of the page's, and every request names a position on the page. */
    ghost predicate Valid()
      reads this
    {
      0 <= panelIndex < panelCount && forall r | r in requests :: InRange(r, panelCount)
    }

    constructor (panel: Panel, panelIndex: int, panelCount: int)
      requires 0 <= panelIndex < panelCount
      ensures Valid()
      ensures this.panel == panel && this.panelIndex == panelIndex && this.panelCount == panelCount
      ensures requests == []
    {
      this.panel := panel;
      this.panelIndex := panelIndex;
      this.panelCount := panelCount;
      requests := [];
    }

    /** The name editor: renames the shown panel in place and sends it to the store. */
    method OnNameChange(value: string)
      requires Valid()
      modifies this
      ensures Valid()
      ensures panel == old(panel).(name := value)
      ensures requests == old(requests) + [UpdatePanel(panel)]
      ensures panelIndex == old(panelIndex) && panelCount == old(panelCount)
    {
      panel := panel.(name := value);
      requests := requests + [UpdatePanel(panel)];
    }

    /** The content editor: replaces the shown panel's content in place and sends it to the store. */
    method OnContentChange(value: string)
      requires Valid()
      modifies this
      ensures Valid()
      ensures panel == old(panel).(content := value)
      ensures requests == old(requests) + [UpdatePanel(panel)]
      ensures panelIndex == old(panelIndex) && panelCount == old(panelCount)
    {
      panel := panel.(content := value);
      requests := requests + [UpdatePanel(panel)];
    }

    /**
     * The type selector: builds a new panel of the selected variant from the
     * name, copies the content over and sends the new panel to the store; on
     * a value naming no type it throws (returns the error) and sends nothing.
     * The shown panel itself is not changed.
     */
    method OnTypeChange(value: string, id: Id, connectorId: Id) returns (raised: Option<string>)
      requires Valid()
      modifies this
      ensures Valid()
      ensures var r := ChangeType(old(panel), value, id, connectorId);
        (r.Ok? ==> raised.None? && requests == old(requests) + [UpdatePanel(r.value)]) &&
        (r.Err? ==> raised == Some(r.error) && requests == old(requests))
      ensures panel == old(panel) && panelIndex == old(panelIndex) && panelCount == old(panelCount)
    {
      var t := ParsePanelType(value);
      if t.None? {
        return Some(InvalidTypeMessage(value));
      }
      var newPanel := NewPanelOfType(t.value, id, connectorId, Some(panel.name));
      newPanel := newPanel.(content := panel.content);
      requests := requests + [UpdatePanel(newPanel)];
      return None;
    }

    /** The move-up button: does nothing while disabled, at index 0. */
    method OnMoveUp()
      requires Valid()
      modifies this
      ensures Valid()
      ensures old(panelIndex) == 0 ==> requests == old(requests)
      ensures old(panelIndex) != 0 ==> requests == old(requests) + [MovePanel(panelIndex, panelIndex - 1)]
      ensures panel == old(panel) && panelIndex == old(panelIndex) && panelCount == old(panelCount)
    {
      var r := MoveUpRequest(panelIndex, panelCount);
      if r.Some? {
        requests := requests + [r.value];
      }
    }

    /** The move-down button: does nothing while disabled, at the last index. */
    method OnMoveDown()
      requires Valid()
      modifies this
      ensures Valid()
      ensures old(panelIndex) == old(panelCount) - 1 ==> requests == old(requests)
      ensures old(panelIndex) != old(panelCount) - 1 ==>
        requests == old(requests) + [MovePanel(panelIndex, panelIndex + 1)]
      ensures panel == old(panel) && panelIndex == old(panelIndex) && panelCount == old(panelCount)
    {
      var r := MoveDownRequest(panelIndex, panelCount);
      if r.Some? {
        requests := requests + [r.value];
      }
    }

    /** The run button: asks the store to evaluate this panel again. */
    method OnRun()
      requires Valid()
      modifies this
      ensures Valid()
      ensures requests == old(requests) + [ReevalPanel(panelIndex)]
      ensures panel == old(panel) && panelIndex == old(panelIndex) && panelCount == old(panelCount)
    {
      requests := requests + [ReevalPanel(panelIndex)];
    }

    /** The delete button: asks the store to remove this panel. */
    method OnRemove()
      requires Valid()
      modifies this
      ensures Valid()
      ensures requests == old(requests) + [RemovePanel(panelIndex)]
      ensures panel == old(panel) && panelIndex == old(panelIndex) && panelCount == old(panelCount)
    {
      requests := requests + [RemovePanel(panelIndex)];
    }
  }
}
