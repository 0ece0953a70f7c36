# datastation: document variants, the load-time normaliser, and the panel component

This project models two pieces of datastation, a notebook in which a project holds pages of panels and a list of connectors, and proves properties of them.

**The document's variant model and its normaliser (`shared/state.ts`).**
- The model has two connector variants (SQL and HTTP) and six panel variants: program, graph, sql, http, table and literal.
- Each one is a datatype whose payload constructor is its `type` tag, so a record's tag and its payload cannot disagree.
- Every constructor is a function that takes its optional arguments as `Option`s and applies JavaScript's `||` defaults. The uuid it would draw is an explicit `Id` argument.
- `DEFAULT_PROJECT` is `State.DefaultProject`.
- Persisted documents are values of the `Json` datatype. `State.PanelToJson` and the other encoders give the form in which a record is saved.
- `rawStateToObjects` is `Normalize.RawStateToObjects`. It is a method with loops over arrays that replace each page, panel and connector slot in place, as the source's `forEach` loops do.
- It is proved equal to `Normalize.NormalizeDocument`, a left fold over the same entries. The properties below are lemmas about that fold:
  - entries keep their number and order;
  - a known tag becomes its variant, with the default's fields filled in at every depth where the entry is an object (a non-object value the entry holds replaces the default's subtree there);
  - an unknown tag is left as it is and reported;
  - the first null panel or connector aborts the load, as reading its `type` throws a TypeError in JavaScript;
  - a document or page that is not an object, or a `pages`, `panels` or `connectors` field that is not an array, aborts the load too. This follows from the merge assumed for `mergeDeep` (see "## Left out"), not from code in the repository's loader;
  - a document written from the typed model loads to itself;
  - loading is idempotent.

**The panel component (`ui/Panel.tsx`).**
- `evalPanel` is `PanelView.EvalPanel`.
  - Table and graph panels read `panelResults[panelSource].value`.
  - The other four types go to evaluators passed in as function parameters.
- The type selector is `PanelView.ChangeType`, reached through the handler `PanelControls.OnTypeChange`.
  - It rebuilds the panel as a new variant, keeping the name and content, with a fresh id.
  - An unknown type string raises, and then no update is sent.
- The header's move, run and remove buttons and the name and content editors are the methods of the class `PanelView.PanelControls`. Its `requests` field records the calls the component makes to `updatePanel`, `movePanel`, `removePanel` and `reevalPanel`.
- Its invariant `Valid()` states that every panel index a request names lies in `[0, panelCount)`.
- The "Last run" / "Not run" label is `PanelView.LastRunLabel`.

Points where the code does something other than one might expect, and the model follows the code:
- **Fields only the raw entry has.** `mergeDeep` (shared/merge) is not part of this model. `JsonValue.Merge` is a deep merge in which a key that only the raw entry has is kept. So legacy fields that the current variants no longer have survive a load.
- **Table and graph lookups.** `evalPanel` returns `panelResults[panelSource].value` whenever the slot exists, even when that slot recorded an exception. Otherwise it returns `undefined`, not an empty sequence.
- **No range check on `panelSource`.** Nothing in the code compares `panelSource` with the panel's own index.
- **The SQL connector argument.** `SQLPanelInfo` ignores its `sql` argument (shared/state.ts:153). So the SQL panel of `DEFAULT_PROJECT` holds an untitled default connector, not the `'In Memory'` one it is given. `State.DefaultProject` states it that way.
- **Null and non-object entries.** A null panel or connector makes JavaScript throw a TypeError when the loop reads its `type` (shared/state.ts:277, 303). That is modelled as an `Err(LoadError)`. The errors `DocumentNotObject`, `PageNotObject`, `PagesNotArray`, `PanelsNotArray` and `ConnectorsNotArray` rest on the assumed `JsonValue.Merge`, under which a raw value that is not an object replaces the default. A `mergeDeep` that returned the default for such a value would load it without error.

## Model

| member | source | states |
|---|---|---|
| State.ParseConnectorType | shared/state.ts:5 | the connector tag strings are exactly `'sql'` and `'http'`: a string parses to `t` iff it is `t`'s tag |
| State.NewSqlConnector | shared/state.ts:59-75 | `new SQLConnectorInfo(...)` keeps a non-empty name and is otherwise 'Untitled Connector' (a given '' counts as none); kind is the given one or in-memory; database, username, password and address are the given ones or ''; the id is the fresh one |
| State.DefaultSqlConnector | shared/state.ts:59-75 | `new SQLConnectorInfo()` is named 'Untitled Connector', is of kind in-memory, has empty database, username, password and address, and gets the given fresh id |
| State.NewHttpConnector | shared/state.ts:33-45 | `new HTTPConnectorInfo(...)` keeps a non-empty name and is otherwise 'Untitled Connector'; url is the given one or '', headers the given ones or `[]`, method the given one or GET; the id is the fresh one |
| State.DefaultHttpConnector | shared/state.ts:33-45 | `new HTTPConnectorInfo()` is named 'Untitled Connector' and has an empty url, method GET and no headers |
| State.DefaultConnector | shared/state.ts:7-76 | the no-argument connector of each variant carries that variant's tag and exactly the defaults above |
| State.ParsePanelType | shared/state.ts:78-84 | the panel tag strings are exactly the six variant names: a string parses to `t` iff it is `t`'s tag |
| State.NewProgramPanel | shared/state.ts:102-113 | the program constructor sets tag 'program' and the fresh id; the name and content are the given ones or '' (`name \|\| ''`, `content \|\| ''`), and the language is the given one or javascript |
| State.NewGraphPanel | shared/state.ts:122-146 | the graph constructor sets tag 'graph', the fresh id, and the name and content or ''; panelSource is the given one or 0, y the given one or an empty field and label, x the given one or '', and the kind is bar |
| State.NewSqlPanel | shared/state.ts:148-155 | the sql constructor sets tag 'sql', the fresh id, and the name and content or ''; it ignores its `sql` argument, so the panel always holds a new default SQL connector |
| State.NewHttpPanel | shared/state.ts:159-166 | the http constructor sets tag 'http', the fresh id, and the name and content or ''; it uses a supplied connector as it is, and builds a default HTTP connector when none is given |
| State.NewTablePanel | shared/state.ts:173-191 | the table constructor sets tag 'table', the fresh id, and the name and content or ''; columns default to `[]` and panelSource to 0 when not given |
| State.NewLiteralPanel | shared/state.ts:195-206 | the literal constructor sets tag 'literal', the fresh id, and the name and content or ''; the format is the given one or csv |
| State.NewPanelOfType | shared/state.ts:92-97 | building variant `t` with only a name gives tag `t`, the fresh id, the given name (or ''), empty content, and the variant's default payload |
| State.DefaultPanel | shared/state.ts:86-206 | the no-argument panel of variant `t` has tag `t`, empty name and content, and every type-specific field at its default (graph: panelSource 0, x '', y {'' ,''}, bar; table: no columns, panelSource 0; program: javascript; literal: csv; sql/http: a default connector) |
| State.NewPage | shared/state.ts:208-218 | `new ProjectPage(name?, panels?)` keeps the given name and panels, and otherwise has an empty name and no panels; the id is the fresh one |
| State.NewProjectState | shared/state.ts:220-236 | `new ProjectState(projectName?, pages?, connectors?)` keeps each given argument, and otherwise has an empty project name, no pages and no connectors; the id is the fresh one |
| State.PageSaved | shared/state.ts:208-218 | a saved page is an object of exactly its panels, name and id, with its panels in order, each saved under its own tag |
| State.ProjectSaved | shared/state.ts:220-236 | a saved project is an object of exactly its pages, project name, connectors and id, with pages and connectors in order, each connector saved under its own tag |
| State.DefaultProject | shared/state.ts:238-261 | DEFAULT_PROJECT is 'Example project' with no connectors and one page 'CSV Discovery Example' (with its fresh id) of three panels: the csv literal, the sql panel (with an untitled default connector), and the graph of panel 1 with x 'name' and y {'age','Age'} |
| State.ConnectorToJson | shared/state.ts:7-10 | a persisted connector holds its tag under "type" and, of the two payload keys, only its own |
| State.PanelToJson | shared/state.ts:86-91 | a persisted panel is an object with its tag under "type" and, of the six payload keys, only its own |
| Normalize.PanelTag | shared/state.ts:277-298 | the `switch (panel.type)` picks a variant exactly when the entry's "type" field is one of the six tag strings, and then the one it names |
| Normalize.ConnectorTag | shared/state.ts:303-311 | the `switch (c.type)` picks a variant exactly when "type" is 'sql' or 'http' |
| Normalize.NormalizePanelSlot | shared/state.ts:276-298 | one step of the panels loop: a null entry aborts; a known tag merges the entry onto that variant's default; an unknown tag keeps it and reports it |
| Normalize.NormalizePanelsInPlace | shared/state.ts:276-299 | the in-place panels loop leaves the array and the reports equal to the panels fold, or returns the fold's error |
| Normalize.NormalizeConnectorSlot | shared/state.ts:302-312 | one step of the connectors loop, the same three cases |
| Normalize.NormalizeConnectorsInPlace | shared/state.ts:302-313 | the in-place connectors loop agrees with the connectors fold |
| Normalize.NormalizePageStep | shared/state.ts:270-299 | one step of the pages loop: merge onto `new ProjectPage()`, then run the panels loop over the merged page's panels |
| Normalize.NormalizePagesInPlace | shared/state.ts:270-300 | the in-place pages loop agrees with the pages fold |
| Normalize.RawStateToObjects | shared/state.ts:266-316 | rawStateToObjects merges the document onto `new ProjectState()`, runs the pages loop and then the connectors loop, and yields exactly `NormalizeDocument` |
| JsonValue.MergeKeepsRaw | shared/state.ts:268 | a non-object value found along a path of the raw entry is the merge's value there |
| JsonValue.MergeFillsMissing | shared/state.ts:268 | a path missing from the raw entry takes the default's value |
| JsonValue.MergeCoversDefault | shared/state.ts:268 | the merged value has every key of the default at every depth where the merged value is an object; a raw non-object value replaces the default's subtree |
| JsonValue.MergeCovered | shared/state.ts:268 | merging onto a default whose keys the value already has changes nothing |
| NormalizeProperties.SqlConnectorShape | shared/state.ts:50-76 | any two SQL connectors have the same nested keys |
| NormalizeProperties.HttpConnectorShape | shared/state.ts:26-46 | any two HTTP connectors have the same nested keys |
| NormalizeProperties.ConnectorShape | shared/state.ts:7-76 | two connectors of the same variant have the same nested keys, whatever their ids and values |
| NormalizeProperties.PanelShape | shared/state.ts:86-206 | two panels of the same variant have the same nested keys |
| NormalizeProperties.KnownPanelBecomesVariant | shared/state.ts:277-295 | a panel with a known tag keeps that tag and has every top-level field of the variant's default, and its nested fields wherever the panel holds an object; every non-object value it held is kept; every path it lacked takes the default's value |
| NormalizeProperties.KnownConnectorBecomesVariant | shared/state.ts:303-309 | the same for connectors |
| NormalizeProperties.CollectPointwise | shared/state.ts:276-299 | a `forEach` loop that completes yields one entry per step, in order, and exactly the reports of its steps |
| NormalizeProperties.PanelsOkIff | shared/state.ts:276-299 | the panels loop completes iff no panel entry is null |
| NormalizeProperties.PanelsFirstNull | shared/state.ts:276-277 | the panels loop aborts with the error of the first null panel |
| NormalizeProperties.PanelsPointwise | shared/state.ts:276-299 | the panels loop keeps the number and order of the panels and re-types each one by its own tag |
| NormalizeProperties.PanelsReports | shared/state.ts:296-297 | the panels loop reports exactly the panels whose tag is unknown, by their position |
| NormalizeProperties.UnknownPanels | shared/state.ts:276-298 | the expected log of a panels loop: one report per panel whose tag is unknown, naming its page and position, in increasing position |
| NormalizeProperties.PanelsLog | shared/state.ts:276-298 | the panels loop's log is exactly that expected log: each unknown panel is reported once, in index order |
| NormalizeProperties.MergedPage | shared/state.ts:271-274 | a merged page has the raw page's keys plus panels, name and id; missing ones take their defaults (`[]`, '', the fresh id); all the others are kept as they were |
| NormalizeProperties.PageOkIff | shared/state.ts:270-299 | a page loads iff it is an object, its panels (if present) are an array, and none of them is null |
| NormalizeProperties.PageFirstNull | shared/state.ts:276-277 | a page fails with the error of its first null panel |
| NormalizeProperties.PageStructure | shared/state.ts:270-300 | a loaded page keeps its own fields, defaults name and id, and holds the panels loop's result |
| NormalizeProperties.PageLog | shared/state.ts:270-299 | a page that loads reports exactly the unknown panels of its panels array, each once, in index order |
| NormalizeProperties.UnknownPanelsOfPages | shared/state.ts:270-300 | the expected log of the pages loop: each page's unknown panels, pages in order |
| NormalizeProperties.PagesLog | shared/state.ts:270-300 | the pages loop's log is exactly that expected log: every unknown panel of every page once, pages in order and panels in order within a page |
| NormalizeProperties.PagesOkIff | shared/state.ts:270-300 | the pages loop completes iff every page loads |
| NormalizeProperties.PagesFirstFailure | shared/state.ts:270-300 | the pages loop aborts with the error of the first page that fails |
| NormalizeProperties.PagesPointwise | shared/state.ts:270-300 | the pages loop keeps the number and order of the pages, loads each one on its own, and collects exactly their reports |
| NormalizeProperties.ConnectorsOkIff | shared/state.ts:302-313 | the connectors loop completes iff no connector is null |
| NormalizeProperties.ConnectorsFirstNull | shared/state.ts:302-303 | the connectors loop aborts at the first null connector |
| NormalizeProperties.ConnectorsPointwise | shared/state.ts:302-313 | the connectors loop keeps the number and order of the connectors and re-types each one by its own tag |
| NormalizeProperties.ConnectorsReports | shared/state.ts:310-311 | the connectors loop reports exactly the connectors whose tag is unknown |
| NormalizeProperties.UnknownConnectors | shared/state.ts:302-313 | the expected log of the connectors loop: one report per connector whose tag is unknown, in increasing position |
| NormalizeProperties.ConnectorsLog | shared/state.ts:302-313 | the connectors loop's log is exactly that expected log: each unknown connector is reported once, in index order |
| NormalizeProperties.MergedDocument | shared/state.ts:268 | the merged document has the raw keys plus pages, projectName, connectors and id; missing ones take their defaults; all the others are kept |
| NormalizeProperties.DocumentOkIff | shared/state.ts:266-316 | a document loads iff it is an object whose pages and connectors (where present) are arrays, every page loads and no connector is null |
| NormalizeProperties.DocumentErrorOrder | shared/state.ts:266-316 | a failing load reports the first problem in the order the code meets it: document, pages array, pages loop, connectors array, connectors loop |
| NormalizeProperties.DocumentStructure | shared/state.ts:266-316 | a loaded document keeps its own fields, defaults the project name and id, and holds the pages and connectors loops' results in number and order; its reports are those of its pages and connectors |
| NormalizeProperties.DocumentLog | shared/state.ts:266-316 | a document that loads reports exactly the unknown panels of its pages, page by page, followed by its unknown connectors, each in order |
| NormalizeFixpoint.PanelFixpoint | shared/state.ts:276-298 | re-typing an already re-typed panel changes nothing and gives the same report, whatever ids the second run draws |
| NormalizeFixpoint.PanelsFixpoint | shared/state.ts:276-299 | a loaded panels array loads again to itself with the same reports |
| NormalizeFixpoint.PageFixpoint | shared/state.ts:270-299 | a loaded page loads again to itself |
| NormalizeFixpoint.PagesFixpoint | shared/state.ts:270-300 | a loaded pages array loads again to itself |
| NormalizeFixpoint.ConnectorFixpoint | shared/state.ts:302-312 | a re-typed connector re-types to itself |
| NormalizeFixpoint.ConnectorsFixpoint | shared/state.ts:302-313 | a loaded connectors array loads again to itself |
| NormalizeFixpoint.DefaultDocumentCovered | shared/state.ts:268 | merging `new ProjectState()` into a document that has all four project fields changes nothing |
| NormalizeFixpoint.DefaultPageCovered | shared/state.ts:271-274 | merging `new ProjectPage()` into a page that has panels, name and id changes nothing |
| NormalizeFixpoint.LoadedDocument | shared/state.ts:266-316 | a loaded document holds the two loops' results, its reports are theirs in order, and it has every field of the default document |
| NormalizeFixpoint.NormalizeIdempotent | shared/state.ts:263-316 | rawStateToObjects applied to its own result gives the same document and the same reports |
| NormalizeFixpoint.TypedPanelUnchanged | shared/state.ts:276-295 | a panel saved from the typed model loads to itself with no report |
| NormalizeFixpoint.TypedPageUnchanged | shared/state.ts:270-299 | a page saved from the typed model loads to itself with no report |
| NormalizeFixpoint.TypedConnectorUnchanged | shared/state.ts:302-309 | a connector saved from the typed model loads to itself with no report |
| NormalizeFixpoint.TypedPagesUnchanged | shared/state.ts:270-300 | the pages of a saved project load to themselves |
| NormalizeFixpoint.TypedConnectorsUnchanged | shared/state.ts:302-313 | the connectors of a saved project load to themselves |
| NormalizeFixpoint.TypedProjectUnchanged | shared/state.ts:266-316 | a project saved from the typed model loads to itself with no report |
| NormalizeFixpoint.DefaultProjectUnchanged | shared/state.ts:238-261 | DEFAULT_PROJECT, saved, loads to itself with no report |
| PanelView.EvalPanel | ui/Panel.tsx:35-57 | a missing panel throws; a table or graph panel never throws and returns the value at its `panelSource` slot, absent exactly when that slot is out of range, a hole or has no value; a program, literal, sql or http panel's outcome is what its own type's evaluator gives for it |
| PanelView.EvalUsesOwnEvaluator | ui/Panel.tsx:41-56 | each panel type goes to one branch only: the outcome depends on no evaluator but its own type's, and for table and graph on none |
| PanelView.LastRunLabel | ui/Panel.tsx:159-163 | the label is "Not run" exactly when the slot is absent or has no lastRun, and otherwise "Last run " and the time |
| PanelView.ChangeType | ui/Panel.tsx:181-207 | a type change succeeds iff the string is one of the six tags, otherwise raises "Invalid panel type: …"; the new panel has that tag, the old name and content, the fresh id, and the variant's defaults everywhere else |
| PanelView.ChangeTypeTwice | ui/Panel.tsx:181-207 | after two type changes only the last matters |
| PanelView.ChangeToOwnType | ui/Panel.tsx:181-207 | changing a panel to its own type resets exactly its type-specific fields and its id |
| PanelView.MoveUpRequest | ui/Panel.tsx:124-132 | move-up requests nothing exactly at index 0, otherwise a move from the panel's index to a smaller index that lies within the page |
| PanelView.MoveDownRequest | ui/Panel.tsx:133-141 | move-down requests nothing exactly at the last index, otherwise a move to a larger index that lies within the page |
| PanelView.MoveDownThenUp | ui/Panel.tsx:124-141 | moving down and then up from the new position asks to return to the old one |
| PanelView.PanelControls.constructor | ui/Panel.tsx:63-81 | a rendered panel's controls start from its panel, its index within the page and the page's panel count, with no requests |
| PanelView.PanelControls.OnNameChange | ui/Panel.tsx:143-150 | the name editor renames the panel in place and sends the renamed panel to updatePanel |
| PanelView.PanelControls.OnContentChange | ui/Panel.tsx:265-273 | the content editor replaces the content in place and sends the panel to updatePanel |
| PanelView.PanelControls.OnTypeChange | ui/Panel.tsx:178-208 | the type selector sends `ChangeType`'s panel to updatePanel, or raises and sends nothing; the shown panel is unchanged |
| PanelView.PanelControls.OnMoveUp | ui/Panel.tsx:124-132 | the move-up button does nothing at index 0 and otherwise requests a move to index-1, keeping every requested index within the page |
| PanelView.PanelControls.OnMoveDown | ui/Panel.tsx:133-141 | the move-down button does nothing at the last index and otherwise requests a move to index+1 |
| PanelView.PanelControls.OnRun | ui/Panel.tsx:164-166 | the run button asks the store to re-evaluate this panel |
| PanelView.PanelControls.OnRemove | ui/Panel.tsx:170-172 | the delete button asks the store to remove this panel |

## Left out

- `mergeDeep` (shared/merge) is not part of this model. `JsonValue.Merge` is an assumed definition of it: it recurses into two objects, and otherwise the raw value wins. Arrays therefore replace the default's array. Every error for a document, page or field of the wrong kind, and the keeping of raw-only keys, depends on this assumption. Some lemmas (`NormalizeProperties.MergedPage`, `NormalizeProperties.MergedDocument` and the load conditions built on them) unfold `Merge`'s definition rather than use only its lemmas.
- uuid.v4 is not modelled. Every constructor takes its id as a parameter, and the loader draws ids through a function `uuids` of the slot being built.
- The deep copy `JSON.parse(JSON.stringify(raw))` is implicit: documents are values. JSON numbers are integers; floating point is not modelled.
- Only the kind of each console.error report is modelled: which panel or connector had an unknown tag. The message text is not.
- The typed model has no panel or connector with an unknown tag. Such entries exist only in the JSON form, where the loader leaves them as they are.
- `evalProgramPanel`, `evalLiteralPanel`, `evalSQLPanel` and `evalHTTPPanel` are opaque. They run scripts, parse literals, query SQL engines and make network calls, and their code is not part of this model. They are parameters, and an `async` evaluation is modelled by the outcome it settles to.
- PanelView.EvalPanel: a `panelSource` or `panelId` that is not an integer is not modelled. These are `int`s here.
- PanelView.EvalPanel: a panel whose tag is none of the six is not modelled. rawStateToObjects keeps such panels as they are, and the `switch` in `evalPanel` (ui/Panel.tsx:41-56) has no default, so for them it returns `undefined`. `EvalPanel` takes a typed page, in which every panel has one of the six tags.
- PanelView.PanelControls.OnNameChange and PanelView.PanelControls.OnContentChange: both change the panel object in place before calling `updatePanel`, and that object is shared with the project store (ui/Panel.tsx:143-150, 265-270). The aliasing is not modelled: the panel is a value, and the request carries the updated copy.
- The result cache and the bodies of `updatePanel`, `movePanel`, `removePanel` and `reevalPanel` live in `ProjectStore`, which is not part of this model. The component's calls are recorded as requests.
- All rendering in ui/Panel.tsx is left out: the body and preview JSX, the `details`, `hidden` and `previewVisible` toggles, the 50-line preview and the type icons. None of these changes the document.
- The per-type detail editors (`ProgramPanelDetails`, `SQLPanelDetails` and the others, ui/Panel.tsx:219-253) are not part of this model. They live in other files, receive `updatePanel`, and edit a panel's type-specific fields through it.
- ui/SQLConnector.tsx is not part of this model.
