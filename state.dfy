/**
 * The document's variant model: connectors (SQL, HTTP), panels (program,
 * graph, sql, http, table, literal), pages and the project, with each
 * record's constructor and its defaults, the example project, and the JSON
 * form in which these records are persisted.
 *
 * A record is a base (name, id and, for panels, content) plus one payload;
 * the payload's constructor is the record's type tag, so a record whose tag
 * and payload disagree cannot be built. Ids come from uuid.v4() in the
 * system; here every constructor takes the fresh id it is to use.
 */
module State {
  import opened Wrappers
  import opened JsonValue

  type Id = string

  /**
   * `value || fallback` for an optional string argument: JavaScript treats a
   * missing argument and the empty string alike as false.
   */
  function OrElse(value: Option<string>, fallback: string): string
  {
    if value.Some? && value.value != "" then value.value else fallback
  }

  /** `value || fallback` for an optional argument that is never falsy when given. */
  function Given<T>(value: Option<T>, fallback: T): T
  {
    if value.Some? then value.value else fallback
  }

  // ---------------------------------------------------------------- connectors

  datatype ConnectorType = SqlConnectorType | HttpConnectorType

  function ConnectorTypeName(t: ConnectorType): string
  {
    match t
    case SqlConnectorType => "sql"
    case HttpConnectorType => "http"
  }

  /** The connector type a tag string names, if any. */
  function ParseConnectorType(s: string): (r: Option<ConnectorType>)
    ensures r.Some? ==> ConnectorTypeName(r.value) == s
    ensures forall t :: ConnectorTypeName(t) == s ==> r == Some(t)
  {
    if s == "sql" then Some(SqlConnectorType)
    else if s == "http" then Some(HttpConnectorType)
    else None
  }

  datatype HttpMethod = Get | Head | Put | Post | Delete

  function HttpMethodName(m: HttpMethod): string
  {
    match m
    case Get => "GET"
    case Head => "HEAD"
    case Put => "PUT"
    case Post => "POST"
    case Delete => "DELETE"
  }

  datatype Header = Header(value: string, name: string)

  /** `httpMethod` is the source's `method` (a Dafny keyword). */
  datatype HttpSettings = HttpSettings(headers: seq<Header>, url: string, httpMethod: HttpMethod)

  /** HTTPConnectorInfo: a connector whose tag is 'http'. */
  datatype HttpConnectorInfo = HttpConnectorInfo(name: string, id: Id, http: HttpSettings)

  datatype SqlKind = Postgres | InMemory

  function SqlKindName(k: SqlKind): string
  {
    match k
    case Postgres => "postgres"
    case InMemory => "in-memory"
  }

  datatype SqlSettings = SqlSettings(
    kind: SqlKind, database: string, username: string, password: string, address: string)

  /** SQLConnectorInfo: a connector whose tag is 'sql'. */
  datatype SqlConnectorInfo = SqlConnectorInfo(name: string, id: Id, sql: SqlSettings)

  /** ConnectorInfo: one of the two connector variants. */
  datatype ConnectorInfo = SqlConnector(sqlInfo: SqlConnectorInfo) | HttpConnector(httpInfo: HttpConnectorInfo)
  {
    function Type(): ConnectorType
    {
      match this
      case SqlConnector(_) => SqlConnectorType
      case HttpConnector(_) => HttpConnectorType
    }
  }

  /** The name every connector gets when none (or '') is given. */
  const UntitledConnector := "Untitled Connector"

  /** new SQLConnectorInfo(name?, type?, database?, username?, password?, address?) */
  function NewSqlConnector(
    id: Id, name: Option<string>, kind: Option<SqlKind>, database: Option<string>,
    username: Option<string>, password: Option<string>, address: Option<string>): (c: SqlConnectorInfo)
    ensures c.id == id
    ensures name.Some? && name.value != "" ==> c.name == name.value
    ensures name.None? || name.value == "" ==> c.name == UntitledConnector
    ensures kind.Some? ==> c.sql.kind == kind.value
    ensures kind.None? ==> c.sql.kind == InMemory
    ensures database.Some? ==> c.sql.database == database.value
    ensures database.None? ==> c.sql.database == ""
    ensures username.Some? ==> c.sql.username == username.value
    ensures username.None? ==> c.sql.username == ""
    ensures password.Some? ==> c.sql.password == password.value
    ensures password.None? ==> c.sql.password == ""
    ensures address.Some? ==> c.sql.address == address.value
    ensures address.None? ==> c.sql.address == ""
  {
    SqlConnectorInfo(OrElse(name, UntitledConnector), id,
      SqlSettings(Given(kind, InMemory), OrElse(database, ""), OrElse(username, ""),
                  OrElse(password, ""), OrElse(address, "")))
  }

  /** new SQLConnectorInfo() */
  function DefaultSqlConnector(id: Id): (c: SqlConnectorInfo)
    ensures c.id == id && c.name == "Untitled Connector"
    ensures c.sql.kind == InMemory
    ensures c.sql.database == "" && c.sql.username == "" && c.sql.password == "" && c.sql.address == ""
  {
    NewSqlConnector(id, None, None, None, None, None, None)
  }

  /** new HTTPConnectorInfo(name?, url?, headers = [], method?) */
  function NewHttpConnector(
    id: Id, name: Option<string>, url: Option<string>, headers: Option<seq<Header>>,
    httpMethod: Option<HttpMethod>): (c: HttpConnectorInfo)
    ensures c.id == id
    ensures name.Some? && name.value != "" ==> c.name == name.value
    ensures name.None? || name.value == "" ==> c.name == UntitledConnector
    ensures url.Some? ==> c.http.url == url.value
    ensures url.None? ==> c.http.url == ""
    ensures headers.Some? ==> c.http.headers == headers.value
    ensures headers.None? ==> c.http.headers == []
    ensures httpMethod.Some? ==> c.http.httpMethod == httpMethod.value
    ensures httpMethod.None? ==> c.http.httpMethod == Get
  {
    HttpConnectorInfo(OrElse(name, UntitledConnector), id,
      HttpSettings(Given(headers, []), OrElse(url, ""), Given(httpMethod, Get)))
  }

  /** new HTTPConnectorInfo() */
  function DefaultHttpConnector(id: Id): (c: HttpConnectorInfo)
    ensures c.id == id && c.name == "Untitled Connector"
    ensures c.http.url == "" && c.http.httpMethod == Get && c.http.headers == []
  {
    NewHttpConnector(id, None, None, None, None)
  }

  /** The connector variant `t` built with no arguments. */
  function DefaultConnector(t: ConnectorType, id: Id): (c: ConnectorInfo)
    ensures c.Type() == t
    ensures t == SqlConnectorType ==>
      c == SqlConnector(SqlConnectorInfo("Untitled Connector", id, SqlSettings(InMemory, "", "", "", "")))
    ensures t == HttpConnectorType ==>
      c == HttpConnector(HttpConnectorInfo("Untitled Connector", id, HttpSettings([], "", Get)))
  {
    match t
    case SqlConnectorType => SqlConnector(DefaultSqlConnector(id))
    case HttpConnectorType => HttpConnector(DefaultHttpConnector(id))
  }

  // -------------------------------------------------------------------- panels

  datatype PanelType = TableType | HttpType | GraphType | ProgramType | LiteralType | SqlType

  /** The tag string of a panel type; it is also the key of that variant's payload. */
  function TypeName(t: PanelType): string
  {
    match t
    case TableType => "table"
    case HttpType => "http"
    case GraphType => "graph"
    case ProgramType => "program"
    case LiteralType => "literal"
    case SqlType => "sql"
  }

  /** The panel type a tag string names, if any. */
  function ParsePanelType(s: string): (r: Option<PanelType>)
    ensures r.Some? ==> TypeName(r.value) == s
    ensures forall t :: TypeName(t) == s ==> r == Some(t)
  {
    if s == "table" then Some(TableType)
    else if s == "http" then Some(HttpType)
    else if s == "graph" then Some(GraphType)
    else if s == "program" then Some(ProgramType)
    else if s == "literal" then Some(LiteralType)
    else if s == "sql" then Some(SqlType)
    else None
  }

  datatype ProgramLanguage = JavaScript | Python

  function ProgramLanguageName(l: ProgramLanguage): string
  {
    match l
    case JavaScript => "javascript"
    case Python => "python"
  }

  datatype GraphKind = Bar

  /** A graph's y axis; `caption` is the source's `label` (a Dafny keyword). */
  datatype GraphY = GraphY(field: string, caption: string)

  /** A table column; `caption` is the source's `label`. */
  datatype TableColumn = TableColumn(caption: string, field: string)

  datatype DataFormat = Csv | JsonFormat

  function DataFormatName(f: DataFormat): string
  {
    match f
    case Csv => "csv"
    case JsonFormat => "json"
  }

  /** The type-specific part of a panel; its constructor is the panel's tag. */
  datatype PanelPayload =
    | ProgramPayload(language: ProgramLanguage)
    | GraphPayload(panelSource: int, y: GraphY, x: string, kind: GraphKind)
    | SqlPayload(sql: SqlConnectorInfo)
    | HttpPayload(http: HttpConnectorInfo)
    | TablePayload(columns: seq<TableColumn>, panelSource: int)
    | LiteralPayload(format: DataFormat)

  /** PanelInfo: the base fields and one payload. */
  datatype Panel = Panel(content: string, name: string, id: Id, payload: PanelPayload)
  {
    function Type(): PanelType
    {
      match payload
      case ProgramPayload(_) => ProgramType
      case GraphPayload(_, _, _, _) => GraphType
      case SqlPayload(_) => SqlType
      case HttpPayload(_) => HttpType
      case TablePayload(_, _) => TableType
      case LiteralPayload(_) => LiteralType
    }
  }

  /**
   * PanelInfo's constructor: `name || ''` and `content || ''` (an empty
   * string given is the same as none), and the fresh id.
   */
  predicate BaseFrom(p: Panel, id: Id, name: Option<string>, content: Option<string>)
  {
    && p.id == id
    && (name.Some? ==> p.name == name.value) && (name.None? ==> p.name == "")
    && (content.Some? ==> p.content == content.value) && (content.None? ==> p.content == "")
  }

  /** new ProgramPanelInfo(name?, type?, content?) */
  function NewProgramPanel(
    id: Id, name: Option<string>, language: Option<ProgramLanguage>, content: Option<string>): (p: Panel)
    ensures p.Type() == ProgramType && BaseFrom(p, id, name, content)
    ensures language.Some? ==> p.payload.language == language.value
    ensures language.None? ==> p.payload.language == JavaScript
  {
    Panel(OrElse(content, ""), OrElse(name, ""), id, ProgramPayload(Given(language, JavaScript)))
  }

  /** new GraphPanelInfo(name?, panelSource?, y?, x?, type?, content?) */
  function NewGraphPanel(
    id: Id, name: Option<string>, panelSource: Option<int>, y: Option<GraphY>, x: Option<string>,
    kind: Option<GraphKind>, content: Option<string>): (p: Panel)
    ensures p.Type() == GraphType && BaseFrom(p, id, name, content)
    ensures panelSource.Some? ==> p.payload.panelSource == panelSource.value
    ensures panelSource.None? ==> p.payload.panelSource == 0
    ensures y.Some? ==> p.payload.y == y.value
    ensures y.None? ==> p.payload.y == GraphY("", "")
    ensures x.Some? ==> p.payload.x == x.value
    ensures x.None? ==> p.payload.x == ""
    ensures p.payload.kind == Bar
  {
    Panel(OrElse(content, ""), OrElse(name, ""), id,
      GraphPayload(Given(panelSource, 0), Given(y, GraphY("", "")), OrElse(x, ""), Given(kind, Bar)))
  }

  /**
   * new SQLPanelInfo(name?, sql?, content?): the `sql` argument is not used;
   * the panel always gets a new default SQL connector (with its own id).
   */
  function NewSqlPanel(
    id: Id, connectorId: Id, name: Option<string>, sql: Option<SqlConnectorInfo>,
    content: Option<string>): (p: Panel)
    ensures p.Type() == SqlType && BaseFrom(p, id, name, content)
    ensures p.payload.sql == DefaultSqlConnector(connectorId)
  {
    Panel(OrElse(content, ""), OrElse(name, ""), id, SqlPayload(DefaultSqlConnector(connectorId)))
  }

  /**
   * new HTTPPanelInfo(name?, http?, content?): a supplied connector is used
   * as it is; without one the panel gets a new default HTTP connector.
   */
  function NewHttpPanel(
    id: Id, connectorId: Id, name: Option<string>, http: Option<HttpConnectorInfo>,
    content: Option<string>): (p: Panel)
    ensures p.Type() == HttpType && BaseFrom(p, id, name, content)
    ensures http.Some? ==> p.payload.http == http.value
    ensures http.None? ==> p.payload.http == DefaultHttpConnector(connectorId)
  {
    Panel(OrElse(content, ""), OrElse(name, ""), id,
      HttpPayload(if http.Some? then http.value else DefaultHttpConnector(connectorId)))
  }

  /** new TablePanelInfo(name?, columns = [], panelSource = 0, content?) */
  function NewTablePanel(
    id: Id, name: Option<string>, columns: Option<seq<TableColumn>>, panelSource: Option<int>,
    content: Option<string>): (p: Panel)
    ensures p.Type() == TableType && BaseFrom(p, id, name, content)
    ensures columns.Some? ==> p.payload.columns == columns.value
    ensures columns.None? ==> p.payload.columns == []
    ensures panelSource.Some? ==> p.payload.panelSource == panelSource.value
    ensures panelSource.None? ==> p.payload.panelSource == 0
  {
    Panel(OrElse(content, ""), OrElse(name, ""), id,
      TablePayload(Given(columns, []), Given(panelSource, 0)))
  }

  /** new LiteralPanelInfo(name?, type?, content?) */
  function NewLiteralPanel(
    id: Id, name: Option<string>, format: Option<DataFormat>, content: Option<string>): (p: Panel)
    ensures p.Type() == LiteralType && BaseFrom(p, id, name, content)
    ensures format.Some? ==> p.payload.format == format.value
    ensures format.None? ==> p.payload.format == Csv
  {
    Panel(OrElse(content, ""), OrElse(name, ""), id, LiteralPayload(Given(format, Csv)))
  }

  /**
   * The constructor of variant `t` called with only a name, as the type
   * selector does (`new XPanelInfo(name)`); `connectorId` is the id of the
   * connector that the sql and http variants build for themselves.
   */
  function NewPanelOfType(t: PanelType, id: Id, connectorId: Id, name: Option<string>): (p: Panel)
    ensures p.Type() == t && BaseFrom(p, id, name, None)
    ensures p.payload == DefaultPayload(t, connectorId)
  {
    match t
    case SqlType => NewSqlPanel(id, connectorId, name, None, None)
    case LiteralType => NewLiteralPanel(id, name, None, None)
    case ProgramType => NewProgramPanel(id, name, None, None)
    case TableType => NewTablePanel(id, name, None, None, None)
    case GraphType => NewGraphPanel(id, name, None, None, None, None, None)
    case HttpType => NewHttpPanel(id, connectorId, name, None, None)
  }

  /** The type-specific part every variant gets when built with no arguments. */
  function DefaultPayload(t: PanelType, connectorId: Id): (r: PanelPayload)
  {
    match t
    case ProgramType => ProgramPayload(JavaScript)
    case GraphType => GraphPayload(0, GraphY("", ""), "", Bar)
    case SqlType => SqlPayload(SqlConnectorInfo(UntitledConnector, connectorId, SqlSettings(InMemory, "", "", "", "")))
    case HttpType => HttpPayload(HttpConnectorInfo(UntitledConnector, connectorId, HttpSettings([], "", Get)))
    case TableType => TablePayload([], 0)
    case LiteralType => LiteralPayload(Csv)
  }

  /**
   * The panel variant `t` built with no arguments: tag `t`, empty name and
   * content, and every type-specific field at its default.
   */
  function DefaultPanel(t: PanelType, id: Id, connectorId: Id): (p: Panel)
    ensures p == Panel("", "", id, DefaultPayload(t, connectorId))
    ensures p.Type() == t
  {
    NewPanelOfType(t, id, connectorId, None)
  }

  // ------------------------------------------------------------ pages, project

  datatype ProjectPage = ProjectPage(panels: seq<Panel>, name: string, id: Id)

  /** new ProjectPage(name?, panels?) */
  function NewPage(id: Id, name: Option<string>, panels: Option<seq<Panel>>): (pg: ProjectPage)
    ensures pg.id == id
    ensures name.Some? ==> pg.name == name.value
    ensures name.None? ==> pg.name == ""
    ensures panels.Some? ==> pg.panels == panels.value
    ensures panels.None? ==> pg.panels == []
  {
    ProjectPage(Given(panels, []), OrElse(name, ""), id)
  }

  datatype ProjectState = ProjectState(
    pages: seq<ProjectPage>, projectName: string, connectors: seq<ConnectorInfo>, id: Id)

  /** new ProjectState(projectName?, pages?, connectors?) */
  function NewProjectState(
    id: Id, projectName: Option<string>, pages: Option<seq<ProjectPage>>,
    connectors: Option<seq<ConnectorInfo>>): (s: ProjectState)
    ensures s.id == id
    ensures projectName.Some? ==> s.projectName == projectName.value
    ensures projectName.None? ==> s.projectName == ""
    ensures pages.Some? ==> s.pages == pages.value
    ensures pages.None? ==> s.pages == []
    ensures connectors.Some? ==> s.connectors == connectors.value
    ensures connectors.None? ==> s.connectors == []
  {
    ProjectState(Given(pages, []), OrElse(projectName, ""), Given(connectors, []), id)
  }

  /** The uuids DEFAULT_PROJECT draws, in the order its constructors run. */
  datatype ExampleIds = ExampleIds(
    literal: Id, sqlArgument: Id, sqlPanel: Id, sqlConnector: Id, graph: Id, page: Id, project: Id)

  /**
   * DEFAULT_PROJECT: one page of three panels, a CSV literal, an SQL panel
   * that transforms it, and a bar graph of the SQL panel's result. The
   * 'In Memory' connector handed to the SQL panel is discarded by its
   * constructor, so the panel holds an untitled default connector.
   */
  function DefaultProject(ids: ExampleIds): (s: ProjectState)
    ensures s.projectName == "Example project" && s.id == ids.project && s.connectors == []
    ensures |s.pages| == 1
    ensures s.pages[0].name == "CSV Discovery Example" && s.pages[0].id == ids.page && |s.pages[0].panels| == 3
    ensures s.pages[0].panels[0] ==
      Panel("name,age\nMorgan,12\nJames,17", "Raw CSV Text", ids.literal, LiteralPayload(Csv))
    ensures s.pages[0].panels[1] ==
      Panel("SELECT name, age+5 AS age FROM DM_getPanel(0);", "Transform with SQL", ids.sqlPanel,
            SqlPayload(SqlConnectorInfo("Untitled Connector", ids.sqlConnector, SqlSettings(InMemory, "", "", "", ""))))
    ensures s.pages[0].panels[2] ==
      Panel("", "Display", ids.graph, GraphPayload(1, GraphY("age", "Age"), "name", Bar))
  {
    var literal := NewLiteralPanel(ids.literal, Some("Raw CSV Text"), Some(Csv), Some("name,age\nMorgan,12\nJames,17"));
    var sqlArgument := NewSqlConnector(ids.sqlArgument, Some("In Memory"), Some(InMemory), None, None, None, None);
    var sql := NewSqlPanel(ids.sqlPanel, ids.sqlConnector, Some("Transform with SQL"), Some(sqlArgument),
                           Some("SELECT name, age+5 AS age FROM DM_getPanel(0);"));
    var graph0 := NewGraphPanel(ids.graph, Some("Display"), None, None, None, None, None);
    var graph := graph0.(payload := graph0.payload.(y := GraphY("age", "Age"), x := "name", panelSource := 1));
    var page := NewPage(ids.page, Some("CSV Discovery Example"), Some([literal, sql, graph]));
    NewProjectState(ids.project, Some("Example project"), Some([page]), None)
  }

  // ------------------------------------------------------------- JSON form

  function SqlConnectorToJson(c: SqlConnectorInfo): Json
  {
    JObject(map[
      "name" := JString(c.name), "type" := JString("sql"), "id" := JString(c.id),
      "sql" := JObject(map[
        "type" := JString(SqlKindName(c.sql.kind)), "database" := JString(c.sql.database),
        "username" := JString(c.sql.username), "password" := JString(c.sql.password),
        "address" := JString(c.sql.address)])])
  }

  function HeaderToJson(h: Header): Json
  {
    JObject(map["value" := JString(h.value), "name" := JString(h.name)])
  }

  function HttpConnectorToJson(c: HttpConnectorInfo): Json
  {
    JObject(map[
      "name" := JString(c.name), "type" := JString("http"), "id" := JString(c.id),
      "http" := JObject(map[
        "headers" := JArray(seq(|c.http.headers|, i requires 0 <= i < |c.http.headers| => HeaderToJson(c.http.headers[i]))),
        "url" := JString(c.http.url), "method" := JString(HttpMethodName(c.http.httpMethod))])])
  }

  /**
   * A connector as persisted: its tag under "type" and its one payload under
   * the key that is the tag itself.
   */
  function ConnectorToJson(c: ConnectorInfo): (j: Json)
    ensures Field(j, "type") == Some(JString(ConnectorTypeName(c.Type())))
    ensures forall t :: ConnectorTypeName(t) in j.fields <==> t == c.Type()
  {
    match c
    case SqlConnector(s) => SqlConnectorToJson(s)
    case HttpConnector(h) => HttpConnectorToJson(h)
  }

  function TableColumnToJson(c: TableColumn): Json
  {
    JObject(map["label" := JString(c.caption), "field" := JString(c.field)])
  }

  function PayloadToJson(p: PanelPayload): Json
  {
    match p
    case ProgramPayload(l) => JObject(map["type" := JString(ProgramLanguageName(l))])
    case GraphPayload(src, y, x, _) =>
      JObject(map[
        "panelSource" := JNumber(src),
        "y" := JObject(map["field" := JString(y.field), "label" := JString(y.caption)]),
        "x" := JString(x), "type" := JString("bar")])
    case SqlPayload(c) => SqlConnectorToJson(c)
    case HttpPayload(c) => HttpConnectorToJson(c)
    case TablePayload(cols, src) =>
      JObject(map[
        "columns" := JArray(seq(|cols|, i requires 0 <= i < |cols| => TableColumnToJson(cols[i]))),
        "panelSource" := JNumber(src)])
    case LiteralPayload(f) => JObject(map["type" := JString(DataFormatName(f))])
  }

  /**
   * A panel as persisted: the base fields, its tag under "type", and its one
   * payload under the key that is the tag itself; no other variant's payload
   * key is present.
   */
  function PanelToJson(p: Panel): (j: Json)
    ensures j.JObject?
    ensures Field(j, "type") == Some(JString(TypeName(p.Type())))
    ensures forall t :: TypeName(t) in j.fields <==> t == p.Type()
  {
    JObject(map[
      "content" := JString(p.content), "type" := JString(TypeName(p.Type())),
      "name" := JString(p.name), "id" := JString(p.id),
      TypeName(p.Type()) := PayloadToJson(p.payload)])
  }

  function PageToJson(pg: ProjectPage): Json
  {
    JObject(map[
      "panels" := JArray(seq(|pg.panels|, i requires 0 <= i < |pg.panels| => PanelToJson(pg.panels[i]))),
      "name" := JString(pg.name), "id" := JString(pg.id)])
  }

  function ProjectToJson(s: ProjectState): Json
  {
    JObject(map[
      "pages" := JArray(seq(|s.pages|, i requires 0 <= i < |s.pages| => PageToJson(s.pages[i]))),
      "projectName" := JString(s.projectName),
      "connectors" := JArray(seq(|s.connectors|, i requires 0 <= i < |s.connectors| => ConnectorToJson(s.connectors[i]))),
      "id" := JString(s.id)])
  }

  /**
   * A saved page is an object of exactly its panels, name and id, the panels
   * in order, each saved under its own tag.
   */
  lemma PageSaved(pg: ProjectPage)
    ensures var j := PageToJson(pg);
      && j.JObject? && j.fields.Keys == {"panels", "name", "id"}
      && j.fields["name"] == JString(pg.name) && j.fields["id"] == JString(pg.id)
      && j.fields["panels"].JArray? && |j.fields["panels"].items| == |pg.panels|
      && (forall i :: 0 <= i < |pg.panels| ==>
            Field(j.fields["panels"].items[i], "type") == Some(JString(TypeName(pg.panels[i].Type()))))
  {
  }

  /**
   * A saved project is an object of exactly its pages, name, connectors and
   * id, pages and connectors in order, each page under its own name and each
   * connector under its own tag.
   */
  lemma ProjectSaved(s: ProjectState)
    ensures var j := ProjectToJson(s);
      && j.JObject? && j.fields.Keys == {"pages", "projectName", "connectors", "id"}
      && j.fields["projectName"] == JString(s.projectName) && j.fields["id"] == JString(s.id)
      && j.fields["pages"].JArray? && |j.fields["pages"].items| == |s.pages|
      && (forall i :: 0 <= i < |s.pages| ==>
            Field(j.fields["pages"].items[i], "name") == Some(JString(s.pages[i].name)))
      && j.fields["connectors"].JArray? && |j.fields["connectors"].items| == |s.connectors|
      && (forall i :: 0 <= i < |s.connectors| ==>
            Field(j.fields["connectors"].items[i], "type") == Some(JString(ConnectorTypeName(s.connectors[i].Type()))))
  {
  }
}
