/** The PlantUML template engine: five generators that append fixed lines in a fixed order,
    gated by the project type and the feature list, and a dispatch on the diagram type.

    The generated text is kept as the list of its lines; `plantUmlCode` is that list joined by
    line breaks. Every chunk a generator appends ends with a line break except the closing
    `@enduml`, so the joined list is exactly the accumulated text. */
module DiagramService {
  import opened Options
  import opened Seqs
  import opened Text

  /** The fields of the loosely typed requirements object the generators read. A missing
      feature list and a present one are told apart, as every feature test checks for it. */
  datatype DiagramRequirements = DiagramRequirements(projectType: string, features: Option<seq<string>>)

  /** `DiagramOptions`: the diagram type, the title and the optional actor list. */
  datatype DiagramOptions = DiagramOptions(kind: string, title: string, actors: Option<seq<string>>)

  /** The SVG returned beside the code: fixed markup per diagram type in which only the title
      is interpolated. The markup itself is not reproduced. */
  datatype Svg = SvgTemplate(diagramType: string, title: string)

  datatype GeneratedDiagram = GeneratedDiagram(plantUmlCode: string, svgContent: Svg, diagramType: string)

  /** `requirements.features && requirements.features.includes(feature)`. */
  predicate Has(req: DiagramRequirements, feature: string)
  {
    req.features.Some? && feature in req.features.value
  }

  /** `title || fallback`: the empty string is falsy. */
  function TitleOr(title: string, fallback: string): string
  {
    if title == "" then fallback else title
  }

  /** The opening lines every generator writes, with its optional skin parameter. */
  function Header(skin: seq<string>, title: string): (h: seq<string>)
    ensures |h| == |skin| + 6 && h[0] == "@startuml" && h[|skin| + 4] == "title " + title
  {
    ["@startuml", "!theme plain", "skinparam BackgroundColor transparent"] + skin + ["", "title " + title, ""]
  }

  /** Every header line is empty or starts with one of '@', '!', 's' and 't' when the skin
      lines start with 's'. */
  lemma HeaderFirstChars(skin: seq<string>, title: string)
    requires forall j :: 0 <= j < |skin| ==> |skin[j]| > 0 && skin[j][0] == 's'
    ensures var h := Header(skin, title);
      forall i :: 0 <= i < |h| ==> |h[i]| == 0 || h[i][0] == '@' || h[i][0] == '!' || h[i][0] == 's' || h[i][0] == 't'
  {
    var h := Header(skin, title);
    forall i | 0 <= i < |h| ensures |h[i]| == 0 || h[i][0] == '@' || h[i][0] == '!' || h[i][0] == 's' || h[i][0] == 't' {
      if i < 3 {
      } else if i < 3 + |skin| {
        assert h[i] == skin[i - 3];
      } else if i == |skin| + 4 {
        assert h[i][0] == 't';
      }
    }
  }

  /** The text of a list of lines. */
  function Code(lines: seq<string>): string
  {
    Join(lines, "\n")
  }

  /** A line list opens with `@startuml` and closes with `@enduml`. */
  predicate Framed(lines: seq<string>)
  {
    |lines| > 0 && lines[0] == "@startuml" && lines[|lines| - 1] == "@enduml"
  }

  /** The text of a framed line list starts with "@startuml" and ends with "@enduml". */
  lemma FramedCode(lines: seq<string>)
    requires Framed(lines)
    ensures |Code(lines)| >= 9 && Code(lines)[..9] == "@startuml"
    ensures |Code(lines)| >= 7 && Code(lines)[|Code(lines)| - 7..] == "@enduml"
  {
    JoinEndsWith(lines, "\n");
  }

  predicate BeginsWith(line: string, prefix: string)
  {
    |prefix| <= |line| && line[..|prefix|] == prefix
  }

  /** The number of lines that begin with `prefix`. */
  function CountBeginning(lines: seq<string>, prefix: string): nat
    decreases |lines|
  {
    if |lines| == 0 then 0
    else (if BeginsWith(lines[0], prefix) then 1 else 0) + CountBeginning(lines[1..], prefix)
  }

  lemma {:induction false} CountBeginningConcat(a: seq<string>, b: seq<string>, prefix: string)
    ensures CountBeginning(a + b, prefix) == CountBeginning(a, prefix) + CountBeginning(b, prefix)
    decreases |a|
  {
    if |a| == 0 {
      assert a + b == b;
    } else {
      assert (a + b)[1..] == a[1..] + b;
      CountBeginningConcat(a[1..], b, prefix);
    }
  }

  /** Lines whose first character differs from the prefix's do not count. */
  lemma {:induction false} CountBeginningNone(lines: seq<string>, prefix: string)
    requires |prefix| > 0
    requires forall i :: 0 <= i < |lines| ==> |lines[i]| == 0 || lines[i][0] != prefix[0]
    ensures CountBeginning(lines, prefix) == 0
    decreases |lines|
  {
    if |lines| > 0 {
      if |prefix| <= |lines[0]| {
        assert lines[0][..|prefix|][0] == lines[0][0];
      }
      CountBeginningNone(lines[1..], prefix);
    }
  }

  /** When every line begins with the prefix, every line counts. */
  lemma {:induction false} CountBeginningAll(lines: seq<string>, prefix: string)
    requires forall i :: 0 <= i < |lines| ==> BeginsWith(lines[i], prefix)
    ensures CountBeginning(lines, prefix) == |lines|
    decreases |lines|
  {
    if |lines| > 0 {
      CountBeginningAll(lines[1..], prefix);
    }
  }

  /** `items.forEach(item => { plantUmlCode += line(item) + '\n'; })`: one line per item, in order. */
  method AppendEach<T>(lines: seq<string>, items: seq<T>, line: T -> string) returns (r: seq<string>)
    ensures r == lines + Map(items, line)
  {
    r := lines;
    var i := 0;
    while i < |items|
      invariant 0 <= i <= |items|
      invariant r == lines + Map(items[..i], line)
    {
      assert Map(items[..i + 1], line) == Map(items[..i], line) + [line(items[i])];
      r := r + [line(items[i])];
      i := i + 1;
    }
    assert items[..i] == items;
  }

  // ---------------------------------------------------------------------------------------
  // Flowchart

  /** The fixed part of the flowchart between the header and the feature steps. */
  const FlowchartBody: seq<string> := [
    "start",
    "if (User Authentication?) then (yes)",
    "  :Authenticate User;",
    "  if (Valid Credentials?) then (yes)",
    "    :Load User Profile;",
    "  else (no)",
    "    :Show Error Message;",
    "    stop",
    "  endif",
    "else (no)",
    "  :Continue as Guest;",
    "endif",
    "",
    ":Process Request;",
    ""
  ]

  const FlowchartTail: seq<string> := [":Return Response;", "stop", "", "@enduml"]

  /** The feature steps, in the fixed order database, external API, file upload. */
  function FlowchartSteps(req: DiagramRequirements): seq<string>
  {
    Gate(Has(req, "Database Storage"), [":Store Data in Database;"])
      + Gate(Has(req, "API Integration"), [":Call External API;", ":Process API Response;"])
      + Gate(Has(req, "File Upload"), [":Upload File;", ":Process File;"])
  }

  /** The flowchart template's lines: framed by `@startuml` and `@enduml`, with the title line in place. */
  function FlowchartLines(req: DiagramRequirements, opt: DiagramOptions): (lines: seq<string>)
    ensures Framed(lines)
    ensures |lines| > 5 && lines[5] == "title " + TitleOr(opt.title, "System Flow Diagram")
  {
    Header(["skinparam componentStyle rectangle"], TitleOr(opt.title, "System Flow Diagram"))
      + FlowchartBody + FlowchartSteps(req) + FlowchartTail
  }

  /** `generateFlowchartDiagram`. */
  method GenerateFlowchartDiagram(req: DiagramRequirements, opt: DiagramOptions) returns (d: GeneratedDiagram)
    ensures d == GeneratedDiagram(Code(FlowchartLines(req, opt)),
      SvgTemplate("flowchart", TitleOr(opt.title, "System Flow Diagram")), "flowchart")
  {
    var title := TitleOr(opt.title, "System Flow Diagram");
    var lines := Header(["skinparam componentStyle rectangle"], title) + FlowchartBody;
    var start := lines;
    if Has(req, "Database Storage") {
      lines := lines + [":Store Data in Database;"];
    }
    if Has(req, "API Integration") {
      lines := lines + [":Call External API;", ":Process API Response;"];
    }
    if Has(req, "File Upload") {
      lines := lines + [":Upload File;", ":Process File;"];
    }
    assert lines == start + FlowchartSteps(req);
    lines := lines + FlowchartTail;
    d := GeneratedDiagram(Code(lines), SvgTemplate("flowchart", title), "flowchart");
  }

  /** The feature steps sit between ":Process Request;" and ":Return Response;". */
  lemma FlowchartStepsInPlace(req: DiagramRequirements, opt: DiagramOptions)
    ensures var lines := FlowchartLines(req, opt);
      |lines| == 26 + |FlowchartSteps(req)|
      && lines[20] == ":Process Request;" && lines[21] == ""
      && lines[22..|lines| - 4] == FlowchartSteps(req)
      && lines[|lines| - 4] == ":Return Response;"
  {
    var h := Header(["skinparam componentStyle rectangle"], TitleOr(opt.title, "System Flow Diagram"));
    var lines := FlowchartLines(req, opt);
    assert lines[20] == FlowchartBody[13];
    assert lines[21] == FlowchartBody[14];
    assert lines[22..|lines| - 4] == FlowchartSteps(req);
  }

  /** For example, "File Upload" listed before "Database Storage" still gives the database step first. */
  lemma FlowchartStepsExample()
    ensures FlowchartSteps(DiagramRequirements("webapp", Some(["File Upload", "Database Storage"])))
      == [":Store Data in Database;", ":Upload File;", ":Process File;"]
  {
    var req := DiagramRequirements("webapp", Some(["File Upload", "Database Storage"]));
    assert req.features.value[1] == "Database Storage";
    assert Has(req, "Database Storage") && Has(req, "File Upload");
    assert !Has(req, "API Integration");
  }

  /** Two feature lists that name the same features give the same steps, whatever their order
      and repetitions. */
  lemma FlowchartStepsIgnoreOrder(t: string, a: seq<string>, b: seq<string>)
    requires forall f :: f in a <==> f in b
    ensures FlowchartSteps(DiagramRequirements(t, Some(a))) == FlowchartSteps(DiagramRequirements(t, Some(b)))
  {
  }

  // ---------------------------------------------------------------------------------------
  // Use case diagram

  const DefaultActors: seq<string> := ["User", "Admin", "System"]

  /** `options.actors || ['User', 'Admin', 'System']`: an empty list is kept as it is. */
  function Actors(opt: DiagramOptions): seq<string>
  {
    if opt.actors.Some? then opt.actors.value else DefaultActors
  }

  const AuthUseCases: seq<string> := ["Login", "Register", "Reset Password"]
  const DatabaseUseCases: seq<string> := ["Store Data", "Retrieve Data", "Update Data"]
  const FileUseCases: seq<string> := ["Upload File", "Download File"]
  const ApiUseCases: seq<string> := ["Connect to External API"]
  const SearchUseCases: seq<string> := ["Search Content"]

  /** The use cases the features contribute, in the fixed group order. */
  function FeatureUseCases(req: DiagramRequirements): seq<string>
  {
    Gate(Has(req, "Authentication"), AuthUseCases)
      + Gate(Has(req, "Database Storage"), DatabaseUseCases)
      + Gate(Has(req, "File Upload"), FileUseCases)
      + Gate(Has(req, "API Integration"), ApiUseCases)
      + Gate(Has(req, "Search Functionality"), SearchUseCases)
  }

  const FallbackUseCases: seq<string> := ["Use System", "View Dashboard", "Manage Settings"]

  /** The use cases drawn: the feature ones, or the three generic ones when there are none.
      Groups hold 3, 3, 2, 1 and 1 use cases, so the list is never empty. */
  function UseCases(req: DiagramRequirements): (ucs: seq<string>)
    ensures |ucs| > 0
    ensures |FeatureUseCases(req)| == 0 ==> ucs == FallbackUseCases
    ensures |FeatureUseCases(req)| > 0 ==>
      |ucs| == (if Has(req, "Authentication") then 3 else 0) + (if Has(req, "Database Storage") then 3 else 0)
        + (if Has(req, "File Upload") then 2 else 0) + (if Has(req, "API Integration") then 1 else 0)
        + (if Has(req, "Search Functionality") then 1 else 0)
  {
    var ucs := FeatureUseCases(req);
    if |ucs| == 0 then FallbackUseCases else ucs
  }

  /** `name.replace(/\s/g, '')`: the PlantUML alias of an actor or a use case. */
  function Alias(name: string): string
  {
    StripWhitespace(name)
  }

  function ActorLine(actor: string): string
  {
    "actor \"" + actor + "\" as " + Alias(actor)
  }

  function UseCaseLine(useCase: string): string
  {
    "usecase \"" + useCase + "\" as " + Alias(useCase)
  }

  function UserEdge(useCase: string): string
  {
    "User --> " + Alias(useCase)
  }

  function AdminEdge(useCase: string): string
  {
    "Admin --> " + Alias(useCase)
  }

  /** The admin's edges: to the first use case, and to the third when there are more than two. */
  function AdminEdges(ucs: seq<string>): seq<string>
    requires |ucs| > 0
  {
    [AdminEdge(ucs[0])] + ThirdAdminEdge(ucs)
  }

  /** Everything between the header and `@enduml`: the actors, the use cases, then the
      user's and the admin's edges when those actors are drawn. */
  function ThirdAdminEdge(ucs: seq<string>): seq<string>
  {
    if |ucs| > 2 then [AdminEdge(ucs[2])] else []
  }

  /** The user's edges to every use case, then the admin's, each when that actor is drawn. */
  function UseCaseEdges(actors: seq<string>, ucs: seq<string>): seq<string>
    requires |ucs| > 0
  {
    Gate("User" in actors, Map(ucs, UserEdge)) + Gate("Admin" in actors, AdminEdges(ucs))
  }

  function UseCaseBody(actors: seq<string>, ucs: seq<string>): seq<string>
    requires |ucs| > 0
  {
    Map(actors, ActorLine) + [""]
      + Map(ucs, UseCaseLine) + [""]
      + UseCaseEdges(actors, ucs)
  }

  /** The use-case template's lines: framed by `@startuml` and `@enduml`, with the title line in place. */
  function UseCaseLines(req: DiagramRequirements, opt: DiagramOptions): (lines: seq<string>)
    ensures Framed(lines)
    ensures |lines| > 5 && lines[5] == "title " + TitleOr(opt.title, "Use Case Diagram")
  {
    Header(["skinparam actorStyle awesome"], TitleOr(opt.title, "Use Case Diagram"))
      + UseCaseBody(Actors(opt), UseCases(req))
      + ["@enduml"]
  }

  /** The use-case list of `generateUseCaseDiagram`; each group of consecutive pushes is one
      append. */
  method CollectUseCases(req: DiagramRequirements) returns (useCases: seq<string>)
    ensures useCases == UseCases(req)
  {
    useCases := [];
    if req.features.Some? {
      var features := req.features.value;
      if "Authentication" in features {
        useCases := useCases + AuthUseCases;
      }
      assert useCases == Gate(Has(req, "Authentication"), AuthUseCases);
      var sofar := useCases;
      if "Database Storage" in features {
        useCases := useCases + DatabaseUseCases;
      }
      assert useCases == sofar + Gate(Has(req, "Database Storage"), DatabaseUseCases);
      sofar := useCases;
      if "File Upload" in features {
        useCases := useCases + FileUseCases;
      }
      assert useCases == sofar + Gate(Has(req, "File Upload"), FileUseCases);
      sofar := useCases;
      if "API Integration" in features {
        useCases := useCases + ApiUseCases;
      }
      assert useCases == sofar + Gate(Has(req, "API Integration"), ApiUseCases);
      sofar := useCases;
      if "Search Functionality" in features {
        useCases := useCases + SearchUseCases;
      }
      assert useCases == sofar + Gate(Has(req, "Search Functionality"), SearchUseCases);
    }
    assert useCases == FeatureUseCases(req);
    if |useCases| == 0 {
      useCases := FallbackUseCases;
    }
  }

  /** The part of `generateUseCaseDiagram` that writes the actors, the use cases and the edges. */
  method AppendUseCaseBody(lines: seq<string>, actors: seq<string>, useCases: seq<string>) returns (r: seq<string>)
    requires |useCases| > 0
    ensures r == lines + UseCaseBody(actors, useCases)
  {
    var actorLines := AppendEach(lines, actors, ActorLine);
    var useCaseLines := AppendEach(actorLines + [""], useCases, UseCaseLine);
    r := AppendUseCaseEdges(useCaseLines + [""], actors, useCases);
    var m1, m2 := Map(actors, ActorLine), Map(useCases, UseCaseLine);
    AppendAssoc(lines, m1, [""]);
    AppendAssoc(lines, m1 + [""], m2);
    AppendAssoc(lines, m1 + [""] + m2, [""]);
    AppendAssoc(lines, m1 + [""] + m2 + [""], UseCaseEdges(actors, useCases));
  }

  /** The edges of `generateUseCaseDiagram`. */
  method AppendUseCaseEdges(lines: seq<string>, actors: seq<string>, useCases: seq<string>) returns (r: seq<string>)
    requires |useCases| > 0
    ensures r == lines + UseCaseEdges(actors, useCases)
  {
    r := lines;
    if "User" in actors {
      r := AppendEach(r, useCases, UserEdge);
    }
    assert r == lines + Gate("User" in actors, Map(useCases, UserEdge));
    var adminEdges := r;
    if "Admin" in actors {
      r := r + [AdminEdge(useCases[0])];
      var first := r;
      if |useCases| > 2 {
        r := r + [AdminEdge(useCases[2])];
      }
      assert r == first + ThirdAdminEdge(useCases);
      AppendAssoc(adminEdges, [AdminEdge(useCases[0])], ThirdAdminEdge(useCases));
    }
    AppendAssoc(lines, Gate("User" in actors, Map(useCases, UserEdge)), Gate("Admin" in actors, AdminEdges(useCases)));
  }

  /** `generateUseCaseDiagram`. */
  method GenerateUseCaseDiagram(req: DiagramRequirements, opt: DiagramOptions) returns (d: GeneratedDiagram)
    ensures d == GeneratedDiagram(Code(UseCaseLines(req, opt)),
      SvgTemplate("usecase", TitleOr(opt.title, "Use Case Diagram")), "usecase")
  {
    var actors := if opt.actors.Some? then opt.actors.value else DefaultActors;
    var useCases := CollectUseCases(req);
    var title := TitleOr(opt.title, "Use Case Diagram");
    var lines := Header(["skinparam actorStyle awesome"], title);
    lines := AppendUseCaseBody(lines, actors, useCases);
    lines := lines + ["@enduml"];
    d := GeneratedDiagram(Code(lines), SvgTemplate("usecase", title), "usecase");
  }

  // ---------------------------------------------------------------------------------------
  // Component diagram

  const BaseComponents: seq<string> := ["Frontend", "Backend"]
  const WebappComponents: seq<string> := ["Web Server", "Browser Client"]
  const MobileComponents: seq<string> := ["Mobile Client", "API Gateway"]
  const MlComponents: seq<string> := ["Data Pipeline", "Training Service", "Inference Service"]

  /** The components the project type adds. */
  function TypeComponents(projectType: string): seq<string>
  {
    if projectType == "webapp" then WebappComponents
    else if projectType == "mobile" then MobileComponents
    else if projectType == "ml" then MlComponents
    else []
  }

  /** The components drawn: Frontend and Backend first, then the type's, then the features'. */
  function Components(req: DiagramRequirements): seq<string>
  {
    BaseComponents + TypeComponents(req.projectType)
      + Gate(Has(req, "Authentication"), ["Auth Service"])
      + Gate(Has(req, "Database Storage"), ["Database"])
      + Gate(Has(req, "File Upload"), ["Storage Service"])
  }

  function ComponentLine(component: string): string
  {
    "[" + component + "]"
  }

  function BrowserRoute(components: seq<string>): seq<string>
  {
    Gate("Browser Client" in components, ["[Browser Client] --> [Frontend]"])
  }

  /** The client route: through the API gateway for a mobile client, else Frontend to Backend. */
  function ClientRoute(components: seq<string>): seq<string>
  {
    if "Mobile Client" in components
    then ["[Mobile Client] --> [API Gateway]", "[API Gateway] --> [Backend]"]
    else ["[Frontend] --> [Backend]"]
  }

  function AuthRoute(components: seq<string>): seq<string>
  {
    Gate("Auth Service" in components, ["[Backend] --> [Auth Service]"])
  }

  function DatabaseRoute(components: seq<string>): seq<string>
  {
    Gate("Database" in components, ["[Backend] --> [Database]"])
  }

  function StorageRoute(components: seq<string>): seq<string>
  {
    Gate("Storage Service" in components, ["[Backend] --> [Storage Service]"])
  }

  const PipelineArrows: seq<string> := [
    "[Backend] --> [Data Pipeline]",
    "[Data Pipeline] --> [Training Service]",
    "[Training Service] --> [Inference Service]"
  ]

  function PipelineRoute(components: seq<string>): seq<string>
  {
    Gate("Data Pipeline" in components, PipelineArrows)
  }

  /** The arrows, each gated on a component being drawn. */
  function ComponentRelations(components: seq<string>): seq<string>
  {
    BrowserRoute(components) + ClientRoute(components) + AuthRoute(components)
      + DatabaseRoute(components) + StorageRoute(components) + PipelineRoute(components)
  }

  /** The component template's lines: framed by `@startuml` and `@enduml`, with the title line in place. */
  function ComponentLines(req: DiagramRequirements, opt: DiagramOptions): (lines: seq<string>)
    ensures Framed(lines)
    ensures |lines| > 5 && lines[5] == "title " + TitleOr(opt.title, "Component Diagram")
  {
    var components := Components(req);
    Header(["skinparam componentStyle rectangle"], TitleOr(opt.title, "Component Diagram"))
      + Map(components, ComponentLine) + [""]
      + ComponentRelations(components)
      + ["@enduml"]
  }

  /** The component list of `generateComponentDiagram`; each group of consecutive pushes is
      one append. */
  method CollectComponents(req: DiagramRequirements) returns (components: seq<string>)
    ensures components == Components(req)
  {
    components := BaseComponents;
    if req.projectType == "webapp" {
      components := components + WebappComponents;
    } else if req.projectType == "mobile" {
      components := components + MobileComponents;
    } else if req.projectType == "ml" {
      components := components + MlComponents;
    }
    assert components == BaseComponents + TypeComponents(req.projectType);
    var sofar := components;
    if req.features.Some? {
      var features := req.features.value;
      if "Authentication" in features {
        components := components + ["Auth Service"];
      }
      if "Database Storage" in features {
        components := components + ["Database"];
      }
      if "File Upload" in features {
        components := components + ["Storage Service"];
      }
    }
    assert components == sofar + Gate(Has(req, "Authentication"), ["Auth Service"])
      + Gate(Has(req, "Database Storage"), ["Database"]) + Gate(Has(req, "File Upload"), ["Storage Service"]);
  }

  /** The arrows of `generateComponentDiagram`, each pushed when its component is drawn. */
  method AppendComponentRelations(lines: seq<string>, components: seq<string>) returns (r: seq<string>)
    ensures r == lines + ComponentRelations(components)
  {
    r := lines;
    if "Browser Client" in components {
      r := r + ["[Browser Client] --> [Frontend]"];
    }
    var client := r;
    if "Mobile Client" in components {
      r := r + ["[Mobile Client] --> [API Gateway]", "[API Gateway] --> [Backend]"];
    } else {
      r := r + ["[Frontend] --> [Backend]"];
    }
    var auth := r;
    if "Auth Service" in components {
      r := r + ["[Backend] --> [Auth Service]"];
    }
    var database := r;
    if "Database" in components {
      r := r + ["[Backend] --> [Database]"];
    }
    var storage := r;
    if "Storage Service" in components {
      r := r + ["[Backend] --> [Storage Service]"];
    }
    var pipeline := r;
    if "Data Pipeline" in components {
      r := r + PipelineArrows;
    }
    assert client == lines + BrowserRoute(components);
    assert auth == client + ClientRoute(components);
    assert database == auth + AuthRoute(components);
    assert storage == database + DatabaseRoute(components);
    assert pipeline == storage + StorageRoute(components);
    assert r == pipeline + PipelineRoute(components);
    var b, c, a, d, s := BrowserRoute(components), ClientRoute(components), AuthRoute(components),
      DatabaseRoute(components), StorageRoute(components);
    AppendAssoc(lines, b, c);
    AppendAssoc(lines, b + c, a);
    AppendAssoc(lines, b + c + a, d);
    AppendAssoc(lines, b + c + a + d, s);
    AppendAssoc(lines, b + c + a + d + s, PipelineRoute(components));
  }

  /** `generateComponentDiagram`. */
  method GenerateComponentDiagram(req: DiagramRequirements, opt: DiagramOptions) returns (d: GeneratedDiagram)
    ensures d == GeneratedDiagram(Code(ComponentLines(req, opt)),
      SvgTemplate("component", TitleOr(opt.title, "Component Diagram")), "component")
  {
    var components := CollectComponents(req);
    var title := TitleOr(opt.title, "Component Diagram");
    var lines := Header(["skinparam componentStyle rectangle"], title);
    lines := AppendEach(lines, components, ComponentLine);
    lines := lines + [""];
    lines := AppendComponentRelations(lines, components);
    lines := lines + ["@enduml"];
    d := GeneratedDiagram(Code(lines), SvgTemplate("component", title), "component");
  }

  // ---------------------------------------------------------------------------------------
  // Sequence diagram

  const SequenceCast: seq<string> := ["actor User", "participant \"Frontend\" as FE", "participant \"Backend\" as BE"]

  const AuthParticipant := "participant \"Auth Service\" as AUTH"
  const DatabaseParticipant := "database \"Database\" as DB"
  const ApiParticipant := "participant \"External API\" as API"

  const AuthExchange: seq<string> := ["BE -> AUTH: Validate Token", "AUTH --> BE: Token Valid"]
  const DatabaseExchange: seq<string> := ["BE -> DB: Query Data", "DB --> BE: Return Data"]
  const ApiExchange: seq<string> := ["BE -> API: External Request", "API --> BE: Response"]

  function SequenceParticipants(req: DiagramRequirements): seq<string>
  {
    Gate(Has(req, "Authentication"), [AuthParticipant])
      + Gate(Has(req, "Database Storage"), [DatabaseParticipant])
      + Gate(Has(req, "API Integration"), [ApiParticipant])
  }

  function SequenceExchanges(req: DiagramRequirements): seq<string>
  {
    Gate(Has(req, "Authentication"), AuthExchange)
      + Gate(Has(req, "Database Storage"), DatabaseExchange)
      + Gate(Has(req, "API Integration"), ApiExchange)
  }

  /** The sequence template's lines: framed by `@startuml` and `@enduml`, with the title line in place. */
  function SequenceLines(req: DiagramRequirements, opt: DiagramOptions): (lines: seq<string>)
    ensures Framed(lines)
    ensures |lines| > 4 && lines[4] == "title " + TitleOr(opt.title, "Sequence Diagram")
  {
    Header([], TitleOr(opt.title, "Sequence Diagram"))
      + SequenceCast + SequenceParticipants(req) + [""]
      + ["User -> FE: Request", "FE -> BE: API Call"]
      + SequenceExchanges(req)
      + ["BE --> FE: Response", "FE --> User: Display Result"]
      + ["@enduml"]
  }

  /** `generateSequenceDiagram`. */
  method GenerateSequenceDiagram(req: DiagramRequirements, opt: DiagramOptions) returns (d: GeneratedDiagram)
    ensures d == GeneratedDiagram(Code(SequenceLines(req, opt)),
      SvgTemplate("sequence", TitleOr(opt.title, "Sequence Diagram")), "sequence")
  {
    var title := TitleOr(opt.title, "Sequence Diagram");
    var lines := Header([], title) + SequenceCast;
    var before := lines;
    if req.features.Some? {
      if "Authentication" in req.features.value {
        lines := lines + [AuthParticipant];
      }
      if "Database Storage" in req.features.value {
        lines := lines + [DatabaseParticipant];
      }
      if "API Integration" in req.features.value {
        lines := lines + [ApiParticipant];
      }
    }
    assert lines == before + SequenceParticipants(req);
    lines := lines + [""];
    lines := lines + ["User -> FE: Request", "FE -> BE: API Call"];
    before := lines;
    if req.features.Some? {
      if "Authentication" in req.features.value {
        lines := lines + AuthExchange;
      }
      if "Database Storage" in req.features.value {
        lines := lines + DatabaseExchange;
      }
      if "API Integration" in req.features.value {
        lines := lines + ApiExchange;
      }
    }
    assert lines == before + SequenceExchanges(req);
    lines := lines + ["BE --> FE: Response", "FE --> User: Display Result"];
    lines := lines + ["@enduml"];
    d := GeneratedDiagram(Code(lines), SvgTemplate("sequence", title), "sequence");
  }

  // ---------------------------------------------------------------------------------------
  // Class diagram

  const BaseClasses: seq<string> := [
    "class User {",
    "  +id: String",
    "  +name: String",
    "  +email: String",
    "  +login(): Boolean",
    "  +logout(): void",
    "}",
    "",
    "class Application {",
    "  +version: String",
    "  +initialize(): void",
    "  +shutdown(): void",
    "}",
    ""
  ]

  const ApiClientClass: seq<string> := [
    "class ApiClient {",
    "  +baseUrl: String",
    "  +get(path: String): Response",
    "  +post(path: String, data: Object): Response",
    "}",
    ""
  ]

  const WebPageClass: seq<string> := [
    "class WebPage {",
    "  +url: String",
    "  +title: String",
    "  +render(): void",
    "}",
    ""
  ]

  const WebappAssociations: seq<string> := [
    "User \"1\" -- \"*\" WebPage: views",
    "Application \"1\" -- \"1..*\" WebPage: contains",
    "Application \"1\" -- \"1\" ApiClient: uses"
  ]

  const WebappClasses: seq<string> := WebPageClass + ApiClientClass + WebappAssociations

  const ScreenClass: seq<string> := [
    "class Screen {",
    "  +name: String",
    "  +render(): void",
    "  +navigate(to: Screen): void",
    "}",
    ""
  ]

  const MobileAssociations: seq<string> := [
    "User \"1\" -- \"*\" Screen: interacts with",
    "Application \"1\" -- \"1..*\" Screen: contains",
    "Application \"1\" -- \"1\" ApiClient: uses"
  ]

  const MobileClasses: seq<string> := ScreenClass + ApiClientClass + MobileAssociations

  const ModelClass: seq<string> := [
    "class Model {",
    "  +name: String",
    "  +version: String",
    "  +train(data: Dataset): void",
    "  +predict(input: Input): Prediction",
    "}",
    ""
  ]

  const DatasetClass: seq<string> := [
    "class Dataset {",
    "  +name: String",
    "  +features: List<Feature>",
    "  +labels: List<Label>",
    "  +load(): void",
    "  +split(): TrainTestSplit",
    "}",
    ""
  ]

  const PipelineClass: seq<string> := [
    "class Pipeline {",
    "  +steps: List<Step>",
    "  +execute(): Result",
    "}",
    ""
  ]

  const MlAssociations: seq<string> := [
    "User \"1\" -- \"*\" Model: uses",
    "Application \"1\" -- \"1..*\" Model: runs",
    "Model \"1\" -- \"1..*\" Dataset: trained on",
    "Application \"1\" -- \"1\" Pipeline: executes"
  ]

  const MlClasses: seq<string> := ModelClass + DatasetClass + PipelineClass + MlAssociations

  const AuthClasses: seq<string> := [
    "class AuthService {",
    "  +login(credentials: Credentials): Token",
    "  +register(user: User): Result",
    "  +validateToken(token: String): Boolean",
    "}",
    "",
    "User \"1\" -- \"1\" AuthService: authenticates through",
    "Application \"1\" -- \"1\" AuthService: uses"
  ]

  const DatabaseClasses: seq<string> := [
    "class Database {",
    "  +connection: Connection",
    "  +connect(): Boolean",
    "  +query(sql: String): Result",
    "  +close(): void",
    "}",
    "",
    "class Repository {",
    "  +find(id: String): Entity",
    "  +findAll(): List<Entity>",
    "  +save(entity: Entity): Entity",
    "  +delete(id: String): Boolean",
    "}",
    "",
    "Application \"1\" -- \"1\" Database: connects to",
    "Repository \"1\" -- \"1\" Database: uses"
  ]

  /** The classes the project type adds. */
  function TypeClasses(projectType: string): seq<string>
  {
    if projectType == "webapp" then WebappClasses
    else if projectType == "mobile" then MobileClasses
    else if projectType == "ml" then MlClasses
    else []
  }

  /** The class template's lines: framed by `@startuml` and `@enduml`, with the title line in place. */
  function ClassLines(req: DiagramRequirements, opt: DiagramOptions): (lines: seq<string>)
    ensures Framed(lines)
    ensures |lines| > 4 && lines[4] == "title " + TitleOr(opt.title, "Class Diagram")
  {
    Header([], TitleOr(opt.title, "Class Diagram"))
      + BaseClasses + TypeClasses(req.projectType)
      + Gate(Has(req, "Authentication"), AuthClasses)
      + Gate(Has(req, "Database Storage"), DatabaseClasses)
      + ["@enduml"]
  }

  /** `generateClassDiagram`. */
  method GenerateClassDiagram(req: DiagramRequirements, opt: DiagramOptions) returns (d: GeneratedDiagram)
    ensures d == GeneratedDiagram(Code(ClassLines(req, opt)),
      SvgTemplate("class", TitleOr(opt.title, "Class Diagram")), "class")
  {
    var title := TitleOr(opt.title, "Class Diagram");
    var lines := Header([], title);
    lines := lines + BaseClasses;
    if req.projectType == "webapp" {
      lines := lines + WebappClasses;
    } else if req.projectType == "mobile" {
      lines := lines + MobileClasses;
    } else if req.projectType == "ml" {
      lines := lines + MlClasses;
    }
    assert lines == Header([], title) + BaseClasses + TypeClasses(req.projectType);
    var before := lines;
    if req.features.Some? {
      if "Authentication" in req.features.value {
        lines := lines + AuthClasses;
      }
      if "Database Storage" in req.features.value {
        lines := lines + DatabaseClasses;
      }
    }
    assert lines == before + Gate(Has(req, "Authentication"), AuthClasses)
      + Gate(Has(req, "Database Storage"), DatabaseClasses);
    lines := lines + ["@enduml"];
    d := GeneratedDiagram(Code(lines), SvgTemplate("class", title), "class");
  }

  // ---------------------------------------------------------------------------------------
  // Dispatch

  /** The five diagram types the service knows. */
  datatype DiagramType = Flowchart | UseCase | Component | Sequence | Class

  const DiagramTypes: seq<string> := ["flowchart", "usecase", "component", "sequence", "class"]

  /** The name a type is requested by and reported as. */
  function TypeName(t: DiagramType): string
  {
    match t
    case Flowchart => "flowchart"
    case UseCase => "usecase"
    case Component => "component"
    case Sequence => "sequence"
    case Class => "class"
  }

  /** The switch's reading of a requested type: a known name selects its type, any other
      string the flowchart. */
  function ParseType(kind: string): (t: DiagramType)
    ensures kind in DiagramTypes ==> TypeName(t) == kind
    ensures kind !in DiagramTypes ==> t == Flowchart
  {
    match kind
    case "usecase" => UseCase
    case "component" => Component
    case "sequence" => Sequence
    case "class" => Class
    case _ => Flowchart
  }

  /** Names and types correspond one to one. */
  lemma ParseTypeName(t: DiagramType)
    ensures ParseType(TypeName(t)) == t
    ensures TypeName(t) in DiagramTypes
  {
    assert TypeName(t) == DiagramTypes[if t.Flowchart? then 0 else if t.UseCase? then 1
      else if t.Component? then 2 else if t.Sequence? then 3 else 4];
  }

  /** The title used when the options give an empty one. */
  function DefaultTitle(t: DiagramType): string
  {
    match t
    case Flowchart => "System Flow Diagram"
    case UseCase => "Use Case Diagram"
    case Component => "Component Diagram"
    case Sequence => "Sequence Diagram"
    case Class => "Class Diagram"
  }

  /** The lines the generator of type `t` emits. */
  function LinesOf(t: DiagramType, req: DiagramRequirements, opt: DiagramOptions): seq<string>
  {
    match t
    case Flowchart => FlowchartLines(req, opt)
    case UseCase => UseCaseLines(req, opt)
    case Component => ComponentLines(req, opt)
    case Sequence => SequenceLines(req, opt)
    case Class => ClassLines(req, opt)
  }

  function DiagramLines(req: DiagramRequirements, opt: DiagramOptions): seq<string>
  {
    LinesOf(ParseType(opt.kind), req, opt)
  }

  /** What `generateDiagramFromRequirements` resolves to. */
  function Diagram(req: DiagramRequirements, opt: DiagramOptions): (d: GeneratedDiagram)
    ensures opt.kind in DiagramTypes ==> d.diagramType == opt.kind
    ensures opt.kind !in DiagramTypes ==> d.diagramType == "flowchart"
    ensures d.svgContent.diagramType == d.diagramType
  {
    var t := ParseType(opt.kind);
    GeneratedDiagram(Code(LinesOf(t, req, opt)), SvgTemplate(TypeName(t), TitleOr(opt.title, DefaultTitle(t))),
      TypeName(t))
  }

  /** `generateDiagramFromRequirements`: the switch on the requested type, with the flowchart as
      the default branch. */
  method GenerateDiagramFromRequirements(req: DiagramRequirements, opt: DiagramOptions) returns (d: GeneratedDiagram)
    ensures d == Diagram(req, opt)
  {
    match opt.kind {
      case "flowchart" =>
        d := GenerateFlowchartDiagram(req, opt);
        assert ParseType(opt.kind) == Flowchart;
      case "usecase" =>
        d := GenerateUseCaseDiagram(req, opt);
        assert ParseType(opt.kind) == UseCase;
      case "component" =>
        d := GenerateComponentDiagram(req, opt);
        assert ParseType(opt.kind) == Component;
      case "sequence" =>
        d := GenerateSequenceDiagram(req, opt);
        assert ParseType(opt.kind) == Sequence;
      case "class" =>
        d := GenerateClassDiagram(req, opt);
        assert ParseType(opt.kind) == Class;
      case _ =>
        d := GenerateFlowchartDiagram(req, opt);
        assert ParseType(opt.kind) == Flowchart;
    }
  }

  /** A line list whose text starts with "@startuml" and ends with "@enduml", and which holds
      the title line for `title`. */
  ghost predicate CompleteLines(lines: seq<string>, title: string)
  {
    var code := Code(lines);
    |code| >= 9 && code[..9] == "@startuml" && code[|code| - 7..] == "@enduml"
    && "title " + title in lines
  }

  /** What every generated diagram satisfies: its code starts with "@startuml" and ends with
      "@enduml", and its lines carry the title line, holding the given title or the type's
      default when the given one is empty. */
  ghost predicate CompleteDocument(req: DiagramRequirements, opt: DiagramOptions)
  {
    Diagram(req, opt).plantUmlCode == Code(DiagramLines(req, opt))
    && CompleteLines(DiagramLines(req, opt), TitleOr(opt.title, DefaultTitle(ParseType(opt.kind))))
  }

  lemma FlowchartIsComplete(req: DiagramRequirements, opt: DiagramOptions)
    ensures CompleteLines(LinesOf(Flowchart, req, opt), TitleOr(opt.title, DefaultTitle(Flowchart)))
  {
    FramedCode(FlowchartLines(req, opt));
  }

  lemma UseCaseIsComplete(req: DiagramRequirements, opt: DiagramOptions)
    ensures CompleteLines(LinesOf(UseCase, req, opt), TitleOr(opt.title, DefaultTitle(UseCase)))
  {
    FramedCode(UseCaseLines(req, opt));
  }

  lemma ComponentIsComplete(req: DiagramRequirements, opt: DiagramOptions)
    ensures CompleteLines(LinesOf(Component, req, opt), TitleOr(opt.title, DefaultTitle(Component)))
  {
    FramedCode(ComponentLines(req, opt));
  }

  lemma SequenceIsComplete(req: DiagramRequirements, opt: DiagramOptions)
    ensures CompleteLines(LinesOf(Sequence, req, opt), TitleOr(opt.title, DefaultTitle(Sequence)))
  {
    FramedCode(SequenceLines(req, opt));
  }

  lemma ClassIsComplete(req: DiagramRequirements, opt: DiagramOptions)
    ensures CompleteLines(LinesOf(Class, req, opt), TitleOr(opt.title, DefaultTitle(Class)))
  {
    FramedCode(ClassLines(req, opt));
  }

  /** Every diagram, whatever the requested type, is a complete PlantUML document. */
  lemma DiagramIsFramed(req: DiagramRequirements, opt: DiagramOptions)
    ensures CompleteDocument(req, opt)
  {
    match ParseType(opt.kind) {
      case Flowchart => FlowchartIsComplete(req, opt);
      case UseCase => UseCaseIsComplete(req, opt);
      case Component => ComponentIsComplete(req, opt);
      case Sequence => SequenceIsComplete(req, opt);
      case Class => ClassIsComplete(req, opt);
    }
  }

  /** The reported type is a known one, the requested one when that is known, and the same as
      the SVG's; unknown requests fall back to the flowchart. */
  lemma DiagramTypeFallsBack(req: DiagramRequirements, opt: DiagramOptions)
    ensures var d := Diagram(req, opt);
      d.diagramType in DiagramTypes && d.svgContent.diagramType == d.diagramType
      && (opt.kind in DiagramTypes ==> d.diagramType == opt.kind)
      && (opt.kind !in DiagramTypes ==> d == Diagram(req, opt.(kind := "flowchart")))
  {
    ParseTypeName(ParseType(opt.kind));
  }

  /** The SVG depends on the type and the title only, never on the requirements. */
  lemma SvgIgnoresRequirements(req1: DiagramRequirements, req2: DiagramRequirements, opt: DiagramOptions)
    ensures Diagram(req1, opt).svgContent == Diagram(req2, opt).svgContent
    ensures Diagram(req1, opt).svgContent.title == TitleOr(opt.title, DefaultTitle(ParseType(opt.kind)))
  {
  }

  /** The declaration lines of the use case diagram start with 'a' or 'u', or are empty. */
  lemma DeclarationFirstChars(actors: seq<string>, ucs: seq<string>)
    ensures var decls := Map(actors, ActorLine) + [""] + Map(ucs, UseCaseLine) + [""];
      forall i :: 0 <= i < |decls| ==> |decls[i]| == 0 || decls[i][0] == 'a' || decls[i][0] == 'u'
  {
    var m1, m2 := Map(actors, ActorLine), Map(ucs, UseCaseLine);
    var decls := m1 + [""] + m2 + [""];
    forall i | 0 <= i < |decls| ensures |decls[i]| == 0 || decls[i][0] == 'a' || decls[i][0] == 'u' {
      if i < |m1| {
        assert decls[i] == "actor \"" + actors[i] + "\" as " + Alias(actors[i]);
      } else if |m1| < i < |m1| + 1 + |m2| {
        var k := i - |m1| - 1;
        assert decls[i] == "usecase \"" + ucs[k] + "\" as " + Alias(ucs[k]);
      }
    }
  }

  /** No header line, and not the closing line, begins with a user edge, an admin edge or a
      bracketed component. */
  lemma FramedCount(skin: string, title: string, body: seq<string>, prefix: string)
    requires |skin| > 0 && skin[0] == 's'
    requires |prefix| > 0 && (prefix[0] == 'U' || prefix[0] == 'A' || prefix[0] == '[')
    ensures CountBeginning(Header([skin], title) + body + ["@enduml"], prefix) == CountBeginning(body, prefix)
  {
    var h := Header([skin], title);
    CountBeginningConcat(h + body, ["@enduml"], prefix);
    CountBeginningConcat(h, body, prefix);
    HeaderFirstChars([skin], title);
    CountBeginningNone(h, prefix);
    CountBeginningNone(["@enduml"], prefix);
  }

  /** The edges are the only lines of the use case body that can begin with a user's or an
      admin's edge prefix. */
  lemma UseCaseBodyCount(actors: seq<string>, ucs: seq<string>, prefix: string)
    requires |ucs| > 0
    requires |prefix| > 0 && (prefix[0] == 'U' || prefix[0] == 'A')
    ensures CountBeginning(UseCaseBody(actors, ucs), prefix) == CountBeginning(UseCaseEdges(actors, ucs), prefix)
  {
    var decls := Map(actors, ActorLine) + [""] + Map(ucs, UseCaseLine) + [""];
    CountBeginningConcat(decls, UseCaseEdges(actors, ucs), prefix);
    DeclarationFirstChars(actors, ucs);
    CountBeginningNone(decls, prefix);
  }

  /** Among the edges, the user's are the lines beginning "User --> " and the admin's those
      beginning "Admin --> ". */
  lemma EdgeCounts(actors: seq<string>, ucs: seq<string>)
    requires |ucs| > 0
    ensures CountBeginning(UseCaseEdges(actors, ucs), "User --> ") == if "User" in actors then |ucs| else 0
    ensures CountBeginning(UseCaseEdges(actors, ucs), "Admin --> ")
      == if "Admin" in actors then (if |ucs| > 2 then 2 else 1) else 0
  {
    var users := Gate("User" in actors, Map(ucs, UserEdge));
    var admins := Gate("Admin" in actors, AdminEdges(ucs));
    CountBeginningConcat(users, admins, "User --> ");
    CountBeginningConcat(users, admins, "Admin --> ");
    forall i | 0 <= i < |users| ensures users[i] == "User --> " + Alias(ucs[i]) {
    }
    forall i | 0 <= i < |admins| ensures admins[i] == "Admin --> " + Alias(ucs[if i == 0 then 0 else 2]) {
    }
    CountBeginningNone(users, "Admin --> ");
    CountBeginningNone(admins, "User --> ");
    if "User" in actors {
      CountBeginningAll(users, "User --> ");
    }
    if "Admin" in actors {
      CountBeginningAll(admins, "Admin --> ");
    }
  }

  /** The user is linked to every use case exactly when the user actor is drawn, and the admin
      to the first use case, and to the third when there are more than two. */
  lemma UseCaseEdgeCounts(req: DiagramRequirements, opt: DiagramOptions)
    ensures CountBeginning(UseCaseLines(req, opt), "User --> ")
      == if "User" in Actors(opt) then |UseCases(req)| else 0
    ensures CountBeginning(UseCaseLines(req, opt), "Admin --> ")
      == if "Admin" in Actors(opt) then (if |UseCases(req)| > 2 then 2 else 1) else 0
  {
    var actors, ucs, title := Actors(opt), UseCases(req), TitleOr(opt.title, "Use Case Diagram");
    FramedCount("skinparam actorStyle awesome", title, UseCaseBody(actors, ucs), "User --> ");
    FramedCount("skinparam actorStyle awesome", title, UseCaseBody(actors, ucs), "Admin --> ");
    UseCaseBodyCount(actors, ucs, "User --> ");
    UseCaseBodyCount(actors, ucs, "Admin --> ");
    EdgeCounts(actors, ucs);
  }

  /** Frontend and Backend are always the first two components drawn. */
  lemma ComponentsBeginWithFrontendAndBackend(req: DiagramRequirements, opt: DiagramOptions)
    ensures var lines := ComponentLines(req, opt);
      |lines| > 8 && lines[7] == "[Frontend]" && lines[8] == "[Backend]"
  {
    var components := Components(req);
    var decls := Map(components, ComponentLine);
    var h := Header(["skinparam componentStyle rectangle"], TitleOr(opt.title, "Component Diagram"));
    assert components[0] == "Frontend" && components[1] == "Backend";
    assert decls[0] == "[Frontend]" && decls[1] == "[Backend]";
    assert ComponentLines(req, opt) == h + decls + ([""] + ComponentRelations(components) + ["@enduml"]);
  }

  /** No component name is longer than 17 characters. */
  lemma ComponentNamesAreShort(req: DiagramRequirements)
    ensures forall i :: 0 <= i < |Components(req)| ==> |Components(req)[i]| <= 17
  {
  }

  /** A long arrow line is neither a header line, nor a component declaration, nor the
      closing line: only the arrows can hold it. */
  lemma ArrowOnlyInRelations(req: DiagramRequirements, title: string, arrow: string)
    requires |arrow| > 19 && arrow[0] == '['
    ensures arrow in Header(["skinparam componentStyle rectangle"], title)
        + Map(Components(req), ComponentLine) + [""] + ComponentRelations(Components(req)) + ["@enduml"]
      <==> arrow in ComponentRelations(Components(req))
  {
    var h := Header(["skinparam componentStyle rectangle"], title);
    var decls := Map(Components(req), ComponentLine);
    HeaderFirstChars(["skinparam componentStyle rectangle"], title);
    assert arrow !in h by {
      forall i | 0 <= i < |h| ensures h[i] != arrow {
      }
    }
    ComponentNamesAreShort(req);
    assert arrow !in decls by {
      forall i | 0 <= i < |decls| ensures |decls[i]| <= 19 {
      }
    }
  }

  /** The mobile client is drawn exactly for a mobile project. */
  lemma MobileClientDrawn(req: DiagramRequirements)
    ensures "Mobile Client" in Components(req) <==> req.projectType == "mobile"
  {
  }

  /** The arrows hold the gateway route when a mobile client is drawn and the direct route
      otherwise, never both. */
  lemma ClientRouteInRelations(components: seq<string>)
    ensures "[Mobile Client] --> [API Gateway]" in ComponentRelations(components) <==> "Mobile Client" in components
    ensures "[Frontend] --> [Backend]" in ComponentRelations(components) <==> "Mobile Client" !in components
  {
  }

  /** Exactly one client route is drawn: through the API gateway for a mobile project, straight
      from Frontend to Backend otherwise. */
  lemma ExactlyOneClientRoute(req: DiagramRequirements, opt: DiagramOptions)
    ensures "[Mobile Client] --> [API Gateway]" in ComponentLines(req, opt) <==> req.projectType == "mobile"
    ensures "[Frontend] --> [Backend]" in ComponentLines(req, opt) <==> req.projectType != "mobile"
  {
    var title := TitleOr(opt.title, "Component Diagram");
    ArrowOnlyInRelations(req, title, "[Mobile Client] --> [API Gateway]");
    ArrowOnlyInRelations(req, title, "[Frontend] --> [Backend]");
    MobileClientDrawn(req);
    ClientRouteInRelations(Components(req));
  }

  /** The lines of the sequence diagram that are drawn whatever the features. */
  const SequenceFixed: seq<string> := SequenceCast + ["", "User -> FE: Request", "FE -> BE: API Call",
    "BE --> FE: Response", "FE --> User: Display Result", "@enduml"]

  /** A line that is not a header line and not one of the fixed lines appears in the sequence
      diagram exactly when a participant or an exchange supplies it. */
  lemma SequenceMembership(req: DiagramRequirements, title: string, line: string)
    requires |line| > 0 && line[0] != '@' && line[0] != '!' && line[0] != 's' && line[0] != 't'
    requires line !in SequenceFixed
    ensures line in Header([], title) + SequenceCast + SequenceParticipants(req) + [""]
        + ["User -> FE: Request", "FE -> BE: API Call"] + SequenceExchanges(req)
        + ["BE --> FE: Response", "FE --> User: Display Result"] + ["@enduml"]
      <==> line in SequenceParticipants(req) || line in SequenceExchanges(req)
  {
    var h := Header([], title);
    HeaderFirstChars([], title);
    assert line !in h by {
      forall i | 0 <= i < |h| ensures h[i] != line {
      }
    }
    assert SequenceFixed[8] == "@enduml";
  }

  /** The feature lines are none of the fixed lines. */
  lemma FeatureLinesAreNotFixed()
    ensures AuthParticipant !in SequenceFixed && DatabaseParticipant !in SequenceFixed && ApiParticipant !in SequenceFixed
    ensures forall i :: 0 <= i < 2 ==>
      AuthExchange[i] !in SequenceFixed && DatabaseExchange[i] !in SequenceFixed && ApiExchange[i] !in SequenceFixed
  {
  }

  /** Each feature contributes its participant to the participants and its two messages to the
      exchanges, and nothing else does. */
  lemma FeatureLinesPlaced(req: DiagramRequirements)
    ensures AuthParticipant in SequenceParticipants(req) <==> Has(req, "Authentication")
    ensures DatabaseParticipant in SequenceParticipants(req) <==> Has(req, "Database Storage")
    ensures ApiParticipant in SequenceParticipants(req) <==> Has(req, "API Integration")
    ensures forall i :: 0 <= i < 2 ==>
      (AuthExchange[i] in SequenceExchanges(req) <==> Has(req, "Authentication"))
      && (DatabaseExchange[i] in SequenceExchanges(req) <==> Has(req, "Database Storage"))
      && (ApiExchange[i] in SequenceExchanges(req) <==> Has(req, "API Integration"))
  {
  }

  /** The Auth participant and its two messages are drawn exactly when "Authentication" is listed. */
  lemma AuthShown(req: DiagramRequirements, opt: DiagramOptions)
    ensures var lines := SequenceLines(req, opt);
      (AuthParticipant in lines <==> Has(req, "Authentication"))
      && (AuthExchange[0] in lines && AuthExchange[1] in lines <==> Has(req, "Authentication"))
  {
    var title := TitleOr(opt.title, "Sequence Diagram");
    FeatureLinesAreNotFixed();
    FeatureLinesPlaced(req);
    SequenceMembership(req, title, AuthParticipant);
    SequenceMembership(req, title, AuthExchange[0]);
    SequenceMembership(req, title, AuthExchange[1]);
  }

  /** The Database participant and its two messages are drawn exactly when "Database Storage" is listed. */
  lemma DatabaseShown(req: DiagramRequirements, opt: DiagramOptions)
    ensures var lines := SequenceLines(req, opt);
      (DatabaseParticipant in lines <==> Has(req, "Database Storage"))
      && (DatabaseExchange[0] in lines && DatabaseExchange[1] in lines <==> Has(req, "Database Storage"))
  {
    var title := TitleOr(opt.title, "Sequence Diagram");
    FeatureLinesAreNotFixed();
    FeatureLinesPlaced(req);
    SequenceMembership(req, title, DatabaseParticipant);
    SequenceMembership(req, title, DatabaseExchange[0]);
    SequenceMembership(req, title, DatabaseExchange[1]);
  }

  /** The Api participant and its two messages are drawn exactly when "API Integration" is listed. */
  lemma ApiShown(req: DiagramRequirements, opt: DiagramOptions)
    ensures var lines := SequenceLines(req, opt);
      (ApiParticipant in lines <==> Has(req, "API Integration"))
      && (ApiExchange[0] in lines && ApiExchange[1] in lines <==> Has(req, "API Integration"))
  {
    var title := TitleOr(opt.title, "Sequence Diagram");
    FeatureLinesAreNotFixed();
    FeatureLinesPlaced(req);
    SequenceMembership(req, title, ApiParticipant);
    SequenceMembership(req, title, ApiExchange[0]);
    SequenceMembership(req, title, ApiExchange[1]);
  }

  /** A participant is declared, and its request and response are exchanged, exactly when the
      feature behind it is listed. */
  lemma SequenceShowsFeatures(req: DiagramRequirements, opt: DiagramOptions)
    ensures var lines := SequenceLines(req, opt);
      (AuthParticipant in lines <==> Has(req, "Authentication"))
      && (AuthExchange[0] in lines && AuthExchange[1] in lines <==> Has(req, "Authentication"))
      && (DatabaseParticipant in lines <==> Has(req, "Database Storage"))
      && (DatabaseExchange[0] in lines && DatabaseExchange[1] in lines <==> Has(req, "Database Storage"))
      && (ApiParticipant in lines <==> Has(req, "API Integration"))
      && (ApiExchange[0] in lines && ApiExchange[1] in lines <==> Has(req, "API Integration"))
  {
    AuthShown(req, opt);
    DatabaseShown(req, opt);
    ApiShown(req, opt);
  }

  /** The flow opens with the user's request reaching the backend and closes with the result
      displayed to the user; the feature exchanges sit in between. */
  lemma SequenceFlowFrame(req: DiagramRequirements, opt: DiagramOptions)
    ensures var lines, n := SequenceLines(req, opt), |SequenceParticipants(req)|;
      |lines| == 15 + n + |SequenceExchanges(req)|
      && lines[10 + n] == "User -> FE: Request" && lines[11 + n] == "FE -> BE: API Call"
      && lines[12 + n..|lines| - 3] == SequenceExchanges(req)
      && lines[|lines| - 3] == "BE --> FE: Response" && lines[|lines| - 2] == "FE --> User: Display Result"
  {
    var lines, n := SequenceLines(req, opt), |SequenceParticipants(req)|;
    var prefix := Header([], TitleOr(opt.title, "Sequence Diagram")) + SequenceCast + SequenceParticipants(req) + [""]
      + ["User -> FE: Request", "FE -> BE: API Call"];
    assert |prefix| == 12 + n;
    assert lines[12 + n..|lines| - 3] == SequenceExchanges(req);
  }

  /** The user and the application classes head every class diagram. */
  lemma ClassDiagramDeclaresUserAndApplication(req: DiagramRequirements, opt: DiagramOptions)
    ensures var lines := ClassLines(req, opt);
      |lines| > 14 && lines[6] == "class User {" && lines[14] == "class Application {"
  {
    var lines := ClassLines(req, opt);
    assert lines[6] == BaseClasses[0];
    assert lines[14] == BaseClasses[8];
  }

  /** The API client is declared once in its own block. */
  lemma ApiClientClassDeclaresIt()
    ensures Occurrences(ApiClientClass, "class ApiClient {") == 1
  {
    OccurrencesAbsent(ApiClientClass[1..], "class ApiClient {");
  }

  lemma BaseClassesLackApiClient()
    ensures Occurrences(BaseClasses, "class ApiClient {") == 0
  {
    OccurrencesAbsent(BaseClasses, "class ApiClient {");
  }

  lemma WebappClassesDeclareApiClientOnce()
    ensures Occurrences(WebappClasses, "class ApiClient {") == 1
  {
    var x := "class ApiClient {";
    ApiClientClassDeclaresIt();
    OccurrencesAbsent(WebPageClass, x);
    OccurrencesAbsent(WebappAssociations, x);
    OccurrencesConcat(WebPageClass + ApiClientClass, WebappAssociations, x);
    OccurrencesConcat(WebPageClass, ApiClientClass, x);
  }

  lemma MobileClassesDeclareApiClientOnce()
    ensures Occurrences(MobileClasses, "class ApiClient {") == 1
  {
    var x := "class ApiClient {";
    ApiClientClassDeclaresIt();
    OccurrencesAbsent(ScreenClass, x);
    OccurrencesAbsent(MobileAssociations, x);
    OccurrencesConcat(ScreenClass + ApiClientClass, MobileAssociations, x);
    OccurrencesConcat(ScreenClass, ApiClientClass, x);
  }

  lemma MlClassesLackApiClient()
    ensures Occurrences(MlClasses, "class ApiClient {") == 0
  {
    var x := "class ApiClient {";
    OccurrencesAbsent(ModelClass, x);
    OccurrencesAbsent(DatasetClass, x);
    OccurrencesAbsent(PipelineClass, x);
    OccurrencesAbsent(MlAssociations, x);
    OccurrencesConcat(ModelClass + DatasetClass + PipelineClass, MlAssociations, x);
    OccurrencesConcat(ModelClass + DatasetClass, PipelineClass, x);
    OccurrencesConcat(ModelClass, DatasetClass, x);
  }

  lemma AuthClassesLackApiClient()
    ensures Occurrences(AuthClasses, "class ApiClient {") == 0
  {
    OccurrencesAbsent(AuthClasses, "class ApiClient {");
  }

  lemma DatabaseClassesLackApiClient()
    ensures Occurrences(DatabaseClasses, "class ApiClient {") == 0
  {
    OccurrencesAbsent(DatabaseClasses, "class ApiClient {");
  }

  /** The block a project type adds declares the API client once for a web or a mobile project
      and not at all otherwise. */
  lemma TypeClassesDeclareApiClient(projectType: string)
    ensures Occurrences(TypeClasses(projectType), "class ApiClient {")
      == if projectType == "webapp" || projectType == "mobile" then 1 else 0
  {
    if projectType == "webapp" {
      WebappClassesDeclareApiClientOnce();
    } else if projectType == "mobile" {
      MobileClassesDeclareApiClientOnce();
    } else if projectType == "ml" {
      MlClassesLackApiClient();
    }
  }

  /** No header line is a class declaration. */
  lemma HeaderLacksApiClient(title: string)
    ensures Occurrences(Header([], title), "class ApiClient {") == 0
  {
    var h := Header([], title);
    HeaderFirstChars([], title);
    assert "class ApiClient {" !in h by {
      forall i | 0 <= i < |h| ensures h[i] != "class ApiClient {" {
      }
    }
    OccurrencesAbsent(h, "class ApiClient {");
  }

  /** The API client class is declared once for a web or a mobile project and not at all
      otherwise. */
  lemma ApiClientDeclaredOnce(req: DiagramRequirements, opt: DiagramOptions)
    ensures Occurrences(ClassLines(req, opt), "class ApiClient {")
      == if req.projectType == "webapp" || req.projectType == "mobile" then 1 else 0
  {
    var x := "class ApiClient {";
    var h := Header([], TitleOr(opt.title, "Class Diagram"));
    var t := TypeClasses(req.projectType);
    var auth := Gate(Has(req, "Authentication"), AuthClasses);
    var db := Gate(Has(req, "Database Storage"), DatabaseClasses);
    HeaderLacksApiClient(TitleOr(opt.title, "Class Diagram"));
    BaseClassesLackApiClient();
    TypeClassesDeclareApiClient(req.projectType);
    AuthClassesLackApiClient();
    DatabaseClassesLackApiClient();
    OccurrencesAbsent(["@enduml"], x);
    OccurrencesConcat(h + BaseClasses + t + auth + db, ["@enduml"], x);
    OccurrencesConcat(h + BaseClasses + t + auth, db, x);
    OccurrencesConcat(h + BaseClasses + t, auth, x);
    OccurrencesConcat(h + BaseClasses, t, x);
    OccurrencesConcat(h, BaseClasses, x);
  }
}
