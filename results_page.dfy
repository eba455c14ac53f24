/** The results page's logic: the progress counter shown while the recommendation is being
    produced, the four progress steps, the diagram tab switch and the two label lookups. */
module ResultsPage {
  import opened Options
  import DiagramService
  import RequirementsPage

  // ---------------------------------------------------------------------------------------
  // Progress

  /** The interval callback's updater: stop at 100, otherwise advance by 5. */
  function NextProgress(prev: int): (next: int)
    ensures prev < 100 ==> next == prev + 5
    ensures prev >= 100 ==> next == 100
  {
    if prev >= 100 then 100 else prev + 5
  }

  /** The values the counter can hold: a multiple of 5 between 0 and 100. */
  predicate ProgressValue(p: int)
  {
    0 <= p <= 100 && p % 5 == 0
  }

  /** The updater keeps the counter a multiple of 5 in 0..100, and moves it forward until it
      reaches 100, where it stays. */
  lemma NextProgressPreservesValue(p: int)
    requires ProgressValue(p)
    ensures ProgressValue(NextProgress(p))
    ensures p < 100 ==> p < NextProgress(p)
    ensures p == 100 ==> NextProgress(p) == 100
  {
  }

  /** Where the counter stands after `ticks` callbacks starting from 0. */
  function ProgressAfter(ticks: nat): (p: int)
  {
    if 5 * ticks >= 100 then 100 else 5 * ticks
  }

  /** The counter after `ticks` firings of the interval, starting from the initial 0. */
  method AnimateProgress(ticks: nat) returns (p: int)
    ensures p == ProgressAfter(ticks)
    ensures ProgressValue(p)
  {
    p := 0;
    var i := 0;
    while i < ticks
      invariant 0 <= i <= ticks
      invariant p == ProgressAfter(i)
      invariant ProgressValue(p)
    {
      NextProgressPreservesValue(p);
      p := NextProgress(p);
      i := i + 1;
    }
  }

  /** Twenty firings bring the counter to 100, and it never passes it. */
  lemma {:induction false} ProgressReachesHundred(ticks: nat)
    ensures ProgressAfter(ticks) <= 100
    ensures ProgressAfter(ticks) == 100 <==> ticks >= 20
    ensures ticks < 20 ==> ProgressAfter(ticks + 1) == ProgressAfter(ticks) + 5
  {
  }

  // ---------------------------------------------------------------------------------------
  // The progress steps

  datatype Step = Analyzing | Researching | Designing | Generating

  const Steps: seq<Step> := [Analyzing, Researching, Designing, Generating]

  /** A step's `isActive` flag. */
  predicate IsActive(s: Step, progress: int)
    ensures IsActive(s, progress) ==> progress < 100 && !IsComplete(s, progress)
  {
    match s
    case Analyzing => progress < 30
    case Researching => progress >= 30 && progress < 60
    case Designing => progress >= 60 && progress < 85
    case Generating => progress >= 85 && progress < 100
  }

  /** A step's `isComplete` flag. */
  predicate IsComplete(s: Step, progress: int)
    ensures progress >= 100 ==> IsComplete(s, progress)
    ensures progress < 30 ==> !IsComplete(s, progress)
  {
    match s
    case Analyzing => progress >= 30
    case Researching => progress >= 60
    case Designing => progress >= 85
    case Generating => progress >= 100
  }

  /** The step a progress value below 100 is working on. */
  function CurrentStep(progress: int): Step
  {
    if progress < 30 then Analyzing
    else if progress < 60 then Researching
    else if progress < 85 then Designing
    else Generating
  }

  /** Below 100 exactly one step is active, the current one; from 100 on none is. */
  lemma ExactlyOneActive(s: Step, progress: int)
    ensures IsActive(s, progress) <==> progress < 100 && s == CurrentStep(progress)
  {
  }

  /** A step is complete exactly when it comes before the current one, or when the counter has
      reached 100; so no step is ever both active and complete. */
  lemma CompleteBeforeCurrent(i: nat, progress: int)
    requires i < |Steps|
    ensures IsComplete(Steps[i], progress) <==>
      progress >= 100 || exists j :: 0 <= j < |Steps| && Steps[j] == CurrentStep(progress) && i < j
    ensures !(IsActive(Steps[i], progress) && IsComplete(Steps[i], progress))
  {
    if progress < 100 {
      var c := CurrentStep(progress);
      var j := if c == Analyzing then 0 else if c == Researching then 1 else if c == Designing then 2 else 3;
      assert Steps[j] == c;
    }
  }

  /** At 100 every step is complete and none is active. */
  lemma AllCompleteAtHundred(progress: int)
    requires progress >= 100
    ensures forall s :: IsComplete(s, progress) && !IsActive(s, progress)
  {
  }

  // ---------------------------------------------------------------------------------------
  // The diagram tabs

  /** The recommendation's optional diagrams, one slot per tab (the `class` slot is named
      `classDiagram` here, `class` being a keyword). */
  datatype DiagramSet = DiagramSet(
    flowchart: Option<DiagramService.GeneratedDiagram>,
    useCase: Option<DiagramService.GeneratedDiagram>,
    component: Option<DiagramService.GeneratedDiagram>,
    sequence: Option<DiagramService.GeneratedDiagram>,
    classDiagram: Option<DiagramService.GeneratedDiagram>)

  /** `renderDiagram`'s choice: the slot of the selected tab, the flowchart for an unknown
      tab, and nothing when the recommendation has no diagrams or the slot is empty. */
  function SelectDiagram(tab: string, diagrams: Option<DiagramSet>): (d: Option<DiagramService.GeneratedDiagram>)
    ensures diagrams.None? ==> d.None?
    ensures diagrams.Some? && tab == "usecase" ==> d == diagrams.value.useCase
    ensures diagrams.Some? && tab == "component" ==> d == diagrams.value.component
    ensures diagrams.Some? && tab == "sequence" ==> d == diagrams.value.sequence
    ensures diagrams.Some? && tab == "class" ==> d == diagrams.value.classDiagram
    ensures diagrams.Some? && tab !in ["usecase", "component", "sequence", "class"] ==>
      d == diagrams.value.flowchart
  {
    match diagrams
    case None => None
    case Some(ds) =>
      match tab
      case "flowchart" => ds.flowchart
      case "usecase" => ds.useCase
      case "component" => ds.component
      case "sequence" => ds.sequence
      case "class" => ds.classDiagram
      case _ => ds.flowchart
  }

  /** A full set of diagrams, the slot of each tab holding `draw` of its name. */
  function DrawnSet(draw: string -> DiagramService.GeneratedDiagram): DiagramSet
  {
    DiagramSet(Some(draw("flowchart")), Some(draw("usecase")), Some(draw("component")),
      Some(draw("sequence")), Some(draw("class")))
  }

  /** In a full set, every tab shows what `draw` makes of its name, provided `draw` treats an
      unknown name like "flowchart". */
  lemma SelectFromDrawnSet(tab: string, draw: string -> DiagramService.GeneratedDiagram)
    requires tab !in DiagramService.DiagramTypes ==> draw(tab) == draw("flowchart")
    ensures SelectDiagram(tab, Some(DrawnSet(draw))) == Some(draw(tab))
  {
  }

  /** The service's diagram for a type name, with one title and one actor list. */
  function ServiceDraw(req: DiagramService.DiagramRequirements, title: string, actors: Option<seq<string>>)
    : string -> DiagramService.GeneratedDiagram
  {
    kind => DiagramService.Diagram(req, DiagramService.DiagramOptions(kind, title, actors))
  }

  /** The tab switch and the service's dispatch agree: whatever the tab, the page shows the
      diagram the service generates for that tab's name, unknown names included (both fall
      back to the flowchart). */
  lemma SelectionMatchesDispatch(
    req: DiagramService.DiagramRequirements, title: string, actors: Option<seq<string>>, tab: string)
    ensures SelectDiagram(tab, Some(DrawnSet(ServiceDraw(req, title, actors)))) ==
      Some(DiagramService.Diagram(req, DiagramService.DiagramOptions(tab, title, actors)))
  {
    var draw := ServiceDraw(req, title, actors);
    var opt := DiagramService.DiagramOptions(tab, title, actors);
    if tab !in DiagramService.DiagramTypes {
      DiagramService.DiagramTypeFallsBack(req, opt);
      assert opt.(kind := "flowchart") == DiagramService.DiagramOptions("flowchart", title, actors);
    }
    SelectFromDrawnSet(tab, draw);
  }

  // ---------------------------------------------------------------------------------------
  // Labels

  const ProjectTypeLabels: map<string, string> := map[
    "web" := "Web Application",
    "mobile" := "Mobile Application",
    "desktop" := "Desktop Application",
    "api" := "API Service",
    "ai" := "AI/ML Project",
    "iot" := "IoT System",
    "other" := "Other"
  ]

  const ScaleLabels: map<string, string> := map[
    "small" := "Small (Hundreds of users)",
    "medium" := "Medium (Thousands of users)",
    "large" := "Large (Millions of users)"
  ]

  /** `table[key] || key`: the label of a known key, any other key unchanged. Every label in
      both tables is non-empty, so the `||` fallback fires only for unknown keys. */
  function LabelOr(table: map<string, string>, key: string): (shown: string)
    ensures key in table && table[key] != "" ==> shown == table[key]
    ensures key !in table ==> shown == key
  {
    if key in table && table[key] != "" then table[key] else key
  }

  /** `formatProjectType`: the caption of a known type, the raw value otherwise. */
  function FormatProjectType(projectType: string): (shown: string)
    ensures projectType in ProjectTypeLabels ==> shown == ProjectTypeLabels[projectType]
    ensures projectType !in ProjectTypeLabels ==> shown == projectType
  {
    LabelOr(ProjectTypeLabels, projectType)
  }

  /** `formatScale`: the caption of a known scale, the raw value otherwise. */
  function FormatScale(scale: string): (shown: string)
    ensures scale in ScaleLabels ==> shown == ScaleLabels[scale]
    ensures scale !in ScaleLabels ==> shown == scale
  {
    LabelOr(ScaleLabels, scale)
  }

  /** No label is itself a key, so formatting a formatted value changes nothing. */
  lemma FormatIdempotent(projectType: string, scale: string)
    ensures FormatProjectType(FormatProjectType(projectType)) == FormatProjectType(projectType)
    ensures FormatScale(FormatScale(scale)) == FormatScale(scale)
  {
    assert forall k :: k in ProjectTypeLabels ==> ProjectTypeLabels[k] !in ProjectTypeLabels;
    assert forall k :: k in ScaleLabels ==> ScaleLabels[k] !in ScaleLabels;
  }

  /** The results page names every project type and scale exactly as the requirements page's
      drop-downs did. */
  lemma LabelsMatchChoices()
    ensures forall i :: 0 <= i < |RequirementsPage.ProjectTypeChoices| ==>
      FormatProjectType(RequirementsPage.ProjectTypeChoices[i].value) == RequirementsPage.ProjectTypeChoices[i].caption
    ensures forall i :: 0 <= i < |RequirementsPage.ScaleChoices| ==>
      FormatScale(RequirementsPage.ScaleChoices[i].value) == RequirementsPage.ScaleChoices[i].caption
  {
  }
}
