/** The requirements page: its own requirements record, the field and feature updaters, the
    project-name check of the submit handler, and the feature catalog it offers. */
module RequirementsPage {
  import opened Seqs
  import opened Text
  import RequirementsForm
  import ArchitectureService

  /** The page's record. It differs from the engine's: `scale` instead of `scalability`, plus
      time constraints, security and free-form requirements. */
  datatype PageRequirements = PageRequirements(
    projectName: string,
    projectType: string,
    scale: string,
    budget: string,
    timeConstraints: string,
    description: string,
    security: string,
    features: seq<string>,
    customRequirements: string)

  /** The names the input and select handlers are called with: the string-valued fields. */
  datatype PageField =
    | ProjectName | ProjectType | Scale | Budget | TimeConstraints | Description | Security
    | CustomRequirements

  function Get(r: PageRequirements, f: PageField): string
  {
    match f
    case ProjectName => r.projectName
    case ProjectType => r.projectType
    case Scale => r.scale
    case Budget => r.budget
    case TimeConstraints => r.timeConstraints
    case Description => r.description
    case Security => r.security
    case CustomRequirements => r.customRequirements
  }

  /** The page's state before any input; `projectIdea` is the idea carried over from the
      landing page, or the empty string when there is none. */
  function InitialPageRequirements(projectIdea: string): (r: PageRequirements)
    ensures r.projectType == "web" && r.scale == "medium" && r.features == []
    ensures r.description == projectIdea
    ensures r.projectName != "" && r.customRequirements == ""
  {
    PageRequirements("My Project", "web", "medium", "medium", "medium", projectIdea, "standard", [], "")
  }

  /** `handleInputChange` and `handleSelectChange` alike: `{ ...prev, [name]: value }`. */
  function UpdateField(r: PageRequirements, name: PageField, value: string): (r': PageRequirements)
    ensures Get(r', name) == value
    ensures forall f :: f != name ==> Get(r', f) == Get(r, f)
    ensures r'.features == r.features
  {
    match name
    case ProjectName => r.(projectName := value)
    case ProjectType => r.(projectType := value)
    case Scale => r.(scale := value)
    case Budget => r.(budget := value)
    case TimeConstraints => r.(timeConstraints := value)
    case Description => r.(description := value)
    case Security => r.(security := value)
    case CustomRequirements => r.(customRequirements := value)
  }

  /** `handleFeatureToggle`: the same list operation as the requirements form. */
  function HandleFeatureToggle(r: PageRequirements, feature: string): (r': PageRequirements)
    ensures r'.features == RequirementsForm.ToggleFeature(r.features, feature)
    ensures forall f :: Get(r', f) == Get(r, f)
  {
    r.(features := RequirementsForm.ToggleFeature(r.features, feature))
  }

  /** Toggling a present feature drops every copy of it and keeps the rest in order; toggling
      an absent one appends it. */
  lemma ToggleRemovesOrAppends(r: PageRequirements, feature: string)
    ensures feature in r.features ==>
      HandleFeatureToggle(r, feature).features == Filter(r.features, RequirementsForm.Differs(feature))
    ensures feature in r.features ==> feature !in HandleFeatureToggle(r, feature).features
    ensures feature !in r.features ==> HandleFeatureToggle(r, feature).features == r.features + [feature]
  {
    RequirementsForm.ToggleFlipsMembership(r.features, feature);
  }

  /** What submitting leads to: nothing happens, or the record is stored and the results
      page is opened. */
  datatype SubmitOutcome = Rejected | Stored(requirements: PageRequirements)

  /** The check of `handleSubmit`: a project name that is empty after trimming is refused. */
  function HandleSubmit(r: PageRequirements): (o: SubmitOutcome)
    ensures o.Rejected? <==> forall i :: 0 <= i < |r.projectName| ==> IsWhitespace(r.projectName[i])
    ensures o.Stored? ==> o.requirements == r
  {
    TrimEmptyIffBlank(r.projectName);
    if Trim(r.projectName) == "" then Rejected else Stored(r)
  }

  /** The page's initial name passes the check; a name of spaces only does not. */
  lemma SubmitExamples(projectIdea: string)
    ensures HandleSubmit(InitialPageRequirements(projectIdea)) == Stored(InitialPageRequirements(projectIdea))
    ensures HandleSubmit(InitialPageRequirements(projectIdea).(projectName := "  ")) == Rejected
  {
    var r := InitialPageRequirements(projectIdea);
    assert !IsWhitespace(r.projectName[0]);
  }

  // ---------------------------------------------------------------------------------------
  // The drop-downs

  /** One drop-down entry: the value stored and the text shown. */
  datatype Choice = Choice(value: string, caption: string)

  const ProjectTypeChoices: seq<Choice> := [
    Choice("web", "Web Application"),
    Choice("mobile", "Mobile Application"),
    Choice("desktop", "Desktop Application"),
    Choice("api", "API Service"),
    Choice("ai", "AI/ML Project"),
    Choice("iot", "IoT System"),
    Choice("other", "Other")
  ]

  const ScaleChoices: seq<Choice> := [
    Choice("small", "Small (Hundreds of users)"),
    Choice("medium", "Medium (Thousands of users)"),
    Choice("large", "Large (Millions of users)")
  ]

  /** The drop-downs never offer the engine's type names "webapp" and "ml", and the initial
      values are among the offered ones. */
  lemma ChoicesMissEngineNames(projectIdea: string)
    ensures forall i :: 0 <= i < |ProjectTypeChoices| ==>
      ProjectTypeChoices[i].value != "webapp" && ProjectTypeChoices[i].value != "ml"
    ensures InitialPageRequirements(projectIdea).projectType == ProjectTypeChoices[0].value
    ensures InitialPageRequirements(projectIdea).scale == ScaleChoices[1].value
  {
  }

  // ---------------------------------------------------------------------------------------
  // The feature catalog

  /** One checkbox: the id it toggles, its label (`caption` here) and its explanation. */
  datatype FeatureOption = FeatureOption(id: string, caption: string, description: string)

  /** The checkboxes the page offers, in display order. */
  const Features: seq<FeatureOption> := [
    FeatureOption("auth", "Authentication & Authorization",
      "User login, registration, and role-based access control"),
    FeatureOption("api", "API Integration", "Connect with external services and APIs"),
    FeatureOption("ml", "Machine Learning / AI",
      "Intelligent features like predictions, recommendations, etc."),
    FeatureOption("realtime", "Real-time Features", "Live updates, notifications, or collaboration"),
    FeatureOption("offline", "Offline Support", "Allow app to function without internet connection"),
    FeatureOption("analytics", "Analytics & Monitoring",
      "Track usage, performance metrics, and user behavior"),
    FeatureOption("payment", "Payment Processing", "Handle transactions and subscriptions"),
    FeatureOption("search", "Search Functionality", "Enable users to search through content"),
    FeatureOption("mobile", "Mobile Optimization", "Ensure functionality works well on mobile devices"),
    FeatureOption("internationalization", "Internationalization", "Multi-language and locale support")
  ]

  /** The ids the checkboxes toggle. */
  const FeatureIds: seq<string> := [
    "auth", "api", "ml", "realtime", "offline", "analytics", "payment", "search", "mobile",
    "internationalization"
  ]

  /** The ids are those of the catalog entries, in order, and no two are equal. */
  lemma FeatureIdsDistinct()
    ensures FeatureIds == Map(Features, (o: FeatureOption) => o.id)
    ensures |FeatureIds| == 10
    ensures forall i, j :: 0 <= i < j < |FeatureIds| ==> FeatureIds[i] != FeatureIds[j]
  {
    var ids := Map(Features, (o: FeatureOption) => o.id);
    assert ids == FeatureIds;
  }

  /** The page's ids are not the engine's feature names: none is a key of its library table. */
  lemma FeatureIdsNotLibraryKeys()
    ensures forall f :: f in FeatureIds ==> f !in ArchitectureService.LibraryMap
  {
  }

  /** What every state the page can reach satisfies: the feature list holds catalog ids, each
      at most once. */
  ghost predicate PageInvariant(r: PageRequirements)
  {
    NoDuplicates(r.features) && forall i :: 0 <= i < |r.features| ==> r.features[i] in FeatureIds
  }

  lemma InitialSatisfiesInvariant(projectIdea: string)
    ensures PageInvariant(InitialPageRequirements(projectIdea))
  {
  }

  lemma UpdateFieldPreservesInvariant(r: PageRequirements, name: PageField, value: string)
    requires PageInvariant(r)
    ensures PageInvariant(UpdateField(r, name, value))
  {
  }

  /** Toggling a catalog id keeps the invariant. */
  lemma HandleFeatureTogglePreservesInvariant(r: PageRequirements, feature: string)
    requires PageInvariant(r) && feature in FeatureIds
    ensures PageInvariant(HandleFeatureToggle(r, feature))
  {
    var fs := RequirementsForm.ToggleFeature(r.features, feature);
    RequirementsForm.ToggleKeepsNoDuplicates(r.features, feature);
    forall i | 0 <= i < |fs| ensures fs[i] in FeatureIds {
      if fs[i] != feature {
        assert fs[i] in multiset(fs);
      }
    }
  }

  // ---------------------------------------------------------------------------------------
  // What the engine makes of the stored record

  /** The stored record read back as the engine's requirements: the fields both records share
      carry over, and the engine's `scalability`, `timeline` and `team`, which the page never
      writes, are missing (modelled as the empty string). */
  function AsEngineRequirements(r: PageRequirements): (e: RequirementsForm.ProjectRequirements)
    ensures e.projectType == r.projectType && e.features == r.features
    ensures e.scalability == "" && e.timeline == "" && e.team == ""
  {
    RequirementsForm.ProjectRequirements(r.projectName, r.description, r.projectType, "", r.features,
      r.budget, "", "")
  }

  /** A record the page produced never reaches the monolith or the event-driven pattern, gets
      no feature library, and gets the medium deployment tier. */
  lemma PageRecordRecommendation(r: PageRequirements)
    requires PageInvariant(r)
    ensures ArchitectureService.ChoosePattern(AsEngineRequirements(r)) ==
      if r.projectType == "mobile" then ArchitectureService.CleanArchitecture
      else ArchitectureService.Microservices
    ensures ArchitectureService.LibrariesByFeatures(r.features) ==
      [ArchitectureService.Lodash, ArchitectureService.Redis]
    ensures ArchitectureService.DeploymentByScalability(AsEngineRequirements(r).scalability) ==
      ArchitectureService.MediumDeployment
  {
    var e := AsEngineRequirements(r);
    FeatureIdsNotLibraryKeys();
    assert "Real-time Updates" !in FeatureIds;
    FilterRejectsAll(r.features, ArchitectureService.IsKnown());
  }
}
