/** The rule-based recommendation engine: a first-match pattern chain and fixed lookup tables
    for frameworks, libraries, deployment options, pros and cons. */
module ArchitectureService {
  import opened Seqs
  import opened Text
  import opened RequirementsForm
  import SearchService

  datatype Framework = Framework(name: string, description: string, url: string, popularity: int)

  datatype Library = Library(name: string, purpose: string, url: string)

  datatype DeploymentOption = DeploymentOption(name: string, description: string, costEstimate: string)

  /** What the engine returns. The search results are always filled in. */
  datatype ArchitectureRecommendation = ArchitectureRecommendation(
    pattern: string,
    description: string,
    frameworks: seq<Framework>,
    libraries: seq<Library>,
    deployment: seq<DeploymentOption>,
    diagram: string,
    pros: seq<string>,
    cons: seq<string>,
    searchResults: seq<SearchService.SearchResult>)

  // ---------------------------------------------------------------------------------------
  // The pattern chain

  /** A pattern name with the description the engine pairs with it. */
  datatype PatternChoice = PatternChoice(pattern: string, description: string)

  const MonolithicMvc := PatternChoice(
    "Monolithic MVC", "A traditional monolithic application with Model-View-Controller pattern")
  const CleanArchitecture := PatternChoice(
    "Clean Architecture", "Domain-driven design with clean separation of concerns")
  const EventDriven := PatternChoice(
    "Event-Driven Architecture", "Reactive system based on events and message queues")
  const Microservices := PatternChoice(
    "Microservices", "A microservices architecture with distributed components")

  /** The four patterns the engine can recommend. */
  const Patterns: seq<PatternChoice> := [MonolithicMvc, CleanArchitecture, EventDriven, Microservices]

  /** The first-match chain: a low-scale web app is a monolith, then a mobile project gets clean
      architecture, then real-time updates call for events, and anything else is microservices. */
  function ChoosePattern(r: ProjectRequirements): (c: PatternChoice)
    ensures c in Patterns
    ensures r.projectType == "webapp" && r.scalability == "low" ==> c == MonolithicMvc
    ensures c == MonolithicMvc ==> r.projectType == "webapp" && r.scalability == "low"
    ensures r.projectType == "mobile" ==> c == CleanArchitecture
    ensures c == CleanArchitecture ==> r.projectType == "mobile"
    ensures c == EventDriven <==>
      r.projectType != "mobile" && !(r.projectType == "webapp" && r.scalability == "low")
      && "Real-time Updates" in r.features
  {
    if r.projectType == "webapp" && r.scalability == "low" then MonolithicMvc
    else if r.projectType == "mobile" then CleanArchitecture
    else if "Real-time Updates" in r.features then EventDriven
    else Microservices
  }

  /** With no rule matching the result is microservices. */
  lemma NoRuleMeansMicroservices(r: ProjectRequirements)
    requires !(r.projectType == "webapp" && r.scalability == "low")
    requires r.projectType != "mobile" && "Real-time Updates" !in r.features
    ensures ChoosePattern(r) == Microservices
  {
  }

  // ---------------------------------------------------------------------------------------
  // Frameworks

  const SpringBoot := Framework("Spring Boot", "Java-based framework for building enterprise applications",
    "https://spring.io/projects/spring-boot", 9)

  /** The list returned for any project type without a list of its own. */
  const GeneralFrameworks: seq<Framework> := [
    SpringBoot,
    Framework("React", "JavaScript library for building user interfaces", "https://reactjs.org", 10),
    Framework("Django", "High-level Python web framework", "https://www.djangoproject.com", 7)
  ]

  const MobileFrameworks: seq<Framework> := [
    Framework("React Native", "Framework for building native apps with React", "https://reactnative.dev", 8),
    Framework("Flutter", "Google's UI toolkit for building natively compiled applications", "https://flutter.dev", 9),
    Framework("Native Android/iOS", "Native development using Swift/Kotlin", "https://developer.apple.com/swift", 7)
  ]

  const ApiFrameworks: seq<Framework> := [
    Framework("Express.js", "Fast, unopinionated web framework for Node.js", "https://expressjs.com", 9),
    Framework("FastAPI", "Modern, fast web framework for Python APIs", "https://fastapi.tiangolo.com", 8)
  ]

  const MlFrameworks: seq<Framework> := [
    Framework("TensorFlow", "Open-source machine learning framework", "https://www.tensorflow.org", 10),
    Framework("PyTorch", "Open source machine learning library", "https://pytorch.org", 9),
    Framework("scikit-learn", "Machine learning library for Python", "https://scikit-learn.org", 8)
  ]

  /** The filter predicate `f => f.name === 'Spring Boot'`. */
  function IsSpringBoot(): Framework -> bool
  {
    (f: Framework) => f.name == "Spring Boot"
  }

  lemma GeneralFrameworksHoldSpringBootOnce()
    ensures Filter(GeneralFrameworks, IsSpringBoot()) == [SpringBoot]
  {
    var rest := GeneralFrameworks[1..];
    assert GeneralFrameworks == [SpringBoot] + rest;
    assert rest == [GeneralFrameworks[1]] + [GeneralFrameworks[2]];
    FilterConcat([SpringBoot], rest, IsSpringBoot());
    FilterConcat([GeneralFrameworks[1]], [GeneralFrameworks[2]], IsSpringBoot());
  }

  /** `getFrameworksByProjectType`: always three frameworks rated 1 to 10; an API project gets
      Express.js, FastAPI and then Spring Boot taken from the general list. */
  function FrameworksByProjectType(projectType: string): (r: seq<Framework>)
    ensures |r| == 3
    ensures forall i :: 0 <= i < |r| ==> 1 <= r[i].popularity <= 10
    ensures projectType == "api" ==>
      r[0].name == "Express.js" && r[1].name == "FastAPI" && r[2] == SpringBoot
    ensures projectType != "mobile" && projectType != "api" && projectType != "ml" ==> r == GeneralFrameworks
  {
    if projectType == "mobile" then MobileFrameworks
    else if projectType == "api" then
      GeneralFrameworksHoldSpringBootOnce();
      ApiFrameworks + Filter(GeneralFrameworks, IsSpringBoot())
    else if projectType == "ml" then MlFrameworks
    else GeneralFrameworks
  }

  // ---------------------------------------------------------------------------------------
  // Libraries

  /** The feature-to-library table. */
  const LibraryMap: map<string, Library> := map[
    "Authentication" := Library("Auth0", "Authentication and authorization platform", "https://auth0.com"),
    "Database Storage" := Library("Prisma", "Next-generation ORM for Node.js and TypeScript", "https://www.prisma.io"),
    "API Integration" := Library("Axios", "Promise-based HTTP client", "https://axios-http.com"),
    "Real-time Updates" := Library("Socket.IO", "Real-time bidirectional event-based communication", "https://socket.io"),
    "File Upload" := Library("Multer", "Middleware for handling multipart/form-data", "https://github.com/expressjs/multer"),
    "Search Functionality" := Library("Elasticsearch", "Distributed search and analytics engine", "https://www.elastic.co"),
    "Analytics" := Library("Google Analytics", "Web analytics service", "https://analytics.google.com"),
    "Payment Processing" := Library("Stripe", "Online payment processing", "https://stripe.com")
  ]

  const Lodash := Library("Lodash", "JavaScript utility library", "https://lodash.com")
  const Redis := Library("Redis", "In-memory data structure store", "https://redis.io")

  /** The general libraries; only the first two are ever appended. */
  const AdditionalLibraries: seq<Library> := [
    Lodash,
    Redis,
    Library("Jest", "JavaScript testing framework", "https://jestjs.io"),
    Library("Docker", "Containerization platform", "https://www.docker.com")
  ]

  /** The filter predicate `feature => libraryMap[feature]`: a table entry exists. */
  function IsKnown(): string -> bool
  {
    feature => feature in LibraryMap
  }

  /** The features the table knows, in input order and with repetitions. */
  function KnownFeatures(features: seq<string>): (known: seq<string>)
    ensures forall i :: 0 <= i < |known| ==> known[i] in LibraryMap
    ensures forall f :: multiset(known)[f] == if f in LibraryMap then multiset(features)[f] else 0
  {
    Filter(features, IsKnown())
  }

  /** `getLibrariesByFeatures`: the table entry of every known feature, in input order, then
      Lodash and Redis. */
  function LibrariesByFeatures(features: seq<string>): (r: seq<Library>)
    ensures |r| == |KnownFeatures(features)| + 2
    ensures forall i :: 0 <= i < |KnownFeatures(features)| ==> r[i] == LibraryMap[KnownFeatures(features)[i]]
    ensures r[|r| - 2..] == [Lodash, Redis]
  {
    var known := KnownFeatures(features);
    seq(|known|, i requires 0 <= i < |known| => LibraryMap[known[i]]) + AdditionalLibraries[..2]
  }

  /** The form's catalog is exactly the table's key set. */
  lemma CatalogIsLibraryKeys()
    ensures forall f :: f in CommonFeatures <==> f in LibraryMap
  {
  }

  /** Every feature list the form can produce yields one library per feature plus two. */
  lemma FormFeaturesAllMapped(r: ProjectRequirements)
    requires FormInvariant(r)
    ensures KnownFeatures(r.features) == r.features
    ensures |LibrariesByFeatures(r.features)| == |r.features| + 2
  {
    CatalogIsLibraryKeys();
    FilterKeepsAll(r.features, IsKnown());
  }

  // ---------------------------------------------------------------------------------------
  // Deployment

  const MediumDeployment: seq<DeploymentOption> := [
    DeploymentOption("AWS Elastic Beanstalk", "Easy to use service for deploying and scaling web applications", "$20-100/month"),
    DeploymentOption("Heroku", "Cloud platform that lets you build, deliver, monitor and scale apps", "$25-500/month"),
    DeploymentOption("Digital Ocean", "Cloud infrastructure provider", "$5-200/month")
  ]

  const LowDeployment: seq<DeploymentOption> := [
    DeploymentOption("Shared Hosting", "Traditional web hosting with shared resources", "$5-20/month"),
    DeploymentOption("Vercel", "Platform for frontend frameworks and static sites", "Free to $20+/month"),
    DeploymentOption("Netlify", "Platform for modern web projects", "Free to $45+/month")
  ]

  const HighDeployment: seq<DeploymentOption> := [
    DeploymentOption("AWS ECS/EKS", "Container orchestration services", "$100-1,000/month"),
    DeploymentOption("Google Kubernetes Engine", "Managed Kubernetes service", "$100-1,000/month"),
    DeploymentOption("Azure App Service", "Fully managed platform for building web apps", "$50-500/month")
  ]

  const EnterpriseDeployment: seq<DeploymentOption> := [
    DeploymentOption("Multi-Cloud Kubernetes", "Distributed across multiple cloud providers", "$1,000-10,000+/month"),
    DeploymentOption("Custom Data Center", "On-premise or colocation solutions", "$10,000+/month"),
    DeploymentOption("AWS Global Accelerator + CloudFront", "Global network and content delivery service", "$1,000-5,000+/month")
  ]

  /** `getDeploymentByScalability`: three options per tier; an unknown tier gets the medium list. */
  function DeploymentByScalability(scalability: string): (r: seq<DeploymentOption>)
    ensures |r| == 3
    ensures scalability != "low" && scalability != "high" && scalability != "enterprise" ==> r == MediumDeployment
  {
    match scalability
    case "low" => LowDeployment
    case "medium" => MediumDeployment
    case "high" => HighDeployment
    case "enterprise" => EnterpriseDeployment
    case _ => MediumDeployment
  }

  /** Any tier outside the four named ones is served like "medium". */
  lemma UnknownTierIsMedium(scalability: string)
    requires scalability !in ["low", "medium", "high", "enterprise"]
    ensures DeploymentByScalability(scalability) == DeploymentByScalability("medium")
  {
  }

  // ---------------------------------------------------------------------------------------
  // Pros and cons

  const MicroservicesPros: seq<string> := [
    "Independent deployment of services", "Easier to scale specific components",
    "Technology diversity for different services", "Improved fault isolation",
    "Better aligned with business domains"]
  const MonolithicPros: seq<string> := [
    "Simpler development process", "Easier to test and debug", "Less operational complexity",
    "Lower initial development costs", "Simplified deployment"]
  const CleanPros: seq<string> := [
    "Strong separation of concerns", "Highly testable code", "Independent of frameworks",
    "Independent of UI", "Independent of database"]
  const EventDrivenPros: seq<string> := [
    "Highly scalable and responsive", "Loose coupling between components",
    "Better real-time capabilities", "Easy to add new subscribers", "Improved resilience"]
  const FallbackPros: seq<string> := [
    "Modular and maintainable", "Scalable design", "Follows industry best practices",
    "Well-documented patterns", "Strong community support"]

  /** `getProsForPattern`: five strings, chosen by the pattern name alone. */
  function ProsForPattern(pattern: string): (r: seq<string>)
    ensures |r| == 5
  {
    match pattern
    case "Microservices" => MicroservicesPros
    case "Monolithic MVC" => MonolithicPros
    case "Clean Architecture" => CleanPros
    case "Event-Driven Architecture" => EventDrivenPros
    case _ => FallbackPros
  }

  const MicroservicesCons: seq<string> := [
    "Increased operational complexity", "Network latency between services",
    "Data consistency challenges", "Higher initial development cost",
    "More difficult to debug across services"]
  const MonolithicCons: seq<string> := [
    "Harder to scale as application grows", "Technology stack is fixed", "Reduced fault isolation",
    "More difficult to understand as size grows", "Harder to maintain over time"]
  const CleanCons: seq<string> := [
    "More boilerplate code initially", "Steeper learning curve",
    "Can be overkill for simple applications", "Requires discipline to maintain boundaries",
    "More initial planning required"]
  const EventDrivenCons: seq<string> := [
    "Eventual consistency challenges", "More difficult to test", "Harder to track event flows",
    "Potential for event storms", "Requires careful event design"]
  const FallbackCons: seq<string> := [
    "Implementation complexity", "Requires careful planning",
    "May need refactoring as requirements change", "Training required for team members",
    "Integration challenges with legacy systems"]

  /** `getConsForPattern`: five strings, chosen by the pattern name alone. */
  function ConsForPattern(pattern: string): (r: seq<string>)
    ensures |r| == 5
  {
    match pattern
    case "Microservices" => MicroservicesCons
    case "Monolithic MVC" => MonolithicCons
    case "Clean Architecture" => CleanCons
    case "Event-Driven Architecture" => EventDrivenCons
    case _ => FallbackCons
  }

  // ---------------------------------------------------------------------------------------
  // The search query and the whole recommendation

  /** The query handed to the search: `<type> application with <features joined by ", "> features`. */
  function SearchQuery(r: ProjectRequirements): (q: string)
    ensures |r.projectType| + 12 <= |q|
    ensures q[|r.projectType|..|r.projectType| + 12] == " application"
  {
    r.projectType + " application with " + Join(r.features, ", ") + " features"
  }

  /** The lower-cased query still mentions "application". */
  lemma QueryMentionsApplication(r: ProjectRequirements)
    ensures Contains(Lower(SearchQuery(r)), "application")
  {
    var q := SearchQuery(r);
    var i := |r.projectType| + 1;
    forall k | 0 <= k < 11 ensures Lower(q)[i + k] == "application"[k] {
      assert q[i + k] == " application"[k + 1];
    }
    assert Lower(q)[i..i + 11] == "application";
    assert OccursAt(Lower(q), "application", i);
  }

  /** `generateArchitectureRecommendation`, without the log line and the simulated delay. The
      search is called without a model argument, so it runs the default model
      (`SearchService.OmittedModelIsDefault`). */
  function GenerateArchitectureRecommendation(r: ProjectRequirements): (rec: ArchitectureRecommendation)
    ensures PatternChoice(rec.pattern, rec.description) == ChoosePattern(r)
    ensures PatternChoice(rec.pattern, rec.description) in Patterns
    ensures rec.frameworks == FrameworksByProjectType(r.projectType)
    ensures rec.libraries == LibrariesByFeatures(r.features)
    ensures rec.deployment == DeploymentByScalability(r.scalability)
    ensures rec.pros == ProsForPattern(rec.pattern) && rec.cons == ConsForPattern(rec.pattern)
    ensures |rec.frameworks| == 3 && |rec.deployment| == 3 && |rec.pros| == 5 && |rec.cons| == 5
    ensures |rec.libraries| == |KnownFeatures(r.features)| + 2
    ensures rec.libraries[|rec.libraries| - 2..] == [Lodash, Redis]
    ensures rec.searchResults == SearchService.DefaultRanking(SearchQuery(r))
    ensures rec.diagram == "placeholder"
  {
    var query := SearchQuery(r);
    var choice := ChoosePattern(r);
    ArchitectureRecommendation(
      choice.pattern,
      choice.description,
      FrameworksByProjectType(r.projectType),
      LibrariesByFeatures(r.features),
      DeploymentByScalability(r.scalability),
    "placeholder",
      ProsForPattern(choice.pattern),
      ConsForPattern(choice.pattern),
      SearchService.DefaultRanking(query))
  }

  /** The engine's query always draws the default model's mobile record, so every
      recommendation's search results include it. */
  lemma QueryDrawsMobileRecord(r: ProjectRequirements)
    ensures SearchService.DefaultMobile in SearchService.DefaultRanking(SearchQuery(r))
  {
    QueryMentionsApplication(r);
    SearchService.ApplicationDrawsMobileRecord(SearchQuery(r));
  }
}
