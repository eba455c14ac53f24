# Architecture designer: the recommendation core, verified

The repository is a web front end. A user describes a project on a requirements page, and the
application answers with an architecture recommendation. The recommendation has a pattern,
frameworks, libraries, deployment options, pros and cons, and canned "search" results. A
separate template engine can draw five kinds of PlantUML diagram.

This project models the logic behind those screens as Dafny and proves what it promises:

- `ArchitectureService` (`architecture_service.dfy`): the first-match pattern chain and the
  fixed lookup tables for frameworks, libraries, deployment tiers and pros/cons. It also builds
  the search query string.
- `SearchService` (`search_service.dfy`): the three simulated models. Each generator is a
  method that pushes records under substring keyword tests and then sorts them (an insertion
  sort proved ranked and a permutation). A uniqueness lemma ties each generator to a reference
  ranking: a selection from the model's catalog, which is in strictly descending relevance.
  Scores are integer hundredths (0.85 is 85).
- `DiagramService` (`diagram_service.dfy`): the five generators and the dispatch on the
  diagram type. The generators are methods that accumulate lines, each proved equal to a line
  function. The PlantUML text is those lines joined by line breaks.
- `RequirementsForm` (`requirements_form.dfy`): the form's record, field updater, feature
  toggle and feature catalog.
- `RequirementsPage` (`requirements_page.dfy`): the page's own record, its updaters, the
  project-name check on submit and the `FEATURES` catalog.
- `ResultsPage` (`results_page.dfy`): the progress counter, the four step flags, the diagram
  tab switch and the two label lookups.
- `Seqs`, `Options`, `Text` (`seqs.dfy`, `text.dfy`): `filter`, `map`, `includes`,
  `toLowerCase`, `join`, `trim` and whitespace removal, as the core uses them.

The requirements page does not produce what the engine reads. It offers the project types `web`
and `ai` and stores `scale`, while the engine tests `webapp`, `ml` and `scalability`. Its feature
ids (`auth`, `realtime`, ...) are not the engine's feature names either. The model keeps these
as plain strings. `RequirementsPage.PageRecordRecommendation` proves the consequence: a record
from that page never gets the monolith or the event-driven pattern, gets no feature library,
and gets the medium deployment tier.

The use-case groups for "API Integration" and "Search Functionality" push one use case each
(src/services/diagramService.ts:152-158); the other three groups push two or three.

## Model

| member | source | states |
|---|---|---|
| ArchitectureService.ChoosePattern | src/services/architectureService.ts:21-34 | The pattern is one of the four, with its paired description. A low-scale webapp is the monolith, in both directions, whatever the features. Otherwise a mobile project is clean architecture, in both directions. Event-driven holds exactly when neither earlier rule fires and "Real-time Updates" is listed. |
| ArchitectureService.NoRuleMeansMicroservices | src/services/architectureService.ts:21-34 | When no rule of the chain matches, the result is microservices. |
| ArchitectureService.FrameworksByProjectType | src/services/architectureService.ts:63-150 | Always three frameworks, each rated 1 to 10. An API project gets Express.js, FastAPI and Spring Boot, in that order. Any type other than mobile, api and ml gets the general list. |
| ArchitectureService.GeneralFrameworksHoldSpringBootOnce | src/services/architectureService.ts:122 | Filtering the general list by the name "Spring Boot" gives exactly the one Spring Boot entry. |
| ArchitectureService.KnownFeatures | src/services/architectureService.ts:219-220 | The features kept by `filter(feature => libraryMap[feature])` are all table keys. Each key keeps its multiplicity, and unknown names are dropped. |
| ArchitectureService.LibrariesByFeatures | src/services/architectureService.ts:152-225 | One table entry per known feature, in input order, followed by exactly [Lodash, Redis]. The length is the number of known features plus two. |
| ArchitectureService.CatalogIsLibraryKeys | src/components/RequirementsForm.tsx:57-66 | The form's `commonFeatures` are exactly the keys of the engine's library table. |
| ArchitectureService.FormFeaturesAllMapped | src/services/architectureService.ts:219-224 | For any feature list the form can produce, every feature is known, so there is one library per feature plus two. |
| ArchitectureService.DeploymentByScalability | src/services/architectureService.ts:227-320 | Always three options. A tier other than low, high or enterprise gets the medium list. |
| ArchitectureService.UnknownTierIsMedium | src/services/architectureService.ts:227-320 | A tier outside the four named ones is served exactly like "medium". |
| ArchitectureService.ProsForPattern | src/services/architectureService.ts:322-365 | Five pros, chosen by the pattern name alone. |
| ArchitectureService.ConsForPattern | src/services/architectureService.ts:367-410 | Five cons, chosen by the pattern name alone. |
| ArchitectureService.SearchQuery | src/services/architectureService.ts:13 | The query starts with the project type, followed immediately by " application". |
| ArchitectureService.QueryMentionsApplication | src/services/architectureService.ts:13 | The lower-cased query contains "application" whatever the requirements. |
| ArchitectureService.GenerateArchitectureRecommendation | src/services/architectureService.ts:7-60 | The pattern and description are the rule chain's pick (`ChoosePattern`), so its precedence facts hold of the recommendation. The frameworks, libraries and deployment options are the lookups on the project type, the features and the scalability; the pros and cons are the lookups on the chosen pattern. There are 3 frameworks, 3 deployment options, 5 pros and 5 cons. The libraries are the known features plus two, ending in [Lodash, Redis]. The search results are the default model's ranking of the query. The diagram is the placeholder. |
| ArchitectureService.QueryDrawsMobileRecord | src/services/architectureService.ts:13-14 | The engine's own query always brings the default model's mobile record into the search results. |
| SearchService.InsertByRelevance | src/services/searchService.ts:80 | Inserting into a ranked list keeps it ranked and adds exactly that record. |
| SearchService.SortByRelevance | src/services/searchService.ts:80 | `results.sort` by descending score: the output is ranked and is a permutation of the input. |
| SearchService.RankedUnique | src/services/searchService.ts:80 | With pairwise distinct scores, a ranked permutation equals the strictly ranked one, so the sorted order is fully determined. |
| SearchService.SelectRankedStrictly | src/services/searchService.ts:80 | Any selection from a strictly ranked catalog is strictly ranked. |
| SearchService.SelectLength | src/services/searchService.ts:146-195 | A selection holds one record per set flag. |
| SearchService.SelectKeepsLast | src/services/searchService.ts:72-78 | When the last flag is set, the selection ends with the catalog's last record. |
| SearchService.CatalogsRankedStrictly | src/services/searchService.ts:49-193 | Each model's records, listed by score, have strictly descending relevance. |
| SearchService.DefaultRanking | src/services/searchService.ts:141-198 | The default output is strictly ranked. It ends with the general record (85), which occurs exactly once. |
| SearchService.DeepseekRanking | src/services/searchService.ts:38-81 | The DeepSeek Coder output is strictly ranked. It ends with the general record (89), which occurs exactly once. |
| SearchService.Llama3Ranking | src/services/searchService.ts:84-138 | The Llama 3 output is strictly ranked. It ends with the general record (90), which occurs exactly once. |
| SearchService.DefaultSortedPushes | src/services/searchService.ts:141-197 | Any ranked arrangement of the default pushes (web, mobile, auth, payment, general) is the default ranking. |
| SearchService.DeepseekSortedPushes | src/services/searchService.ts:38-80 | Any ranked arrangement of the DeepSeek pushes is the DeepSeek ranking. |
| SearchService.LlamaSortedPushes | src/services/searchService.ts:84-137 | Any ranked arrangement of the Llama 3 pushes is the Llama 3 ranking. |
| SearchService.GenerateDefaultResults | src/services/searchService.ts:141-198 | The pushes under the four keyword tests, then the sort, give exactly the default ranking of the query. |
| SearchService.GenerateDeepseekCoderResults | src/services/searchService.ts:38-81 | The pushes, then the sort, give exactly the DeepSeek ranking. |
| SearchService.GenerateLlama3Results | src/services/searchService.ts:84-138 | The pushes, then the sort, give exactly the Llama 3 ranking. |
| SearchService.SearchRanking | src/services/searchService.ts:28-34 | Any model name other than deepseek-coder and llama-3 takes the default branch. Every branch is strictly ranked. |
| SearchService.SearchProjectInformation | src/services/searchService.ts:16-35 | The dispatch returns the ranking of the named model, and of "default" when no model is given. |
| SearchService.OmittedModelIsDefault | src/services/searchService.ts:18 | Leaving the model out gives the default model's ranking. |
| SearchService.SearchIgnoresCase | src/services/searchService.ts:40-143 | Searching for the lower-cased query gives the same results as the query itself, for every model. |
| SearchService.MatchedGroups | src/services/searchService.ts:146-178 | Entry i says whether the lower-cased query mentions a keyword of group i. |
| SearchService.DefaultResultCount | src/services/searchService.ts:146-195 | The default output has one record per matched group (web, mobile, auth, payment) plus the general one, so at most five. |
| SearchService.ApplicationMentionsMobile | src/services/searchService.ts:157 | Keywords match as substrings, so a text containing "application" mentions the mobile keyword "app". |
| SearchService.ApplicationDrawsMobileRecord | src/services/searchService.ts:157-165 | A query containing "application" always brings the default model's mobile record. |
| SearchService.ApplicationDrawsLlamaMobileRecord | src/services/searchService.ts:99-107 | The same holds for the Llama 3 model's mobile record. |
| DiagramService.Header | src/services/diagramService.ts:57-62 | The header starts with "@startuml". It puts the title line after the theme, background and skin lines. |
| DiagramService.FramedCode | src/services/diagramService.ts:57-102 | Lines that open with "@startuml" and close with "@enduml" join into text that starts and ends with them. |
| DiagramService.AppendEach | src/services/diagramService.ts:177-186 | A `forEach` that appends one line per item appends exactly the mapped items, in order. |
| DiagramService.FlowchartLines | src/services/diagramService.ts:57-102 | The flowchart template opens with "@startuml", closes with "@enduml", and its sixth line is the title line with the given title or "System Flow Diagram". |
| DiagramService.GenerateFlowchartDiagram | src/services/diagramService.ts:55-126 | The accumulated flowchart text is the flowchart line list joined. The SVG carries the title and the type "flowchart". |
| DiagramService.FlowchartStepsInPlace | src/services/diagramService.ts:77-99 | The feature steps sit exactly between ":Process Request;" and ":Return Response;". |
| DiagramService.FlowchartStepsExample | src/services/diagramService.ts:82-97 | An example: with "File Upload" listed before "Database Storage", the database step still comes first. |
| DiagramService.FlowchartStepsIgnoreOrder | src/services/diagramService.ts:82-97 | For every project type and every two feature lists naming the same features, in any order and with any repetitions, the flowchart steps are the same. |
| DiagramService.UseCases | src/services/diagramService.ts:132-164 | The use cases are never empty. With no feature use cases they are the three generic ones. Otherwise the groups contribute 3, 3, 2, 1 and 1 entries. |
| DiagramService.CollectUseCases | src/services/diagramService.ts:132-159 | The pushes under the five feature tests build exactly the feature use cases, in group order. |
| DiagramService.AppendUseCaseBody | src/services/diagramService.ts:176-202 | The actors, the use cases and the edges are appended exactly as the use-case body lists them. |
| DiagramService.AppendUseCaseEdges | src/services/diagramService.ts:190-202 | The edges are appended exactly as specified: user edges, then the admin's first and third. |
| DiagramService.UseCaseLines | src/services/diagramService.ts:167-204 | The use-case template opens with "@startuml", closes with "@enduml", and its sixth line is the title line with the given title or "Use Case Diagram". |
| DiagramService.GenerateUseCaseDiagram | src/services/diagramService.ts:129-251 | The accumulated use-case text is the use-case line list joined. The SVG carries the title and the type "usecase". |
| DiagramService.UseCaseEdgeCounts | src/services/diagramService.ts:191-202 | There is one "User --> " line per use case exactly when User is an actor. The admin has one edge, or two when there are more than two use cases, exactly when Admin is an actor. |
| DiagramService.EdgeCounts | src/services/diagramService.ts:191-202 | Within the edges alone, the same counts hold. |
| Text.StripWhitespaceKeepsVisible | src/services/diagramService.ts:178-185 | Identifiers lose every whitespace character and keep every other character as often as it occurs. |
| DiagramService.CollectComponents | src/services/diagramService.ts:256-288 | The pushes build exactly Frontend and Backend, then the type's components, then the feature components. |
| DiagramService.AppendComponentRelations | src/services/diagramService.ts:307-335 | Each arrow is appended exactly when its component is drawn. The client route goes through the API gateway for a mobile client and from Frontend to Backend otherwise. |
| DiagramService.ComponentLines | src/services/diagramService.ts:291-337 | The component template opens with "@startuml", closes with "@enduml", and its sixth line is the title line with the given title or "Component Diagram". |
| DiagramService.GenerateComponentDiagram | src/services/diagramService.ts:254-372 | The accumulated component text is the component line list joined. The SVG carries the title and the type "component". |
| DiagramService.ComponentsBeginWithFrontendAndBackend | src/services/diagramService.ts:259-303 | The first two component lines are "[Frontend]" and "[Backend]". |
| DiagramService.ClientRouteInRelations | src/services/diagramService.ts:312-317 | The mobile route is among the arrows exactly when a mobile client is drawn. The Frontend-to-Backend arrow is there exactly when it is not. |
| DiagramService.ExactlyOneClientRoute | src/services/diagramService.ts:266-317 | In the whole diagram, the mobile route appears exactly for a mobile project, and the Frontend-to-Backend arrow exactly otherwise. |
| DiagramService.SequenceLines | src/services/diagramService.ts:377-436 | The sequence template opens with "@startuml", closes with "@enduml", and its fifth line is the title line with the given title or "Sequence Diagram". |
| DiagramService.GenerateSequenceDiagram | src/services/diagramService.ts:375-485 | The accumulated sequence text is the sequence line list joined. The SVG carries the title and the type "sequence". |
| DiagramService.SequenceShowsFeatures | src/services/diagramService.ts:389-429 | The participant for Auth Service, Database or External API is declared exactly when its request and response are exchanged, and both exactly when the feature is listed. |
| DiagramService.AuthShown | src/services/diagramService.ts:390-415 | The auth participant and its two messages are drawn exactly when "Authentication" is listed. |
| DiagramService.DatabaseShown | src/services/diagramService.ts:394-421 | The database participant and its two messages are drawn exactly when "Database Storage" is listed. |
| DiagramService.ApiShown | src/services/diagramService.ts:398-427 | The external API participant and its two messages are drawn exactly when "API Integration" is listed. |
| DiagramService.SequenceFlowFrame | src/services/diagramService.ts:405-434 | The flow opens with "User -> FE: Request" and "FE -> BE: API Call". It closes with "BE --> FE: Response" and "FE --> User: Display Result". The feature exchanges lie between, and nothing else does. |
| DiagramService.ClassLines | src/services/diagramService.ts:490-613 | The class template opens with "@startuml", closes with "@enduml", and its fifth line is the title line with the given title or "Class Diagram". |
| DiagramService.GenerateClassDiagram | src/services/diagramService.ts:488-665 | The accumulated class text is the class line list joined. The SVG carries the title and the type "class". |
| DiagramService.ClassDiagramDeclaresUserAndApplication | src/services/diagramService.ts:499-514 | Every class diagram declares the User and the Application classes. |
| DiagramService.TypeClassesDeclareApiClient | src/services/diagramService.ts:515-576 | The project type's block declares ApiClient once for webapp and mobile, and not at all otherwise. |
| DiagramService.ApiClientDeclaredOnce | src/services/diagramService.ts:499-613 | The whole class diagram declares ApiClient once for a webapp or mobile project and never otherwise. |
| DiagramService.ParseType | src/services/diagramService.ts:38-51 | A known type name maps to its own type. Any other name maps to the flowchart. |
| DiagramService.ParseTypeName | src/services/diagramService.ts:38-51 | Type names and types correspond one to one. |
| DiagramService.Diagram | src/services/diagramService.ts:38-51 | What the dispatch returns: the reported type is the requested one when it is one of the five, "flowchart" otherwise, and the SVG carries the same type. |
| DiagramService.GenerateDiagramFromRequirements | src/services/diagramService.ts:26-52 | The switch returns the generator of the requested type, and the flowchart generator for unknown types. |
| DiagramService.DiagramIsFramed | src/services/diagramService.ts:57-613 | Every diagram's code starts with "@startuml" and ends with "@enduml". It contains the title line with the given title, or the type's default title when the given one is empty. |
| DiagramService.FlowchartIsComplete | src/services/diagramService.ts:57-102 | The flowchart lines join into a complete document with its title line. |
| DiagramService.UseCaseIsComplete | src/services/diagramService.ts:167-204 | The use-case lines join into a complete document with its title line. |
| DiagramService.ComponentIsComplete | src/services/diagramService.ts:291-337 | The component lines join into a complete document with its title line. |
| DiagramService.SequenceIsComplete | src/services/diagramService.ts:377-436 | The sequence lines join into a complete document with its title line. |
| DiagramService.ClassIsComplete | src/services/diagramService.ts:490-613 | The class lines join into a complete document with its title line. |
| DiagramService.DiagramTypeFallsBack | src/services/diagramService.ts:38-51 | The reported type (set at lines 124, 249, 370, 483 and 663) is a known one and matches the SVG. It is the requested type when that is known. An unknown request gives exactly the flowchart diagram. |
| DiagramService.SvgIgnoresRequirements | src/services/diagramService.ts:105-119 | The SVG never depends on the requirements, here and in the other four templates. Its title is the given title or the type's default. |
| RequirementsForm.HandleChange | src/components/RequirementsForm.tsx:38-40 | The named field takes the value. Every other field, and the feature list, is unchanged. |
| RequirementsForm.ToggleFeature | src/components/RequirementsForm.tsx:44-46 | The toggled feature is listed afterwards exactly when it was not listed before. Every other feature is listed afterwards exactly when it was before. |
| RequirementsForm.ToggleFlipsMembership | src/components/RequirementsForm.tsx:42-50 | Toggling flips whether the feature is listed. The count of every other feature is unchanged. |
| RequirementsForm.RemoveAppended | src/components/RequirementsForm.tsx:44-46 | Removing a feature just appended gives back the original list. |
| RequirementsForm.ToggleRemovesInPlace | src/components/RequirementsForm.tsx:44-45 | Unchecking a feature listed once removes exactly that entry and keeps the others in order. |
| RequirementsForm.ToggleTwiceRestores | src/components/RequirementsForm.tsx:42-50 | Toggling an absent feature twice restores the list. |
| RequirementsForm.ToggleKeepsNoDuplicates | src/components/RequirementsForm.tsx:42-50 | Toggling keeps a duplicate-free list duplicate-free. |
| RequirementsForm.HandleFeatureToggle | src/components/RequirementsForm.tsx:42-50 | Only the feature list changes, and it changes by the toggle. |
| RequirementsForm.InitialSatisfiesInvariant | src/components/RequirementsForm.tsx:27-36 | The initial state has scalability "medium" and no features, and satisfies the form invariant. |
| RequirementsForm.HandleChangePreservesInvariant | src/components/RequirementsForm.tsx:38-40 | Field updates keep the feature list within the catalog and duplicate-free. |
| RequirementsForm.HandleFeatureTogglePreservesInvariant | src/components/RequirementsForm.tsx:42-66 | Toggling a catalog feature keeps the feature list within the catalog and duplicate-free. |
| RequirementsPage.InitialPageRequirements | src/pages/RequirementsPage.tsx:37-47 | The initial record has type "web", scale "medium" and no features. Its description is the carried-over idea and its project name is non-empty. |
| RequirementsPage.UpdateField | src/pages/RequirementsPage.tsx:50-58 | The named field takes the value. Every other field, and the feature list, is unchanged. |
| RequirementsPage.HandleFeatureToggle | src/pages/RequirementsPage.tsx:61-68 | Only the feature list changes, and it changes by the same toggle as the form's. |
| RequirementsPage.ToggleRemovesOrAppends | src/pages/RequirementsPage.tsx:63-65 | A present feature has every copy removed and the rest kept in order. An absent feature is appended. |
| RequirementsPage.HandleSubmit | src/pages/RequirementsPage.tsx:70-79 | Submission is rejected exactly when the project name is all whitespace (empty after trimming). Otherwise the record is stored unchanged. |
| RequirementsPage.SubmitExamples | src/pages/RequirementsPage.tsx:37-76 | The initial name passes the check, and a name of spaces is rejected. |
| RequirementsPage.ChoicesMissEngineNames | src/pages/RequirementsPage.tsx:153-202 | The type drop-down never offers "webapp" or "ml". The initial type and scale are offered values. |
| RequirementsPage.FeatureIdsDistinct | src/pages/RequirementsPage.tsx:384-395 | The ten `FEATURES` ids are the catalog's ids, in order, and pairwise distinct. |
| RequirementsPage.FeatureIdsNotLibraryKeys | src/pages/RequirementsPage.tsx:384-395 | No page feature id is a key of the engine's library table. |
| RequirementsPage.InitialSatisfiesInvariant | src/pages/RequirementsPage.tsx:37-47 | The initial record's features are catalog ids without duplicates. |
| RequirementsPage.UpdateFieldPreservesInvariant | src/pages/RequirementsPage.tsx:50-58 | Field updates keep that invariant. |
| RequirementsPage.HandleFeatureTogglePreservesInvariant | src/pages/RequirementsPage.tsx:61-68 | Toggling a catalog id keeps that invariant. |
| RequirementsPage.AsEngineRequirements | src/components/RequirementsForm.tsx:11-20 | The stored record read as the engine's record keeps the type and the features. Scalability, timeline and team are missing. |
| RequirementsPage.PageRecordRecommendation | src/services/architectureService.ts:21-47 | A page-produced record gets clean architecture for "mobile" and microservices otherwise. It gets exactly [Lodash, Redis] as libraries and the medium deployment tier. |
| ResultsPage.NextProgress | src/pages/ResultsPage.tsx:43-49 | The updater returns 100 from 100 on, and prev + 5 below it. |
| ResultsPage.NextProgressPreservesValue | src/pages/ResultsPage.tsx:43-49 | The updater keeps the counter a multiple of 5 within 0..100. It strictly advances below 100 and stays at 100. |
| ResultsPage.AnimateProgress | src/pages/ResultsPage.tsx:24-50 | After any number of interval firings from 0, the counter is min(5 times the firings, 100), a multiple of 5 in 0..100. |
| ResultsPage.ProgressReachesHundred | src/pages/ResultsPage.tsx:42-50 | The counter reaches 100 exactly after twenty firings, and advances by 5 before that. |
| ResultsPage.IsActive | src/pages/ResultsPage.tsx:113-139 | A step's `isActive` flag: an active step is below 100 and not complete. |
| ResultsPage.IsComplete | src/pages/ResultsPage.tsx:113-139 | A step's `isComplete` flag: every step is complete from 100 on, and none is complete below 30. |
| ResultsPage.ExactlyOneActive | src/pages/ResultsPage.tsx:117-139 | Below 100 exactly one step is active, the current one. At 100 and above none is. |
| ResultsPage.CompleteBeforeCurrent | src/pages/ResultsPage.tsx:117-139 | A step is complete exactly when the counter is at 100 or the step comes before the current one. No step is both active and complete. |
| ResultsPage.AllCompleteAtHundred | src/pages/ResultsPage.tsx:117-139 | At 100 every step is complete and none is active. |
| ResultsPage.SelectDiagram | src/pages/ResultsPage.tsx:165-187 | Without diagrams there is nothing to show. "usecase" selects the useCase slot, and the other known tabs select their own slots. An unknown tab selects the flowchart. |
| ResultsPage.SelectionMatchesDispatch | src/pages/ResultsPage.tsx:165-187 | For a full set drawn by the diagram service, every tab, unknown ones included, shows exactly the diagram the service's dispatch produces for that tab name. |
| ResultsPage.FormatProjectType | src/pages/ResultsPage.tsx:761-771 | `formatProjectType`: a known type shows its caption; any other value is shown unchanged. |
| ResultsPage.FormatScale | src/pages/ResultsPage.tsx:773-780 | `formatScale`: a known scale shows its caption; any other value is shown unchanged. |
| ResultsPage.LabelOr | src/pages/ResultsPage.tsx:771-780 | A known key with a non-empty label shows that label. An unknown key is shown unchanged. |
| ResultsPage.FormatIdempotent | src/pages/ResultsPage.tsx:761-781 | Formatting an already formatted type or scale changes nothing. |
| ResultsPage.LabelsMatchChoices | src/pages/ResultsPage.tsx:761-781 | Every project type and scale the requirements page offers is shown with the caption it had in the drop-down. |
| Text.Lower | src/services/searchService.ts:40-143 | Lower-casing keeps the length and maps each character. |
| Text.LowerIdempotent | src/services/searchService.ts:40-143 | Lower-casing twice is lower-casing once. |
| Text.ContainsLower | src/services/searchService.ts:43 | An occurrence stays an occurrence after both sides are lower-cased. |
| Text.Join | src/services/architectureService.ts:13 | `join(sep)`: the joined text starts with the first part, and when there are two or more parts the separator follows it. |
| Text.JoinEndsWith | src/services/architectureService.ts:13 | A joined list ends with its last part. |
| Text.StripWhitespace | src/services/diagramService.ts:178 | `replace(/\s/g, '')`: the result is no longer than the input and holds no whitespace character. |
| Text.StripWhitespaceIsFilter | src/services/diagramService.ts:178 | `replace(/\s/g, '')` is the filter keeping the non-whitespace characters. |
| Text.StripWhitespaceIdempotent | src/services/diagramService.ts:185 | Removing whitespace twice removes nothing more. |
| Text.Trim | src/pages/RequirementsPage.tsx:73 | `trim()`: the result is no longer than the input and neither starts nor ends with whitespace. |
| Text.TrimCutsOnlyWhitespace | src/pages/RequirementsPage.tsx:73 | What `trim()` keeps is a contiguous slice of the input, and what it cuts off before and after that slice is all whitespace. |
| Text.TrimEmptyIffBlank | src/pages/RequirementsPage.tsx:73 | A string trims to "" exactly when every character is whitespace. |
| Seqs.Filter | src/components/RequirementsForm.tsx:45 | `filter` keeps exactly the elements satisfying the predicate, with their multiplicities, and drops the rest. |
| Seqs.FilterConcat | src/components/RequirementsForm.tsx:45 | Filtering distributes over concatenation, so the survivors keep their relative order. |

## Left out

- Simulated latency (`setTimeout`), `console.log` and the async wrappers: every service is a plain function or method.
- Browser I/O: `sessionStorage`, `navigate`, the toasts, the clipboard and the loading flags. `RequirementsPage.HandleSubmit` returns what would be stored and does not store it.
- The `setInterval` scheduling, its cleanup and the `setProgress(100)` after the recommendation arrives. `ResultsPage.AnimateProgress` models the counter over a number of interval firings.
- The `Math.random` rating bars, all JSX and SVG markup, and the display-only components (the diagram templates, the visualization area, the header, the landing and input pages).
- The SVG strings: each is the symbolic `SvgTemplate(type, title)`, since the markup is fixed text with only the title interpolated.
- Relevance scores are integer hundredths, not floating point. Every score is a two-digit literal.
- Text.Lower: `toLowerCase` is modelled for the ASCII letters only. Keywords and table keys use only ASCII letters, but the query is free text. For one, U+0130 (capital I with dot above) lower-cases in JavaScript to two characters, "i" and a combining dot. So `"Aİ".toLowerCase()` contains the ML keyword "ai", while `Text.Lower` keeps "İ" and finds no match.
- Object-literal lookups (`libraryMap[feature]`, the label tables) are own-key maps. Inherited `Object.prototype` keys such as "constructor" are not modelled.
- `results.sort` runs on a `seq` as an insertion sort, not in place. The order is still fully determined, because scores within a model are distinct.
- `plantUmlCode` is a line list joined by "\n". Consecutive `+=` and `push` calls under one test are a single append.
- `DiagramOptions.description`, `elements` and `relationships` are never read by the generators and are not modelled.
- The diagram service's untyped `requirements` is reduced to `projectType` and the optional `features`. A missing feature list and an empty one are told apart.
- No code in the repository produces a recommendation with a `diagrams` field. `ResultsPage.DiagramSet` is therefore a standalone input to the tab switch.
- The fields the page never writes (`scalability`, `timeline`, `team`) are read by the engine as "". JavaScript's `undefined` does not reach any comparison in a way that differs.
- ArchitectureService.SearchQuery: its ensures states only that the project type is followed by " application". The rest of the template (features joined by ", ", then " features") is the function's definition and is not restated as a contract.
- ArchitectureService.ProsForPattern and ArchitectureService.ConsForPattern: the ensures state the length. The five strings per pattern are the table constants, not restated.
- Titles and actor names are assumed to hold no line break. `UseCaseEdgeCounts`, `ExactlyOneClientRoute`, `SequenceShowsFeatures` and `ApiClientDeclaredOnce` count or test entries of the line list. A caller-supplied title or actor name holding "\n" (such as an actor `x\nUser --> Login`) adds lines to the joined text that these lemmas do not see.
