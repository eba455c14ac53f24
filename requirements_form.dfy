/** The requirements record, its field updaters and the feature catalog of the requirements form. */
module RequirementsForm {
  import opened Seqs

  datatype ProjectRequirements = ProjectRequirements(
    projectName: string,
    description: string,
    projectType: string,
    scalability: string,
    features: seq<string>,
    budget: string,
    timeline: string,
    team: string)

  /** The keys `handleChange` is called with: the string-valued fields of the record. */
  datatype Field = ProjectName | Description | ProjectType | Scalability | Budget | Timeline | Team

  function Get(r: ProjectRequirements, f: Field): string
  {
    match f
    case ProjectName => r.projectName
    case Description => r.description
    case ProjectType => r.projectType
    case Scalability => r.scalability
    case Budget => r.budget
    case Timeline => r.timeline
    case Team => r.team
  }

  /** The form's state before any input. */
  const InitialRequirements := ProjectRequirements("", "", "", "medium", [], "", "", "")

  /** `handleChange(name, value)`: `{ ...prev, [name]: value }`. */
  function HandleChange(r: ProjectRequirements, name: Field, value: string): (r': ProjectRequirements)
    ensures Get(r', name) == value
    ensures forall f :: f != name ==> Get(r', f) == Get(r, f)
    ensures r'.features == r.features
  {
    match name
    case ProjectName => r.(projectName := value)
    case Description => r.(description := value)
    case ProjectType => r.(projectType := value)
    case Scalability => r.(scalability := value)
    case Budget => r.(budget := value)
    case Timeline => r.(timeline := value)
    case Team => r.(team := value)
  }

  /** The filter predicate `f => f !== feature`. */
  function Differs(feature: string): string -> bool
  {
    f => f != feature
  }

  /** `features.filter(f => f !== feature)`. */
  function RemoveFeature(features: seq<string>, feature: string): seq<string>
  {
    Filter(features, Differs(feature))
  }

  /** The feature-list update of both requirement forms: a present feature is removed
      (every occurrence), an absent one is appended. */
  function ToggleFeature(features: seq<string>, feature: string): (toggled: seq<string>)
    ensures feature in toggled <==> feature !in features
    ensures forall f :: f != feature ==> (f in toggled <==> f in features)
  {
    if feature in features then RemoveFeature(features, feature) else features + [feature]
  }

  /** Toggling flips the membership of the toggled feature and leaves the count of every
      other feature as it was. */
  lemma ToggleFlipsMembership(features: seq<string>, feature: string)
    ensures feature in ToggleFeature(features, feature) <==> feature !in features
    ensures forall f :: f != feature ==>
      multiset(ToggleFeature(features, feature))[f] == multiset(features)[f]
  {
    var r := ToggleFeature(features, feature);
    if feature in features {
      assert multiset(r)[feature] == 0;
    } else {
      assert multiset(r) == multiset(features) + multiset{feature};
    }
  }

  /** Removal distributes over concatenation. */
  lemma RemoveFeatureConcat(a: seq<string>, b: seq<string>, feature: string)
    ensures RemoveFeature(a + b, feature) == RemoveFeature(a, feature) + RemoveFeature(b, feature)
  {
    FilterConcat(a, b, Differs(feature));
  }

  /** Removing an absent feature changes nothing. */
  lemma RemoveAbsentFeature(features: seq<string>, feature: string)
    requires feature !in features
    ensures RemoveFeature(features, feature) == features
  {
    FilterKeepsAll(features, Differs(feature));
  }

  /** Removing the feature just appended gives back the list it was appended to. */
  lemma RemoveAppended(features: seq<string>, feature: string)
    requires feature !in features
    ensures RemoveFeature(features + [feature], feature) == features
  {
    RemoveFeatureConcat(features, [feature], feature);
    assert RemoveFeature([feature], feature) == [];
    RemoveAbsentFeature(features, feature);
  }

  /** Removing a feature that occurs once leaves the others in their order. */
  lemma RemoveOnce(before: seq<string>, feature: string, after: seq<string>)
    requires feature !in before && feature !in after
    ensures RemoveFeature(before + [feature] + after, feature) == before + after
  {
    RemoveFeatureConcat(before + [feature], after, feature);
    RemoveAppended(before, feature);
    RemoveAbsentFeature(after, feature);
  }

  /** Unchecking a feature that is listed once removes exactly that entry. */
  lemma ToggleRemovesInPlace(before: seq<string>, feature: string, after: seq<string>)
    requires feature !in before && feature !in after
    ensures ToggleFeature(before + [feature] + after, feature) == before + after
  {
    assert (before + [feature] + after)[|before|] == feature;
    RemoveOnce(before, feature, after);
  }

  /** Toggling an absent feature twice restores the list. */
  lemma ToggleTwiceRestores(features: seq<string>, feature: string)
    requires feature !in features
    ensures ToggleFeature(ToggleFeature(features, feature), feature) == features
  {
    assert (features + [feature])[|features|] == feature;
    RemoveAppended(features, feature);
  }

  /** Toggling keeps a duplicate-free list duplicate-free. */
  lemma ToggleKeepsNoDuplicates(features: seq<string>, feature: string)
    requires NoDuplicates(features)
    ensures NoDuplicates(ToggleFeature(features, feature))
  {
    var r := ToggleFeature(features, feature);
    if feature !in features {
      assert multiset(r) == multiset(features) + multiset{feature};
    }
  }

  /** `handleFeatureToggle(feature)`. */
  function HandleFeatureToggle(r: ProjectRequirements, feature: string): (r': ProjectRequirements)
    ensures r'.features == ToggleFeature(r.features, feature)
    ensures forall f :: Get(r', f) == Get(r, f)
  {
    r.(features := ToggleFeature(r.features, feature))
  }

  /** The checkboxes the form offers. */
  const CommonFeatures: seq<string> := [
    "Authentication",
    "Database Storage",
    "API Integration",
    "Real-time Updates",
    "File Upload",
    "Search Functionality",
    "Analytics",
    "Payment Processing"
  ]

  /** What every state the form can reach satisfies: the feature list holds catalog entries,
      each at most once. */
  ghost predicate FormInvariant(r: ProjectRequirements)
  {
    NoDuplicates(r.features) && forall i :: 0 <= i < |r.features| ==> r.features[i] in CommonFeatures
  }

  lemma InitialSatisfiesInvariant()
    ensures FormInvariant(InitialRequirements)
    ensures InitialRequirements.scalability == "medium" && InitialRequirements.features == []
  {
  }

  lemma HandleChangePreservesInvariant(r: ProjectRequirements, name: Field, value: string)
    requires FormInvariant(r)
    ensures FormInvariant(HandleChange(r, name, value))
  {
  }

  /** Toggling a catalog feature keeps the invariant. */
  lemma HandleFeatureTogglePreservesInvariant(r: ProjectRequirements, feature: string)
    requires FormInvariant(r) && feature in CommonFeatures
    ensures FormInvariant(HandleFeatureToggle(r, feature))
  {
    var fs := ToggleFeature(r.features, feature);
    ToggleKeepsNoDuplicates(r.features, feature);
    forall i | 0 <= i < |fs| ensures fs[i] in CommonFeatures {
      if fs[i] != feature {
        assert fs[i] in multiset(fs);
      }
    }
  }
}
