/** The canned project search: three simulated models, each gating fixed records on keywords
    of the lower-cased query, always adding one general record, and ranking by relevance. */
module SearchService {
  import opened Options
  import opened Seqs
  import opened Text

  /** A search hit. Relevance is kept in hundredths: every score of the source is a two-digit
      decimal literal, so 0.85 is 85. */
  datatype SearchResult = SearchResult(
    title: string,
    summary: string,
    source: string,
    relevanceScore: int,
    url: string)

  // ---------------------------------------------------------------------------------------
  // Keyword groups

  const WebKeywords: seq<string> := ["web", "website", "webapp"]
  const MobileKeywords: seq<string> := ["mobile", "app", "ios", "android"]
  const MlKeywords: seq<string> := ["ml", "machine learning", "ai"]
  const AuthKeywords: seq<string> := ["authentication", "auth", "login"]
  const PaymentKeywords: seq<string> := ["payment", "ecommerce", "shop"]

  /** The `includes(...) || includes(...) || ...` test of one keyword group. */
  predicate MentionsAny(queryLower: string, keywords: seq<string>)
  {
    exists k | k in keywords :: Contains(queryLower, k)
  }

  // ---------------------------------------------------------------------------------------
  // The records of the default model

  const DefaultWeb := SearchResult(
    "Modern Web Application Architecture Patterns",
    "Overview of current best practices for web application architecture including SPA, PWA, and serverless approaches.",
    "Web Development Journal", 95, "https://example.com/web-architecture")
  const DefaultMobile := SearchResult(
    "Mobile App Architecture: Native vs Cross-platform",
    "Comparative analysis of native app development versus cross-platform frameworks like React Native and Flutter.",
    "Mobile Dev Weekly", 92, "https://example.com/mobile-architecture")
  const DefaultAuth := SearchResult(
    "Authentication Strategies for Modern Applications",
    "Comprehensive guide to implementing secure authentication including OAuth, JWT, and biometric options.",
    "Security Engineering Blog", 88, "https://example.com/auth-patterns")
  const DefaultPayment := SearchResult(
    "E-commerce Payment Processing Architecture",
    "Best practices for implementing secure and scalable payment systems in e-commerce applications.",
    "Fintech Architecture Review", 90, "https://example.com/payment-systems")
  const DefaultGeneral := SearchResult(
    "Scalable Software Architecture Fundamentals",
    "Core principles of building scalable software architectures that can handle growth and changing requirements.",
    "Software Architecture Journal", 85, "https://example.com/scalable-architecture")

  // ---------------------------------------------------------------------------------------
  // The records of the DeepSeek Coder model

  const DeepseekFrontend := SearchResult(
    "Modern Frontend Architecture with React and GraphQL",
    "DeepSeek analysis of component-based architecture patterns using React, GraphQL, and state management solutions.",
    "DeepSeek Code Analysis Repository", 97, "https://example.com/deepseek-web-architecture")
  const DeepseekBackend := SearchResult(
    "Backend Service Design for Web Applications",
    "Optimized service architecture for web backends with focus on microservices and API gateway patterns.",
    "DeepSeek Architecture Database", 92, "https://example.com/deepseek-backend-design")
  const DeepseekMl := SearchResult(
    "ML Pipeline Implementation for Production Applications",
    "Source code examples and architecture for production-grade machine learning pipelines with focus on MLOps.",
    "DeepSeek ML Engineering Resources", 98, "https://example.com/deepseek-ml-pipelines")
  const DeepseekGeneral := SearchResult(
    "Code Repository Structure Best Practices",
    "DeepSeek's analysis of optimal code organization for maintainability and collaboration.",
    "DeepSeek Code Architecture Guide", 89, "https://example.com/deepseek-repo-structure")

  // ---------------------------------------------------------------------------------------
  // The records of the Llama 3 model

  const LlamaWeb := SearchResult(
    "Web Application Architecture Trends 2025",
    "Analysis of emerging architecture patterns for modern web applications including JAMstack and serverless.",
    "Llama Knowledge Database", 96, "https://example.com/llama3-web-trends")
  const LlamaMobile := SearchResult(
    "Cross-Platform vs. Native Mobile Architecture",
    "Comprehensive comparison of architecture approaches for mobile application development with performance benchmarks.",
    "Llama Mobile Dev Insights", 94, "https://example.com/llama3-mobile-architecture")
  const LlamaMl := SearchResult(
    "Machine Learning Architecture for Enterprise Applications",
    "Enterprise-grade ML system design with distributed training and inference optimization.",
    "Llama AI Systems Guide", 98, "https://example.com/llama3-ml-enterprise")
  const LlamaPipeline := SearchResult(
    "Data Pipeline Design for ML Training",
    "Efficient data pipelines for ML model training with ETL best practices and optimization techniques.",
    "Llama Data Engineering Handbook", 95, "https://example.com/llama3-data-pipelines")
  const LlamaGeneral := SearchResult(
    "System Design Principles for Scalable Applications",
    "Foundational principles for designing highly scalable and resilient software architectures.",
    "Llama Systems Architecture Guide", 90, "https://example.com/llama3-system-design")

  // ---------------------------------------------------------------------------------------
  // Ranking

  /** Non-increasing relevance: what `sort((a, b) => b.relevanceScore - a.relevanceScore)` leaves. */
  ghost predicate Ranked(s: seq<SearchResult>)
  {
    forall i, j :: 0 <= i < j < |s| ==> s[i].relevanceScore >= s[j].relevanceScore
  }

  /** Strictly decreasing relevance: no two entries tie. */
  ghost predicate RankedStrictly(s: seq<SearchResult>)
  {
    forall i, j :: 0 <= i < j < |s| ==> s[i].relevanceScore > s[j].relevanceScore
  }

  /** Putting `x` at the first position whose entry is less relevant keeps a list ranked. */
  lemma InsertAtKeepsRanked(s: seq<SearchResult>, j: nat, x: SearchResult)
    requires Ranked(s) && j <= |s|
    requires forall k :: 0 <= k < j ==> s[k].relevanceScore >= x.relevanceScore
    requires j < |s| ==> s[j].relevanceScore < x.relevanceScore
    ensures Ranked(s[..j] + [x] + s[j..])
  {
    var r := s[..j] + [x] + s[j..];
    forall k | j <= k < |s| ensures s[k].relevanceScore < x.relevanceScore {
      assert s[j].relevanceScore >= s[k].relevanceScore;
    }
    assert forall a :: 0 <= a < |r| ==> r[a] == if a < j then s[a] else if a == j then x else s[a - 1];
  }

  /** Places `x` after every entry at least as relevant, keeping the list ranked. */
  method InsertByRelevance(s: seq<SearchResult>, x: SearchResult) returns (r: seq<SearchResult>)
    requires Ranked(s)
    ensures Ranked(r)
    ensures multiset(r) == multiset(s) + multiset{x}
  {
    var j := 0;
    while j < |s| && s[j].relevanceScore >= x.relevanceScore
      invariant 0 <= j <= |s|
      invariant forall k :: 0 <= k < j ==> s[k].relevanceScore >= x.relevanceScore
    {
      j := j + 1;
    }
    InsertAtKeepsRanked(s, j, x);
    r := s[..j] + [x] + s[j..];
    assert s == s[..j] + s[j..];
  }

  /** The in-place `results.sort(...)`, as an insertion sort: the result is ranked and holds
      the same records. */
  method SortByRelevance(s: seq<SearchResult>) returns (r: seq<SearchResult>)
    ensures Ranked(r)
    ensures multiset(r) == multiset(s)
  {
    r := [];
    var i := 0;
    while i < |s|
      invariant 0 <= i <= |s|
      invariant Ranked(r)
      invariant multiset(r) == multiset(s[..i])
    {
      r := InsertByRelevance(r, s[i]);
      assert s[..i + 1] == s[..i] + [s[i]];
      i := i + 1;
    }
    assert s[..|s|] == s;
  }

  /** Dropping the first entry keeps a list ranked, and strictly ranked. */
  lemma RankedTail(s: seq<SearchResult>)
    requires |s| > 0
    ensures Ranked(s) ==> Ranked(s[1..])
    ensures RankedStrictly(s) ==> RankedStrictly(s[1..])
  {
    var t := s[1..];
    assert forall i :: 0 <= i < |t| ==> t[i] == s[i + 1];
  }

  /** A ranked list and a strictly ranked list holding the same records begin alike. */
  lemma RankedHeadsAgree(a: seq<SearchResult>, b: seq<SearchResult>)
    requires Ranked(a) && RankedStrictly(b) && multiset(a) == multiset(b) && |a| > 0
    ensures |b| > 0 && a[0] == b[0]
  {
    assert a[0] in multiset(b);
    var k :| 0 <= k < |b| && b[k] == a[0];
    assert b[0] in multiset(a);
    var m :| 0 <= m < |a| && a[m] == b[0];
    assert a[0].relevanceScore >= a[m].relevanceScore;
  }

  /** Lists holding the same records and beginning alike hold the same records after it. */
  lemma SameTailRecords(a: seq<SearchResult>, b: seq<SearchResult>)
    requires |a| > 0 && |b| > 0 && a[0] == b[0] && multiset(a) == multiset(b)
    ensures multiset(a[1..]) == multiset(b[1..])
  {
    assert a == [a[0]] + a[1..] && b == [b[0]] + b[1..];
    assert multiset(a) == multiset{a[0]} + multiset(a[1..]);
    assert multiset(b) == multiset{b[0]} + multiset(b[1..]);
    assert multiset(a[1..]) == multiset(a) - multiset{a[0]};
    assert multiset(b[1..]) == multiset(b) - multiset{b[0]};
  }

  /** With pairwise distinct scores a ranking is unique: any ranked arrangement of the same
      records is the strictly ranked one. */
  lemma {:induction false} RankedUnique(a: seq<SearchResult>, b: seq<SearchResult>)
    requires Ranked(a) && RankedStrictly(b) && multiset(a) == multiset(b)
    ensures a == b
    decreases |a|
  {
    assert |a| == |multiset(a)| == |b|;
    if |a| > 0 {
      RankedHeadsAgree(a, b);
      SameTailRecords(a, b);
      RankedTail(a);
      RankedTail(b);
      RankedUnique(a[1..], b[1..]);
      assert a == [a[0]] + a[1..] && b == [b[0]] + b[1..];
    }
  }

  // ---------------------------------------------------------------------------------------
  // Reference rankings: each model's records form a catalog in descending relevance, and the
  // output keeps the catalog entries whose keyword test holds

  /** The entries of `catalog` whose flag is set, in catalog order. */
  function Select(flags: seq<bool>, catalog: seq<SearchResult>): seq<SearchResult>
    requires |flags| == |catalog|
    decreases |catalog|
  {
    if |catalog| == 0 then []
    else Gate(flags[0], [catalog[0]]) + Select(flags[1..], catalog[1..])
  }

  /** The number of set flags. */
  function CountSet(flags: seq<bool>): nat
    decreases |flags|
  {
    if |flags| == 0 then 0 else (if flags[0] then 1 else 0) + CountSet(flags[1..])
  }

  /** A selection takes its entries from the catalog. */
  lemma {:induction false} SelectFromCatalog(flags: seq<bool>, catalog: seq<SearchResult>)
    requires |flags| == |catalog|
    ensures forall x :: x in Select(flags, catalog) ==> x in catalog
    decreases |catalog|
  {
    if |catalog| > 0 {
      SelectFromCatalog(flags[1..], catalog[1..]);
    }
  }

  /** A selection from a strictly ranked catalog is strictly ranked. */
  lemma {:induction false} SelectRankedStrictly(flags: seq<bool>, catalog: seq<SearchResult>)
    requires |flags| == |catalog| && RankedStrictly(catalog)
    ensures RankedStrictly(Select(flags, catalog))
    decreases |catalog|
  {
    if |catalog| > 0 {
      var tail := catalog[1..];
      forall i, j | 0 <= i < j < |tail| ensures tail[i].relevanceScore > tail[j].relevanceScore {
        assert tail[i] == catalog[i + 1] && tail[j] == catalog[j + 1];
      }
      SelectRankedStrictly(flags[1..], tail);
      var rest := Select(flags[1..], tail);
      SelectFromCatalog(flags[1..], tail);
      forall x | x in rest ensures catalog[0].relevanceScore > x.relevanceScore {
        var k :| 0 <= k < |tail| && tail[k] == x;
        assert tail[k] == catalog[k + 1];
      }
    }
  }

  /** A selection holds as many entries as there are set flags. */
  lemma {:induction false} SelectLength(flags: seq<bool>, catalog: seq<SearchResult>)
    requires |flags| == |catalog|
    ensures |Select(flags, catalog)| == CountSet(flags)
    decreases |catalog|
  {
    if |catalog| > 0 {
      SelectLength(flags[1..], catalog[1..]);
    }
  }

  /** When the last flag is set, the selection ends with the catalog's last entry. */
  lemma {:induction false} SelectKeepsLast(flags: seq<bool>, catalog: seq<SearchResult>)
    requires |flags| == |catalog| > 0 && flags[|flags| - 1]
    ensures |Select(flags, catalog)| > 0
    ensures Select(flags, catalog)[|Select(flags, catalog)| - 1] == catalog[|catalog| - 1]
    decreases |catalog|
  {
    if |catalog| > 1 {
      SelectKeepsLast(flags[1..], catalog[1..]);
    }
  }

  /** In a strictly ranked list the last entry occurs only there. */
  lemma LastOccursOnce(r: seq<SearchResult>)
    requires |r| > 0 && RankedStrictly(r)
    ensures forall i :: 0 <= i < |r| - 1 ==> r[i] != r[|r| - 1]
  {
  }

  const DefaultCatalog: seq<SearchResult> := [DefaultWeb, DefaultMobile, DefaultPayment, DefaultAuth, DefaultGeneral]

  /** The default model's keyword tests, aligned with its catalog. */
  function DefaultGates(queryLower: string): seq<bool>
  {
    [MentionsAny(queryLower, WebKeywords), MentionsAny(queryLower, MobileKeywords),
     MentionsAny(queryLower, PaymentKeywords), MentionsAny(queryLower, AuthKeywords), true]
  }

  /** The default model's output: web 95, mobile 92, payment 90, authentication 88, general 85.
      It is strictly ranked and holds the general record exactly once, at the end. */
  function DefaultRanking(query: string): (r: seq<SearchResult>)
    ensures RankedStrictly(r)
    ensures |r| > 0 && r[|r| - 1] == DefaultGeneral
    ensures forall i :: 0 <= i < |r| - 1 ==> r[i] != DefaultGeneral
  {
    var flags := DefaultGates(Lower(query));
    CatalogsRankedStrictly();
    SelectRankedStrictly(flags, DefaultCatalog);
    SelectKeepsLast(flags, DefaultCatalog);
    LastOccursOnce(Select(flags, DefaultCatalog));
    Select(flags, DefaultCatalog)
  }

  const DeepseekCatalog: seq<SearchResult> := [DeepseekMl, DeepseekFrontend, DeepseekBackend, DeepseekGeneral]

  function DeepseekGates(queryLower: string): seq<bool>
  {
    var web := MentionsAny(queryLower, WebKeywords);
    [MentionsAny(queryLower, MlKeywords), web, web, true]
  }

  /** The DeepSeek Coder output: machine learning 98, frontend 97, backend 92, general 89.
      It is strictly ranked and holds the general record exactly once, at the end. */
  function DeepseekRanking(query: string): (r: seq<SearchResult>)
    ensures RankedStrictly(r)
    ensures |r| > 0 && r[|r| - 1] == DeepseekGeneral
    ensures forall i :: 0 <= i < |r| - 1 ==> r[i] != DeepseekGeneral
  {
    var flags := DeepseekGates(Lower(query));
    CatalogsRankedStrictly();
    SelectRankedStrictly(flags, DeepseekCatalog);
    SelectKeepsLast(flags, DeepseekCatalog);
    LastOccursOnce(Select(flags, DeepseekCatalog));
    Select(flags, DeepseekCatalog)
  }

  const LlamaCatalog: seq<SearchResult> := [LlamaMl, LlamaWeb, LlamaPipeline, LlamaMobile, LlamaGeneral]

  function LlamaGates(queryLower: string): seq<bool>
  {
    var ml := MentionsAny(queryLower, MlKeywords);
    [ml, MentionsAny(queryLower, WebKeywords), ml, MentionsAny(queryLower, MobileKeywords), true]
  }

  /** The Llama 3 output: enterprise ML 98, web 96, data pipeline 95, mobile 94, general 90.
      It is strictly ranked and holds the general record exactly once, at the end. */
  function Llama3Ranking(query: string): (r: seq<SearchResult>)
    ensures RankedStrictly(r)
    ensures |r| > 0 && r[|r| - 1] == LlamaGeneral
    ensures forall i :: 0 <= i < |r| - 1 ==> r[i] != LlamaGeneral
  {
    var flags := LlamaGates(Lower(query));
    CatalogsRankedStrictly();
    SelectRankedStrictly(flags, LlamaCatalog);
    SelectKeepsLast(flags, LlamaCatalog);
    LastOccursOnce(Select(flags, LlamaCatalog));
    Select(flags, LlamaCatalog)
  }

  /** One step of `Select`, for a catalog written as head and tail. */
  lemma SelectCons(flags: seq<bool>, x: SearchResult, rest: seq<SearchResult>)
    requires |flags| == |rest| + 1
    ensures Select(flags, [x] + rest) == Gate(flags[0], [x]) + Select(flags[1..], rest)
  {
    assert ([x] + rest)[1..] == rest;
  }

  /** A selection from two entries, written out. */
  lemma SelectTwo(flags: seq<bool>, c: SearchResult, d: SearchResult)
    requires |flags| == 2
    ensures Select(flags, [c, d]) == Gate(flags[0], [c]) + Gate(flags[1], [d])
  {
    assert [c, d] == [c] + [d];
    SelectCons(flags, c, [d]);
    assert Select(flags[1..], [d]) == Gate(flags[1], [d]) + Select(flags[2..], []);
  }

  /** A selection from three entries, written out. */
  lemma SelectThree(flags: seq<bool>, b: SearchResult, c: SearchResult, d: SearchResult)
    requires |flags| == 3
    ensures Select(flags, [b, c, d]) == Gate(flags[0], [b]) + Gate(flags[1], [c]) + Gate(flags[2], [d])
  {
    assert [b, c, d] == [b] + [c, d];
    SelectCons(flags, b, [c, d]);
    SelectTwo(flags[1..], c, d);
    AppendAssoc(Gate(flags[0], [b]), Gate(flags[1], [c]), Gate(flags[2], [d]));
  }

  /** A selection from four entries, written out. */
  lemma SelectFour(flags: seq<bool>, a: SearchResult, b: SearchResult, c: SearchResult, d: SearchResult)
    requires |flags| == 4
    ensures Select(flags, [a, b, c, d]) == Gate(flags[0], [a]) + Gate(flags[1], [b]) + Gate(flags[2], [c]) + Gate(flags[3], [d])
  {
    assert [a, b, c, d] == [a] + [b, c, d];
    SelectCons(flags, a, [b, c, d]);
    SelectThree(flags[1..], b, c, d);
    var ga, gb, gc, gd := Gate(flags[0], [a]), Gate(flags[1], [b]), Gate(flags[2], [c]), Gate(flags[3], [d]);
    AppendAssoc(ga, gb + gc, gd);
    AppendAssoc(ga, gb, gc);
  }

  /** A selection from five entries, written out. */
  lemma SelectFive(flags: seq<bool>, a: SearchResult, b: SearchResult, c: SearchResult, d: SearchResult, e: SearchResult)
    requires |flags| == 5
    ensures Select(flags, [a, b, c, d, e]) == Gate(flags[0], [a]) + Gate(flags[1], [b]) + Gate(flags[2], [c]) + Gate(flags[3], [d]) + Gate(flags[4], [e])
  {
    assert [a, b, c, d, e] == [a] + [b, c, d, e];
    SelectCons(flags, a, [b, c, d, e]);
    SelectFour(flags[1..], b, c, d, e);
    var ga, gb, gc, gd, ge := Gate(flags[0], [a]), Gate(flags[1], [b]), Gate(flags[2], [c]),
      Gate(flags[3], [d]), Gate(flags[4], [e]);
    AppendAssoc(ga, gb + gc + gd, ge);
    AppendAssoc(ga, gb + gc, gd);
    AppendAssoc(ga, gb, gc);
  }

  lemma CatalogsRankedStrictly()
    ensures RankedStrictly(DefaultCatalog)
    ensures RankedStrictly(DeepseekCatalog)
    ensures RankedStrictly(LlamaCatalog)
  {
  }

  /** The dispatch on the model name: any name but the two known models is the default. */
  function SearchRanking(query: string, model: string): (r: seq<SearchResult>)
    ensures model != "deepseek-coder" && model != "llama-3" ==> r == DefaultRanking(query)
    ensures RankedStrictly(r)
  {
    if model == "deepseek-coder" then DeepseekRanking(query)
    else if model == "llama-3" then Llama3Ranking(query)
    else DefaultRanking(query)
  }

  /** The name a call without a model argument uses. */
  function ModelOrDefault(model: Option<string>): string
  {
    if model.Some? then model.value else "default"
  }

  // ---------------------------------------------------------------------------------------
  // The generators: pushes under keyword checks, then the sort

  /** The default pushes (web, mobile, authentication, payment) hold the records of the
      ranking, whose order has payment before authentication. */
  lemma DefaultPushOrder<T>(web: bool, mobile: bool, auth: bool, payment: bool, w: T, m: T, a: T, p: T, g: T)
    ensures multiset(Gate(web, [w]) + Gate(mobile, [m]) + Gate(auth, [a]) + Gate(payment, [p]) + [g])
         == multiset(Gate(web, [w]) + Gate(mobile, [m]) + Gate(payment, [p]) + Gate(auth, [a]) + [g])
  {
  }

  /** Sorting the default model's pushes gives its ranking. */
  lemma DefaultSortedPushes(query: string, pushed: seq<SearchResult>, sorted: seq<SearchResult>)
    requires var q := Lower(query);
      pushed == Gate(MentionsAny(q, WebKeywords), [DefaultWeb]) + Gate(MentionsAny(q, MobileKeywords), [DefaultMobile])
        + Gate(MentionsAny(q, AuthKeywords), [DefaultAuth]) + Gate(MentionsAny(q, PaymentKeywords), [DefaultPayment])
        + [DefaultGeneral]
    requires Ranked(sorted) && multiset(sorted) == multiset(pushed)
    ensures sorted == DefaultRanking(query)
  {
    var q := Lower(query);
    var flags := DefaultGates(q);
    SelectFive(flags, DefaultWeb, DefaultMobile, DefaultPayment, DefaultAuth, DefaultGeneral);
    DefaultPushOrder(flags[0], flags[1], flags[3], flags[2], DefaultWeb, DefaultMobile, DefaultAuth, DefaultPayment, DefaultGeneral);
    RankedUnique(sorted, DefaultRanking(query));
  }

  /** The DeepSeek pushes (frontend, backend, machine learning) hold the records of the
      ranking, whose order has machine learning first. */
  lemma DeepseekPushOrder<T>(web: bool, ml: bool, f: T, b: T, m: T, g: T)
    ensures multiset(Gate(web, [f]) + Gate(web, [b]) + Gate(ml, [m]) + [g])
         == multiset(Gate(ml, [m]) + Gate(web, [f]) + Gate(web, [b]) + [g])
  {
  }

  /** Sorting the DeepSeek Coder model's pushes gives its ranking. */
  lemma DeepseekSortedPushes(query: string, pushed: seq<SearchResult>, sorted: seq<SearchResult>)
    requires var q := Lower(query);
      pushed == Gate(MentionsAny(q, WebKeywords), [DeepseekFrontend]) + Gate(MentionsAny(q, WebKeywords), [DeepseekBackend])
        + Gate(MentionsAny(q, MlKeywords), [DeepseekMl]) + [DeepseekGeneral]
    requires Ranked(sorted) && multiset(sorted) == multiset(pushed)
    ensures sorted == DeepseekRanking(query)
  {
    var q := Lower(query);
    var flags := DeepseekGates(q);
    SelectFour(flags, DeepseekMl, DeepseekFrontend, DeepseekBackend, DeepseekGeneral);
    DeepseekPushOrder(flags[1], flags[0], DeepseekFrontend, DeepseekBackend, DeepseekMl, DeepseekGeneral);
    RankedUnique(sorted, DeepseekRanking(query));
  }

  /** The Llama 3 pushes (web, mobile, enterprise ML, data pipeline) hold the records of the
      ranking, ordered enterprise ML, web, data pipeline, mobile. */
  lemma LlamaPushOrder<T>(web: bool, mobile: bool, ml: bool, w: T, m: T, e: T, d: T, g: T)
    ensures multiset(Gate(web, [w]) + Gate(mobile, [m]) + Gate(ml, [e]) + Gate(ml, [d]) + [g])
         == multiset(Gate(ml, [e]) + Gate(web, [w]) + Gate(ml, [d]) + Gate(mobile, [m]) + [g])
  {
  }

  /** Sorting the Llama 3 model's pushes gives its ranking. */
  lemma LlamaSortedPushes(query: string, pushed: seq<SearchResult>, sorted: seq<SearchResult>)
    requires var q := Lower(query);
      pushed == Gate(MentionsAny(q, WebKeywords), [LlamaWeb]) + Gate(MentionsAny(q, MobileKeywords), [LlamaMobile])
        + Gate(MentionsAny(q, MlKeywords), [LlamaMl]) + Gate(MentionsAny(q, MlKeywords), [LlamaPipeline])
        + [LlamaGeneral]
    requires Ranked(sorted) && multiset(sorted) == multiset(pushed)
    ensures sorted == Llama3Ranking(query)
  {
    var q := Lower(query);
    var flags := LlamaGates(q);
    SelectFive(flags, LlamaMl, LlamaWeb, LlamaPipeline, LlamaMobile, LlamaGeneral);
    LlamaPushOrder(flags[1], flags[3], flags[0], LlamaWeb, LlamaMobile, LlamaMl, LlamaPipeline, LlamaGeneral);
    RankedUnique(sorted, Llama3Ranking(query));
  }

  /** `generateDefaultResults`. */
  method GenerateDefaultResults(query: string) returns (results: seq<SearchResult>)
    ensures results == DefaultRanking(query)
  {
    results := [];
    var queryLower := Lower(query);
    if MentionsAny(queryLower, WebKeywords) {
      results := results + [DefaultWeb];
    }
    ghost var sofar := results;
    assert sofar == Gate(MentionsAny(queryLower, WebKeywords), [DefaultWeb]);
    if MentionsAny(queryLower, MobileKeywords) {
      results := results + [DefaultMobile];
    }
    assert results == sofar + Gate(MentionsAny(queryLower, MobileKeywords), [DefaultMobile]);
    sofar := results;
    if MentionsAny(queryLower, AuthKeywords) {
      results := results + [DefaultAuth];
    }
    assert results == sofar + Gate(MentionsAny(queryLower, AuthKeywords), [DefaultAuth]);
    sofar := results;
    if MentionsAny(queryLower, PaymentKeywords) {
      results := results + [DefaultPayment];
    }
    assert results == sofar + Gate(MentionsAny(queryLower, PaymentKeywords), [DefaultPayment]);
    results := results + [DefaultGeneral];
    var pushed := results;
    results := SortByRelevance(results);
    DefaultSortedPushes(query, pushed, results);
  }

  /** `generateDeepseekCoderResults`. */
  method GenerateDeepseekCoderResults(query: string) returns (results: seq<SearchResult>)
    ensures results == DeepseekRanking(query)
  {
    results := [];
    var queryLower := Lower(query);
    if MentionsAny(queryLower, WebKeywords) {
      results := results + [DeepseekFrontend];
      results := results + [DeepseekBackend];
    }
    if MentionsAny(queryLower, MlKeywords) {
      results := results + [DeepseekMl];
    }
    results := results + [DeepseekGeneral];
    var pushed := results;
    results := SortByRelevance(results);
    DeepseekSortedPushes(query, pushed, results);
  }

  /** `generateLlama3Results`. */
  method GenerateLlama3Results(query: string) returns (results: seq<SearchResult>)
    ensures results == Llama3Ranking(query)
  {
    results := [];
    var queryLower := Lower(query);
    if MentionsAny(queryLower, WebKeywords) {
      results := results + [LlamaWeb];
    }
    ghost var sofar := results;
    assert sofar == Gate(MentionsAny(queryLower, WebKeywords), [LlamaWeb]);
    if MentionsAny(queryLower, MobileKeywords) {
      results := results + [LlamaMobile];
    }
    assert results == sofar + Gate(MentionsAny(queryLower, MobileKeywords), [LlamaMobile]);
    sofar := results;
    if MentionsAny(queryLower, MlKeywords) {
      results := results + [LlamaMl];
      results := results + [LlamaPipeline];
    }
    assert results == sofar + Gate(MentionsAny(queryLower, MlKeywords), [LlamaMl]) + Gate(MentionsAny(queryLower, MlKeywords), [LlamaPipeline]);
    results := results + [LlamaGeneral];
    var pushed := results;
    results := SortByRelevance(results);
    LlamaSortedPushes(query, pushed, results);
  }

  /** `searchProjectInformation(query, model = 'default')`, without the simulated delay and
      the log line. */
  method SearchProjectInformation(query: string, model: Option<string>) returns (results: seq<SearchResult>)
    ensures results == SearchRanking(query, ModelOrDefault(model))
  {
    var name := ModelOrDefault(model);
    if name == "deepseek-coder" {
      results := GenerateDeepseekCoderResults(query);
    } else if name == "llama-3" {
      results := GenerateLlama3Results(query);
    } else {
      results := GenerateDefaultResults(query);
    }
  }

  /** A call without a model argument runs the default model. */
  lemma OmittedModelIsDefault(query: string)
    ensures SearchRanking(query, ModelOrDefault(None)) == DefaultRanking(query)
  {
  }

  // ---------------------------------------------------------------------------------------
  // Properties

  /** Matching ignores case: a query and its lower-cased form get the same results. */
  lemma SearchIgnoresCase(query: string, model: string)
    ensures SearchRanking(Lower(query), model) == SearchRanking(query, model)
  {
    LowerIdempotent(query);
  }

  /** The keyword groups the default model gates a record on, in the order it tests them. */
  const DefaultGroups: seq<seq<string>> := [WebKeywords, MobileKeywords, AuthKeywords, PaymentKeywords]

  /** Which of `groups` the lower-cased query mentions. */
  function MatchedGroups(queryLower: string, groups: seq<seq<string>>): (r: seq<bool>)
    ensures |r| == |groups|
    ensures forall i :: 0 <= i < |groups| ==> r[i] == MentionsAny(queryLower, groups[i])
  {
    seq(|groups|, i requires 0 <= i < |groups| => MentionsAny(queryLower, groups[i]))
  }

  /** One step of `CountSet`, for flags written as head and tail. */
  lemma CountSetCons(b: bool, rest: seq<bool>)
    ensures CountSet([b] + rest) == (if b then 1 else 0) + CountSet(rest)
  {
    assert ([b] + rest)[1..] == rest;
  }

  /** The number of set flags among four. */
  lemma CountFour(m: seq<bool>)
    requires |m| == 4
    ensures CountSet(m) == (if m[0] then 1 else 0) + (if m[1] then 1 else 0) + (if m[2] then 1 else 0)
      + (if m[3] then 1 else 0)
  {
    assert m == [m[0]] + ([m[1]] + ([m[2]] + ([m[3]] + [])));
    CountSetCons(m[0], [m[1]] + ([m[2]] + ([m[3]] + [])));
    CountSetCons(m[1], [m[2]] + ([m[3]] + []));
    CountSetCons(m[2], [m[3]] + []);
    CountSetCons(m[3], []);
  }

  /** The default output holds one record per matched keyword group plus the general one,
      so at most five. */
  lemma DefaultResultCount(query: string)
    ensures |DefaultRanking(query)| == 1 + CountSet(MatchedGroups(Lower(query), DefaultGroups))
    ensures |DefaultRanking(query)| <= 5
  {
    var q := Lower(query);
    var m := MatchedGroups(q, DefaultGroups);
    var flags := DefaultGates(q);
    SelectFive(flags, DefaultWeb, DefaultMobile, DefaultPayment, DefaultAuth, DefaultGeneral);
    CountFour(m);
    assert m[0] == flags[0] && m[1] == flags[1] && m[2] == flags[3] && m[3] == flags[2];
  }

  /** Keywords are matched as substrings: "app" occurs in "application", so any query that
      mentions "application" draws the mobile records. */
  lemma ApplicationDrawsMobileRecord(query: string)
    requires Contains(Lower(query), "application")
    ensures DefaultMobile in DefaultRanking(query)
  {
    ApplicationMentionsMobile(Lower(query));
    SelectFive(DefaultGates(Lower(query)), DefaultWeb, DefaultMobile, DefaultPayment, DefaultAuth, DefaultGeneral);
  }

  /** The same holds for the Llama 3 model's mobile record. */
  lemma ApplicationDrawsLlamaMobileRecord(query: string)
    requires Contains(Lower(query), "application")
    ensures LlamaMobile in Llama3Ranking(query)
  {
    ApplicationMentionsMobile(Lower(query));
    SelectFive(LlamaGates(Lower(query)), LlamaMl, LlamaWeb, LlamaPipeline, LlamaMobile, LlamaGeneral);
  }

  /** "app", one of the mobile keywords, occurs in "application". */
  lemma ApplicationMentionsMobile(queryLower: string)
    requires Contains(queryLower, "application")
    ensures MentionsAny(queryLower, MobileKeywords)
  {
    assert OccursAt("application", "app", 0);
    ContainsTransitive(queryLower, "application", "app");
    assert "app" in MobileKeywords;
  }
}
