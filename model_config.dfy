/** Model routing and pricing: the task-to-model table, the text-model price catalog, and
    the lookups, cost formula and tier listing over them. Prices are dollars per million
    tokens, modelled as exact reals. */
module ModelConfig {
  import opened Wrappers

  datatype ModelTier = Free | Cheap | Standard | Premium

  datatype TaskType = Clarification | Debate | Synthesis | Code | Creative | General

  /** The string value of a task type; the routing table is keyed by it. */
  function TaskName(t: TaskType): string {
    match t
    case Clarification => "CLARIFICATION"
    case Debate => "DEBATE"
    case Synthesis => "SYNTHESIS"
    case Code => "CODE"
    case Creative => "CREATIVE"
    case General => "GENERAL"
  }

  datatype TaskEntry = TaskEntry(model: string, tier: ModelTier, inputCost: real, outputCost: real, reason: string)

  const TaskModelMapping: map<string, TaskEntry> := map[
    "CLARIFICATION" := TaskEntry("glm-4.7-flash", Free, 0.0, 0.0,
                                 "Free model for initial questions and context gathering"),
    "DEBATE" := TaskEntry("glm-4-32b-0414-128k", Cheap, 0.1, 0.1,
                          "Extremely cheap model for reasoning rounds ($0.10 per 1M tokens)"),
    "SYNTHESIS" := TaskEntry("glm-4.7", Premium, 0.6, 2.2,
                             "Premium model for highest quality final output"),
    "CODE" := TaskEntry("glm-4.6", Standard, 0.6, 2.2,
                        "Standard model optimized for coding tasks"),
    "CREATIVE" := TaskEntry("glm-4.5", Standard, 0.6, 2.2,
                            "Standard model for creative writing and brainstorming"),
    "GENERAL" := TaskEntry("glm-4.7-flashx", Cheap, 0.07, 0.4,
                           "Balanced cheap model for general tasks")
  ]

  datatype CatalogEntry = CatalogEntry(input: real, output: real, cachedInput: real, cachedStorage: string, tier: ModelTier)

  /** The "text" section of the price catalog. */
  const TextCatalog: map<string, CatalogEntry> := map[
    "glm-4.7" := CatalogEntry(0.6, 2.2, 0.11, "Limited-time Free", Premium),
    "glm-4.7-flashx" := CatalogEntry(0.07, 0.4, 0.01, "Limited-time Free", Cheap),
    "glm-4.6" := CatalogEntry(0.6, 2.2, 0.11, "Limited-time Free", Standard),
    "glm-4.6v" := CatalogEntry(0.3, 0.9, 0.05, "Limited-time Free", Standard),
    "glm-4.6v-flashx" := CatalogEntry(0.04, 0.4, 0.004, "Limited-time Free", Cheap),
    "glm-4.5" := CatalogEntry(0.6, 2.2, 0.11, "Limited-time Free", Standard),
    "glm-4.5v" := CatalogEntry(0.6, 1.8, 0.11, "Limited-time Free", Standard),
    "glm-4.5-x" := CatalogEntry(2.2, 8.9, 0.45, "Limited-time Free", Premium),
    "glm-4.5-air" := CatalogEntry(0.2, 1.1, 0.03, "Limited-time Free", Cheap),
    "glm-4.5-airx" := CatalogEntry(1.1, 4.5, 0.22, "Limited-time Free", Premium),
    "glm-4-32b-0414-128k" := CatalogEntry(0.1, 0.1, 0.0, "-", Cheap),
    "glm-4.7-flash" := CatalogEntry(0.0, 0.0, 0.0, "Free", Free),
    "glm-4.6v-flash" := CatalogEntry(0.0, 0.0, 0.0, "Free", Free),
    "glm-4.5-flash" := CatalogEntry(0.0, 0.0, 0.0, "Free", Free)
  ]

  /** The catalog's keys in insertion order, the order in which `items()` visits them. */
  const CatalogOrder: seq<string> := [
    "glm-4.7", "glm-4.7-flashx", "glm-4.6", "glm-4.6v", "glm-4.6v-flashx", "glm-4.5", "glm-4.5v",
    "glm-4.5-x", "glm-4.5-air", "glm-4.5-airx", "glm-4-32b-0414-128k", "glm-4.7-flash",
    "glm-4.6v-flash", "glm-4.5-flash"
  ]

  predicate Distinct(s: seq<string>) {
    forall i, j :: 0 <= i < j < |s| ==> s[i] != s[j]
  }

  /** The visiting order lists every catalog key exactly once. */
  lemma CatalogOrderIsKeys()
    ensures Distinct(CatalogOrder)
    ensures forall n :: n in CatalogOrder <==> n in TextCatalog
  {
  }

  /** `get_model_for_task(task)`: the task's entry, or GENERAL's entry for any other key. */
  function GetModelForTask(task: string): TaskEntry {
    if task in TaskModelMapping then TaskModelMapping[task] else TaskModelMapping["GENERAL"]
  }

  /** The routing table has exactly one entry per task type, each named after it, so every
      task type is routed to its own entry and any other key to the GENERAL model. */
  lemma GetModelForTaskRouting(t: TaskType, other: string)
    requires forall u: TaskType :: TaskName(u) != other
    ensures TaskModelMapping.Keys == set u: TaskType :: TaskName(u)
    ensures GetModelForTask(TaskName(t)) == TaskModelMapping[TaskName(t)]
    ensures GetModelForTask(other) == TaskModelMapping["GENERAL"]
    ensures GetModelForTask(other).model == "glm-4.7-flashx"
  {
    assert TaskName(General) == "GENERAL";
    assert other != "CLARIFICATION" && other != "DEBATE" && other != "SYNTHESIS" by {
      assert TaskName(Clarification) == "CLARIFICATION";
      assert TaskName(Debate) == "DEBATE";
      assert TaskName(Synthesis) == "SYNTHESIS";
    }
    assert other != "CODE" && other != "CREATIVE" by {
      assert TaskName(Code) == "CODE";
      assert TaskName(Creative) == "CREATIVE";
    }
    forall k | k in TaskModelMapping.Keys ensures exists u: TaskType :: TaskName(u) == k {
      if k == "CLARIFICATION" { assert TaskName(Clarification) == k; }
      else if k == "DEBATE" { assert TaskName(Debate) == k; }
      else if k == "SYNTHESIS" { assert TaskName(Synthesis) == k; }
      else if k == "CODE" { assert TaskName(Code) == k; }
      else if k == "CREATIVE" { assert TaskName(Creative) == k; }
      else { assert TaskName(General) == k; }
    }
  }

  /** The two tables agree: every task's model is in the text catalog with the same input
      price, output price and tier. */
  lemma TablesConsistent(t: TaskType)
    ensures var e := GetModelForTask(TaskName(t));
      && e.model in TextCatalog
      && TextCatalog[e.model].input == e.inputCost
      && TextCatalog[e.model].output == e.outputCost
      && TextCatalog[e.model].tier == e.tier
  {
  }

  /** `get_model_info(model)`: the catalog entry, or None. */
  function GetModelInfo(model: string): (r: Option<CatalogEntry>)
    ensures r.Some? <==> model in TextCatalog
    ensures r.Some? ==> r.value == TextCatalog[model]
  {
    if model in TextCatalog then Some(TextCatalog[model]) else None
  }

  /** `calculate_cost(model, input_tokens, output_tokens)` without the final rounding to six
      decimals. */
  function CalculateCost(model: string, inputTokens: int, outputTokens: int): real {
    match GetModelInfo(model)
    case None => 0.0
    case Some(e) => (inputTokens as real / 1000000.0) * e.input + (outputTokens as real / 1000000.0) * e.output
  }

  /** Every catalog price is non-negative. */
  lemma CatalogPricesNonNegative(model: string)
    requires GetModelInfo(model).Some?
    ensures GetModelInfo(model).value.input >= 0.0 && GetModelInfo(model).value.output >= 0.0
  {
  }

  /** The cost is zero for uncatalogued and free models and otherwise linear in both counts,
      hence non-negative and monotone in each count. */
  lemma CostProperties(model: string, inputTokens: int, outputTokens: int, moreInput: int, moreOutput: int)
    requires 0 <= inputTokens <= moreInput && 0 <= outputTokens <= moreOutput
    ensures GetModelInfo(model).None? ==> CalculateCost(model, inputTokens, outputTokens) == 0.0
    ensures GetModelInfo(model).Some? && GetModelInfo(model).value.input == 0.0 && GetModelInfo(model).value.output == 0.0
      ==> CalculateCost(model, inputTokens, outputTokens) == 0.0
    ensures 0.0 <= CalculateCost(model, inputTokens, outputTokens)
    ensures CalculateCost(model, inputTokens, outputTokens) <= CalculateCost(model, moreInput, outputTokens)
    ensures CalculateCost(model, inputTokens, outputTokens) <= CalculateCost(model, inputTokens, moreOutput)
  {
    if GetModelInfo(model).Some? {
      CatalogPricesNonNegative(model);
      var e := GetModelInfo(model).value;
      assert (inputTokens as real / 1000000.0) * e.input <= (moreInput as real / 1000000.0) * e.input;
      assert (outputTokens as real / 1000000.0) * e.output <= (moreOutput as real / 1000000.0) * e.output;
    }
  }

  /** Python's `<` on strings: lexicographic by code point, a proper prefix first. */
  predicate StrLt(a: string, b: string)
    decreases |a|
  {
    if |a| == 0 then |b| > 0
    else if |b| == 0 then false
    else if a[0] < b[0] then true
    else a[0] == b[0] && StrLt(a[1..], b[1..])
  }

  lemma {:induction false} StrLtTransitive(a: string, b: string, c: string)
    requires StrLt(a, b) && StrLt(b, c)
    ensures StrLt(a, c)
    decreases |a|
  {
    if |a| > 0 && a[0] == b[0] && b[0] == c[0] {
      StrLtTransitive(a[1..], b[1..], c[1..]);
    }
  }

  /** Exactly one of `a < b`, `a == b`, `b < a`. */
  lemma {:induction false} StrLtTrichotomy(a: string, b: string)
    ensures a == b || StrLt(a, b) || StrLt(b, a)
    ensures !(StrLt(a, b) && StrLt(b, a))
    decreases |a|
  {
    if |a| > 0 && |b| > 0 && a[0] == b[0] {
      StrLtTrichotomy(a[1..], b[1..]);
      if a[1..] == b[1..] {
        assert a == [a[0]] + a[1..] && b == [b[0]] + b[1..];
      }
    }
  }

  predicate StrictlySorted(s: seq<string>) {
    forall i, j :: 0 <= i < j < |s| ==> StrLt(s[i], s[j])
  }

  /** One step of insertion into an ascending list (before the first element not smaller). */
  function Insert(x: string, s: seq<string>): (r: seq<string>)
    ensures multiset(r) == multiset(s) + multiset{x}
    decreases |s|
  {
    if |s| == 0 then [x]
    else if !StrLt(s[0], x) then [x] + s
    else
      assert s == [s[0]] + s[1..];
      [s[0]] + Insert(x, s[1..])
  }

  /** Python's `sorted` on strings, written as an insertion sort; it is a permutation. */
  function Sort(s: seq<string>): (r: seq<string>)
    ensures multiset(r) == multiset(s)
    decreases |s|
  {
    if |s| == 0 then []
    else
      assert s == [s[0]] + s[1..];
      Insert(s[0], Sort(s[1..]))
  }

  lemma {:induction false} InsertStrictlySorted(x: string, s: seq<string>)
    requires StrictlySorted(s) && x !in s
    ensures StrictlySorted(Insert(x, s))
    decreases |s|
  {
    if |s| == 0 {
    } else if !StrLt(s[0], x) {
      StrLtTrichotomy(s[0], x);
      forall j | 0 < j < |s| ensures StrLt(x, s[j]) {
        StrLtTransitive(x, s[0], s[j]);
      }
      assert forall k :: 0 <= k < |s| ==> StrLt(x, s[k]);
      ConsSorted(x, s);
    } else {
      var rest := Insert(x, s[1..]);
      InsertStrictlySorted(x, s[1..]);
      assert forall y :: y in multiset(rest) <==> y in multiset(s[1..]) + multiset{x};
      forall k | 0 <= k < |rest| ensures StrLt(s[0], rest[k]) {
        assert rest[k] in multiset(rest);
        if rest[k] != x {
          assert rest[k] in s[1..];
          var m :| 0 <= m < |s[1..]| && s[1..][m] == rest[k];
          assert s[m + 1] == rest[k];
        }
      }
      ConsSorted(s[0], rest);
    }
  }

  /** An element below every element of an ascending list can go in front of it. */
  lemma ConsSorted(h: string, t: seq<string>)
    requires StrictlySorted(t) && forall k :: 0 <= k < |t| ==> StrLt(h, t[k])
    ensures StrictlySorted([h] + t)
  {
    var r := [h] + t;
    forall i, j | 0 <= i < j < |r| ensures StrLt(r[i], r[j]) {
      if i > 0 { assert r[i] == t[i - 1] && r[j] == t[j - 1]; }
      else { assert r[j] == t[j - 1]; }
    }
  }

  lemma {:induction false} SortStrictlySorted(s: seq<string>)
    requires Distinct(s)
    ensures StrictlySorted(Sort(s))
    decreases |s|
  {
    if |s| > 0 {
      var rest := Sort(s[1..]);
      assert Distinct(s[1..]) by {
        forall i, j | 0 <= i < j < |s[1..]| ensures s[1..][i] != s[1..][j] {
          assert s[1..][i] == s[i + 1] && s[1..][j] == s[j + 1];
        }
      }
      SortStrictlySorted(s[1..]);
      forall m | 0 <= m < |s[1..]| ensures s[1..][m] != s[0] {
        assert s[1..][m] == s[m + 1];
      }
      assert s[0] !in multiset(rest);
      InsertStrictlySorted(s[0], rest);
    }
  }

  /** The names in `names` whose catalog tier is `tier`, in their order. */
  function NamesOfTier(names: seq<string>, tier: ModelTier): (ns: seq<string>)
    ensures forall n :: n in ns <==> n in names && n in TextCatalog && TextCatalog[n].tier == tier
    decreases |names|
  {
    if |names| == 0 then []
    else
      var rest := NamesOfTier(names[1..], tier);
      assert names == [names[0]] + names[1..];
      if names[0] in TextCatalog && TextCatalog[names[0]].tier == tier then [names[0]] + rest else rest
  }

  lemma {:induction false} NamesOfTierDistinct(names: seq<string>, tier: ModelTier)
    requires Distinct(names)
    ensures Distinct(NamesOfTier(names, tier))
    decreases |names|
  {
    if |names| > 0 {
      assert Distinct(names[1..]) by {
        forall i, j | 0 <= i < j < |names[1..]| ensures names[1..][i] != names[1..][j] {
          assert names[1..][i] == names[i + 1] && names[1..][j] == names[j + 1];
        }
      }
      NamesOfTierDistinct(names[1..], tier);
      var rest := NamesOfTier(names[1..], tier);
      forall m | 0 <= m < |names[1..]| ensures names[1..][m] != names[0] {
        assert names[1..][m] == names[m + 1];
      }
      var r := NamesOfTier(names, tier);
      forall i, j | 0 <= i < j < |r| ensures r[i] != r[j] {
        if r == [names[0]] + rest {
          if i > 0 { assert r[i] == rest[i - 1] && r[j] == rest[j - 1]; }
          else { assert r[j] == rest[j - 1]; assert r[j] in rest; }
        }
      }
    }
  }

  /** `list_models_by_tier(tier)`: the catalog's names of that tier, sorted. */
  function ListModelsByTier(tier: ModelTier): seq<string> {
    Sort(NamesOfTier(CatalogOrder, tier))
  }

  /** The listing is strictly ascending (so without duplicates) and holds exactly the text
      models of that tier. */
  lemma ListModelsByTierCorrect(tier: ModelTier, name: string)
    ensures StrictlySorted(ListModelsByTier(tier))
    ensures name in ListModelsByTier(tier) <==> GetModelInfo(name).Some? && GetModelInfo(name).value.tier == tier
  {
    var ns := NamesOfTier(CatalogOrder, tier);
    CatalogOrderIsKeys();
    NamesOfTierDistinct(CatalogOrder, tier);
    SortStrictlySorted(ns);
    assert name in ListModelsByTier(tier) <==> name in multiset(ns);
  }
}
