/** Suggesting quantized variants of a model that fit the GPU. */
module Suggest {
  import opened Basics
  import opened Planner

  datatype Suggestion = Suggestion(estimate: Estimate, verdict: Verdict, downloads: int, gated: bool)

  datatype SearchError = SearchFailed

  /** The hub: what a search returns, a model's current page, and its configuration at a revision. */
  datatype Hub = Hub(
    search: string -> Option<seq<Model>>,
    fetch: string -> Option<Model>,
    config: (string, string) -> Option<Config>)

  const VARIANT_QUERIES := ["AWQ", "GPTQ", "FP8", "NVFP4", "4bit"]
  const MAX_CANDIDATE_FETCHES := 12
  const MAX_SUGGESTIONS := 5

  const NO_CONFIG := Config([], "", 0, 0, 0, 0, 0, 0, None)

  /** The part after the first slash, or the whole reference. */
  function ShortName(id: string): string {
    AfterSlash(id, id)
  }

  function AfterSlash(rest: string, whole: string): string {
    if rest == "" then whole else if rest[0] == '/' then rest[1..] else AfterSlash(rest[1..], whole)
  }

  lemma {:induction false} AfterFirstSlash(before: string, after: string, whole: string)
    requires '/' !in before
    ensures AfterSlash(before, whole) == whole
    ensures AfterSlash(before + "/" + after, whole) == after
  {
    if before == "" {
      assert (before + "/" + after)[1..] == after;
    } else {
      assert (before + "/" + after)[1..] == before[1..] + "/" + after;
      AfterFirstSlash(before[1..], after, whole);
    }
  }

  /** The short name is what follows the organisation, slashes of its own included; without one it is the reference. */
  lemma NameAfterOrg(org: string, name: string)
    requires '/' !in org
    ensures ShortName(org + "/" + name) == name
    ensures ShortName(org) == org
  {
    AfterFirstSlash(org, name, org + "/" + name);
    AfterFirstSlash(org, "", org);
  }

  predicate ServableByVllm(m: Model) {
    var id := ToLower(m.id);
    && !Contains(id, "mlx") && !Contains(id, "gguf")
    && forall t :: t in m.tags ==> ToLower(t) != "mlx" && ToLower(t) != "gguf"
  }

  /** The text holds the word, in whatever letter case. */
  ghost predicate Holds(text: string, word: string) {
    exists before, part, after :: HoldsAt(text, word, before, part, after)
  }

  predicate HoldsAt(text: string, word: string, before: string, part: string, after: string) {
    text == before + part + after && ToLower(part) == word
  }

  lemma HoldsIsExact(text: string, word: string)
    ensures Contains(ToLower(text), word) <==> Holds(text, word)
  {
    var low := ToLower(text);
    if Contains(low, word) {
      var i :| 0 <= i <= |low| && ContainsAt(low, word, i);
      var part := text[i..i + |word|];
      assert text == text[..i] + part + text[i + |word|..];
      assert ToLower(part) == low[i..i + |word|];
      assert HoldsAt(text, word, text[..i], part, text[i + |word|..]);
    }
    if Holds(text, word) {
      var before, part, after :| HoldsAt(text, word, before, part, after);
      assert low[|before|..|before| + |word|] == ToLower(part);
      assert ContainsAt(low, word, |before|);
    }
  }

  /** The runtime serves a model exactly if neither its name holds "gguf" or "mlx" nor a tag is one of them. */
  lemma ServableIsExact(m: Model)
    ensures ServableByVllm(m) <==>
              && !Holds(m.id, "gguf") && !Holds(m.id, "mlx")
              && forall tag :: tag in m.tags ==> ToLower(tag) !in {"gguf", "mlx"}
  {
    HoldsIsExact(m.id, "gguf");
    HoldsIsExact(m.id, "mlx");
    hide Contains, Holds, ToLower;
  }

  function Key(m: Model): string {
    ToLower(m.id)
  }

  function Keys(ms: seq<Model>): set<string> {
    set m | m in ms :: Key(m)
  }

  /** A search result worth considering, apart from duplicates. */
  predicate Admissible(m: Model, short: string) {
    Contains(Key(m), ToLower(short)) && ServableByVllm(m)
  }

  // ----- the candidates -----

  /**
   * The candidates that a list of search results leaves, in order: admissible, and neither seen before nor the base.
   */
  function Kept(found: seq<Model>, base: string, short: string): (kept: seq<Model>)
    ensures |kept| <= |found|
  {
    if found == [] then []
    else
      var before := Kept(found[..|found| - 1], base, short);
      var m := found[|found| - 1];
      if Admissible(m, short) && Key(m) != base && Key(m) !in Keys(before) then before + [m] else before
  }

  predicate DistinctKeys(ms: seq<Model>) {
    forall i, j :: 0 <= i < j < |ms| ==> Key(ms[i]) != Key(ms[j])
  }

  /**
   * Candidates are pairwise different without regard to case, never the base model, and admissible; and no admissible
   * result is lost, except to an earlier result with the same name.
   */
  lemma {:induction false} KeptIsExact(found: seq<Model>, base: string, short: string)
    ensures var kept := Kept(found, base, short);
            && DistinctKeys(kept)
            && (forall m :: m in kept ==> m in found && Admissible(m, short) && Key(m) != base)
            && (forall m :: m in found && Admissible(m, short) && Key(m) != base ==> Key(m) in Keys(kept))
  {
    if found != [] {
      var last := found[|found| - 1];
      KeptIsExact(found[..|found| - 1], base, short);
      var before := Kept(found[..|found| - 1], base, short);
      assert found == found[..|found| - 1] + [last];
      assert Keys(before + [last]) == Keys(before) + {Key(last)};
      assert forall i :: 0 <= i < |before| ==> before[i] in before;
      hide Admissible;
    }
  }

  /** No GGUF or MLX artifact becomes a candidate, however it spells that, nor a model without the base model's name. */
  lemma KeptAreServable(found: seq<Model>, base: string, short: string, m: Model)
    requires m in Kept(found, base, short)
    ensures Holds(m.id, ToLower(short)) && !Holds(m.id, "gguf") && !Holds(m.id, "mlx")
    ensures forall tag :: tag in m.tags ==> ToLower(tag) !in {"gguf", "mlx"}
  {
    KeptIsExact(found, base, short);
    HoldsIsExact(m.id, ToLower(short));
    ServableIsExact(m);
    hide Kept, Contains, Holds, ToLower, ServableByVllm;
  }

  lemma KeysGrow(ms: seq<Model>, m: Model)
    ensures Keys(ms + [m]) == Keys(ms) + {Key(m)}
  {
  }

  /** The results of the first `n` queries, one after the other, unless one of them fails. */
  function Found(hub: Hub, short: string, n: nat): Option<seq<Model>>
    requires n <= |VARIANT_QUERIES|
  {
    if n == 0 then Some([])
    else
      match (Found(hub, short, n - 1), hub.search(short + " " + VARIANT_QUERIES[n - 1]))
      case (Some(before), Some(results)) => Some(before + results)
      case _ => None
  }

  /** Five searches are made, one for each scheme, and their results are taken one after the other. */
  lemma SearchesAre(hub: Hub, short: string)
    ensures var awq, gptq, fp8 := hub.search(short + " " + "AWQ"), hub.search(short + " " + "GPTQ"),
                                  hub.search(short + " " + "FP8");
            var nvfp4, fourBit := hub.search(short + " " + "NVFP4"), hub.search(short + " " + "4bit");
            Found(hub, short, |VARIANT_QUERIES|)
            == if awq == None || gptq == None || fp8 == None || nvfp4 == None || fourBit == None then None
               else Some([] + awq.value + gptq.value + fp8.value + nvfp4.value + fourBit.value)
  {
    var one, two, three, four := Found(hub, short, 1), Found(hub, short, 2), Found(hub, short, 3), Found(hub, short, 4);
    assert Found(hub, short, 0) == Some([]);
  }

  /** Collects the candidates; `seen` holds the base model and every candidate so far. */
  method CollectCandidates(hub: Hub, baseId: string) returns (r: Result<seq<Model>, SearchError>)
    ensures r == match Found(hub, ShortName(baseId), |VARIANT_QUERIES|)
                 case None => Err(SearchFailed)
                 case Some(found) => Ok(Kept(found, ToLower(baseId), ShortName(baseId)))
  {
    var short := ShortName(baseId);
    var base := ToLower(baseId);
    var seen := {base};
    var candidates: seq<Model> := [];
    ghost var found: seq<Model> := [];
    var q := 0;
    while q < |VARIANT_QUERIES|
      invariant 0 <= q <= |VARIANT_QUERIES|
      invariant Found(hub, short, q) == Some(found)
      invariant candidates == Kept(found, base, short)
      invariant seen == {base} + Keys(candidates)
    {
      var results := hub.search(short + " " + VARIANT_QUERIES[q]);
      if results == None {
        AnySearchFails(hub, short, q + 1, |VARIANT_QUERIES|);
        return Err(SearchFailed);
      }
      candidates, seen := AddResults(results.value, found, candidates, seen, base, short);
      found := found + results.value;
      q := q + 1;
    }
    return Ok(candidates);
  }

  lemma {:induction false} AnySearchFails(hub: Hub, short: string, n: nat, m: nat)
    requires n <= m <= |VARIANT_QUERIES| && Found(hub, short, n) == None
    ensures Found(hub, short, m) == None
  {
    if n < m {
      AnySearchFails(hub, short, n, m - 1);
    }
  }

  lemma KeptNext(found: seq<Model>, m: Model, base: string, short: string)
    ensures var before := Kept(found, base, short);
            Kept(found + [m], base, short)
            == if Admissible(m, short) && Key(m) != base && Key(m) !in Keys(before) then before + [m] else before
  {
    hide Admissible, Key;
    assert (found + [m])[..|found|] == found;
  }

  /** The inner loop, over the results of one query. */
  method AddResults(results: seq<Model>, ghost found: seq<Model>, candidates: seq<Model>, seen: set<string>,
                    base: string, short: string)
    returns (candidates': seq<Model>, seen': set<string>)
    requires candidates == Kept(found, base, short) && seen == {base} + Keys(candidates)
    ensures candidates' == Kept(found + results, base, short) && seen' == {base} + Keys(candidates')
  {
    hide Kept, Keys;
    candidates', seen' := candidates, seen;
    var i := 0;
    assert found + results[..0] == found;
    while i < |results|
      invariant 0 <= i <= |results|
      invariant candidates' == Kept(found + results[..i], base, short)
      invariant seen' == {base} + Keys(candidates')
    {
      hide Contains, ServableByVllm, ToLower, Kept, Keys;
      var m := results[i];
      assert found + results[..i + 1] == found + results[..i] + [m];
      KeptNext(found + results[..i], m, base, short);
      KeysGrow(candidates', m);
      i := i + 1;
      var key := ToLower(m.id);
      if key in seen' || !Contains(key, ToLower(short)) {
        continue;
      }
      if !ServableByVllm(m) {
        continue;
      }
      seen' := seen' + {key};
      candidates' := candidates' + [m];
    }
    assert results[..|results|] == results;
  }

  // ----- ranking -----

  predicate MostDownloadedFirst(ms: seq<Model>) {
    forall i, j :: 0 <= i < j < |ms| ==> ms[i].downloads >= ms[j].downloads
  }

  /** Some arrangement of the candidates by downloads; ties may fall either way. */
  predicate IsRanking(ranked: seq<Model>, ms: seq<Model>) {
    MostDownloadedFirst(ranked) && multiset(ranked) == multiset(ms)
  }

  lemma InsertedIsRanked(ms: seq<Model>, at: nat, m: Model)
    requires at <= |ms| && MostDownloadedFirst(ms)
    requires forall j :: 0 <= j < at ==> ms[j].downloads >= m.downloads
    requires at < |ms| ==> ms[at].downloads < m.downloads
    ensures MostDownloadedFirst(ms[..at] + [m] + ms[at..])
  {
    var r := ms[..at] + [m] + ms[at..];
    assert forall j :: 0 <= j < at ==> r[j] == ms[j];
    assert forall j :: at < j < |r| ==> r[j] == ms[j - 1] && r[j].downloads <= ms[at].downloads;
    forall i, j | 0 <= i < j < |r| ensures r[i].downloads >= r[j].downloads {
    }
  }

  lemma InsertedIsPermuted(ms: seq<Model>, at: nat, m: Model)
    requires at <= |ms|
    ensures multiset(ms[..at] + [m] + ms[at..]) == multiset(ms) + multiset{m}
  {
    assert ms == ms[..at] + ms[at..];
  }

  /** Where a model belongs among ranked ones: after all that have at least its downloads. */
  method Position(ranked: seq<Model>, m: Model) returns (at: nat)
    ensures at <= |ranked|
    ensures forall j :: 0 <= j < at ==> ranked[j].downloads >= m.downloads
    ensures at < |ranked| ==> ranked[at].downloads < m.downloads
  {
    at := 0;
    while at < |ranked| && ranked[at].downloads >= m.downloads
      invariant at <= |ranked|
      invariant forall j :: 0 <= j < at ==> ranked[j].downloads >= m.downloads
    {
      at := at + 1;
    }
  }

  /** Sorts by downloads. Callers may rely only on the contract: the source's sort does not settle ties. */
  method Rank(ms: seq<Model>) returns (ranked: seq<Model>)
    ensures IsRanking(ranked, ms)
  {
    ranked := [];
    var i := 0;
    while i < |ms|
      invariant 0 <= i <= |ms|
      invariant MostDownloadedFirst(ranked) && multiset(ranked) == multiset(ms[..i])
    {
      hide MostDownloadedFirst;
      var at := Position(ranked, ms[i]);
      assert ms[..i + 1] == ms[..i] + [ms[i]];
      InsertedIsRanked(ranked, at, ms[i]);
      InsertedIsPermuted(ranked, at, ms[i]);
      ranked := ranked[..at] + [ms[i]] + ranked[at..];
      i := i + 1;
    }
    assert ms[..i] == ms;
  }

  // ----- the suggestions -----

  function ConfigAt(hub: Hub, id: string, sha: string): Config {
    match hub.config(id, sha) case Some(cfg) => cfg case None => NO_CONFIG
  }

  /** A model whose configuration cannot be read is estimated without a cache, and by its name and tags alone. */
  lemma UnreadableConfig(hub: Hub, id: string, sha: string, model: Model, contextTokens: int)
    requires hub.config(id, sha) == None && model.parameters.Some? && model.parameters.value != map[]
    ensures var est := EstimateOf(model, ConfigAt(hub, id, sha), contextTokens).value;
            && est.kvCacheBytes == 0 && est.kvCacheUnknown && est.architecture == ""
            && est.quantization == MarkerOf([model.id] + model.tags)
  {
    hide MarkerOf, Sum, ToLower;
  }

  /** What a candidate is worth, if its page can be read, its size is known, it is quantized and it fits. */
  ghost function SuggestionFor(hub: Hub, candidate: Model, vramMiB: int, contextTokens: int): Option<Suggestion> {
    match hub.fetch(candidate.id)
    case None => None
    case Some(model) =>
      if model.sha == "" then None
      else
        var cfg := ConfigAt(hub, candidate.id, model.sha);
        match EstimateOf(model, cfg, contextTokens)
        case Err(_) => None
        case Ok(est) =>
          if DetectQuantization(model, cfg) == "" then None
          else
            var verdict := Assess(est.totalBytes, vramMiB);
            if verdict == TooBig then None else Some(Suggestion(est, verdict, model.downloads, model.gated))
  }

  /** The suggestions of the candidates, in their order. */
  ghost function SuggestionsOf(hub: Hub, ms: seq<Model>, vramMiB: int, contextTokens: int): (r: seq<Suggestion>)
    ensures |r| <= |ms|
  {
    if ms == [] then []
    else
      var last := |ms| - 1;
      SuggestionsOf(hub, ms[..last], vramMiB, contextTokens) +
      (match SuggestionFor(hub, ms[last], vramMiB, contextTokens) case None => [] case Some(s) => [s])
  }

  lemma {:induction false} SuggestionsGrow(hub: Hub, ms: seq<Model>, n: nat, vramMiB: int, contextTokens: int)
    requires n <= |ms|
    ensures SuggestionsOf(hub, ms[..n], vramMiB, contextTokens) <= SuggestionsOf(hub, ms, vramMiB, contextTokens)
    decreases |ms|
  {
    hide SuggestionFor;
    if n < |ms| {
      var last := |ms| - 1;
      SuggestionsGrow(hub, ms[..last], n, vramMiB, contextTokens);
      assert ms[..last][..n] == ms[..n];
    } else {
      assert ms[..n] == ms;
    }
  }

  /** Fetches one candidate and decides about it. */
  method Consider(hub: Hub, candidate: Model, vramMiB: int, contextTokens: int) returns (r: Option<Suggestion>)
    ensures r == SuggestionFor(hub, candidate, vramMiB, contextTokens)
  {
    var fetched := hub.fetch(candidate.id);
    if fetched.None? || fetched.value.sha == "" {
      return None;
    }
    var model := fetched.value;
    var cfg := ConfigAt(hub, candidate.id, model.sha);
    var est := EstimateModel(model, cfg, contextTokens);
    if est.Err? {
      return None;
    }
    if DetectQuantization(model, cfg) == "" {
      return None;
    }
    var verdict := Assess(est.value.totalBytes, vramMiB);
    if verdict == TooBig {
      return None;
    }
    return Some(Suggestion(est.value, verdict, model.downloads, model.gated));
  }

  /** The last loop: stops at the fifth suggestion. */
  method ConsiderAll(hub: Hub, candidates: seq<Model>, vramMiB: int, contextTokens: int)
    returns (suggestions: seq<Suggestion>)
    ensures suggestions == Take(SuggestionsOf(hub, candidates, vramMiB, contextTokens), 5)
  {
    suggestions := [];
    var i := 0;
    while i < |candidates|
      invariant 0 <= i <= |candidates|
      invariant suggestions == SuggestionsOf(hub, candidates[..i], vramMiB, contextTokens)
      invariant |suggestions| < MAX_SUGGESTIONS
    {
      hide SuggestionFor;
      var s := Consider(hub, candidates[i], vramMiB, contextTokens);
      assert candidates[..i + 1][..i] == candidates[..i];
      i := i + 1;
      if s == None {
        continue;
      }
      suggestions := suggestions + [s.value];
      if |suggestions| == MAX_SUGGESTIONS {
        SuggestionsGrow(hub, candidates, i, vramMiB, contextTokens);
        return;
      }
    }
    assert candidates[..i] == candidates;
  }

  /**
   * SuggestQuantized: of the candidates ranked by the downloads their search reported, the first twelve are considered,
   * and the first five that are acceptable are suggested.
   */
  method SuggestQuantized(hub: Hub, baseId: string, vramMiB: int, contextTokens: int)
    returns (r: Result<seq<Suggestion>, SearchError>, ghost ranked: seq<Model>)
    ensures r.Err? <==> Found(hub, ShortName(baseId), |VARIANT_QUERIES|) == None
    ensures r.Ok? ==>
              && IsRanking(ranked,
                  Kept(Found(hub, ShortName(baseId), |VARIANT_QUERIES|).value, ToLower(baseId), ShortName(baseId)))
              && r.value
                  == Take(SuggestionsOf(hub, Take(ranked, 12), vramMiB, contextTokens), 5)
  {
    ranked := [];
    var collected := CollectCandidates(hub, baseId);
    if collected.Err? {
      return Err(SearchFailed), [];
    }
    var candidates := Rank(collected.value);
    ranked := candidates;
    if |candidates| > MAX_CANDIDATE_FETCHES {
      candidates := candidates[..MAX_CANDIDATE_FETCHES];
    }
    var suggestions := ConsiderAll(hub, candidates, vramMiB, contextTokens);
    return Ok(suggestions), ranked;
  }

  // ----- what the caller gets -----

  lemma {:induction false} SuggestionsComeFromCandidates(hub: Hub, ms: seq<Model>, vramMiB: int, contextTokens: int)
    ensures forall s :: s in SuggestionsOf(hub, ms, vramMiB, contextTokens) <==>
              exists m :: m in ms && SuggestionFor(hub, m, vramMiB, contextTokens) == Some(s)
  {
    if ms != [] {
      var last := |ms| - 1;
      SuggestionsComeFromCandidates(hub, ms[..last], vramMiB, contextTokens);
      assert ms == ms[..last] + [ms[last]];
      hide SuggestionFor;
    }
  }

  /**
   * Every suggestion is quantized and not TOO_BIG, and was made for a candidate that is not the base model; at most
   * five are made.
   */
  lemma SuggestionsAreAcceptable(hub: Hub, baseId: string, found: seq<Model>, ranked: seq<Model>, vramMiB: int,
                                 contextTokens: int)
    requires IsRanking(ranked, Kept(found, ToLower(baseId), ShortName(baseId)))
    ensures var all := SuggestionsOf(hub, Take(ranked, MAX_CANDIDATE_FETCHES), vramMiB, contextTokens);
            var suggestions := Take(all, MAX_SUGGESTIONS);
            && |suggestions| <= 5
            && forall s :: s in suggestions ==>
                 && s.verdict != TooBig && s.estimate.quantization != ""
                 && exists m :: m in found && Admissible(m, ShortName(baseId)) && Key(m) != ToLower(baseId)
                                && SuggestionFor(hub, m, vramMiB, contextTokens) == Some(s)
  {
    var kept := Kept(found, ToLower(baseId), ShortName(baseId));
    var top := Take(ranked, MAX_CANDIDATE_FETCHES);
    var all := SuggestionsOf(hub, top, vramMiB, contextTokens);
    KeptIsExact(found, ToLower(baseId), ShortName(baseId));
    SuggestionsComeFromCandidates(hub, top, vramMiB, contextTokens);
    forall s | s in Take(all, MAX_SUGGESTIONS)
      ensures s.verdict != TooBig && s.estimate.quantization != ""
      ensures exists m :: m in found && Admissible(m, ShortName(baseId)) && Key(m) != ToLower(baseId)
                          && SuggestionFor(hub, m, vramMiB, contextTokens) == Some(s)
    {
      assert s in all;
      var m :| m in top && SuggestionFor(hub, m, vramMiB, contextTokens) == Some(s);
      assert m in ranked;
      assert m in multiset(ranked);
      assert m in kept;
    }
  }
}
