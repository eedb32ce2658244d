/** In which order suggestions come out: when it is the promised one, exactly, and an input for which it is not. */
module SuggestionOrder {
  import opened Basics
  import opened Planner
  import opened Suggest

  predicate MostDownloadedReported(ss: seq<Suggestion>) {
    forall i, j :: 0 <= i < j < |ss| ==> ss[i].downloads >= ss[j].downloads
  }

  /** The candidate is suggested if it is considered. */
  ghost predicate Acceptable(hub: Hub, m: Model, vramMiB: int, contextTokens: int) {
    SuggestionFor(hub, m, vramMiB, contextTokens).Some?
  }

  /** What stands before `n` in every ranking that has `m` before `n`. */
  function Before(ms: seq<Model>, m: Model, n: Model): set<Model> {
    set x | x in ms && (x.downloads > n.downloads || x == m)
  }

  ghost function AcceptableOf(hub: Hub, s: set<Model>, vramMiB: int, contextTokens: int): set<Model> {
    set x | x in s && Acceptable(hub, x, vramMiB, contextTokens)
  }

  /** Two acceptable candidates, of which the search reported at least as many downloads for the first. */
  ghost predicate Ahead(hub: Hub, ms: seq<Model>, m: Model, n: Model, vramMiB: int, contextTokens: int) {
    && m in ms && n in ms && m != n && m.downloads >= n.downloads
    && Acceptable(hub, m, vramMiB, contextTokens) && Acceptable(hub, n, vramMiB, contextTokens)
  }

  /** Some ranking suggests `m` and after it `n`, when `fetches` candidates are considered and `limit` are suggested. */
  ghost predicate Both(hub: Hub, ms: seq<Model>, m: Model, n: Model, fetches: nat, limit: nat, vramMiB: int,
                       contextTokens: int) {
    && Ahead(hub, ms, m, n, vramMiB, contextTokens)
    && |Before(ms, m, n)| < fetches
    && |AcceptableOf(hub, Before(ms, m, n), vramMiB, contextTokens)| < limit
  }

  /** Among candidates that can be suggested one after the other, model pages agree with the search about the order. */
  ghost predicate PagesAgree(hub: Hub, ms: seq<Model>, fetches: nat, limit: nat, vramMiB: int, contextTokens: int) {
    forall m, n :: Both(hub, ms, m, n, fetches, limit, vramMiB, contextTokens) ==>
                     hub.fetch(m.id).value.downloads >= hub.fetch(n.id).value.downloads
  }

  /** The suggestions made from this ranking. */
  ghost function Suggested(hub: Hub, ranked: seq<Model>, fetches: nat, limit: nat, vramMiB: int, contextTokens: int)
    : seq<Suggestion>
  {
    Take(SuggestionsOf(hub, Take(ranked, fetches), vramMiB, contextTokens), limit)
  }

  /** However ties fall, the suggestions are most downloaded first. */
  ghost predicate AlwaysOrdered(hub: Hub, ms: seq<Model>, fetches: nat, limit: nat, vramMiB: int, contextTokens: int) {
    forall ranked :: IsRanking(ranked, ms) ==>
                       MostDownloadedReported(Suggested(hub, ranked, fetches, limit, vramMiB, contextTokens))
  }

  // ----- sequences without repetition -----

  predicate Unrepeated(ms: seq<Model>) {
    forall i, j :: 0 <= i < j < |ms| ==> ms[i] != ms[j]
  }

  function Elements(ms: seq<Model>): set<Model> {
    set m | m in ms
  }

  lemma {:induction false} UnrepeatedIsSet(ms: seq<Model>)
    requires Unrepeated(ms)
    ensures multiset(ms) == multiset(Elements(ms)) && |Elements(ms)| == |ms|
  {
    if ms != [] {
      var last := |ms| - 1;
      UnrepeatedIsSet(ms[..last]);
      assert ms == ms[..last] + [ms[last]];
      assert Elements(ms) == Elements(ms[..last]) + {ms[last]};
      assert ms[last] !in Elements(ms[..last]);
    }
  }

  lemma {:induction false} SetIsUnrepeated(ms: seq<Model>, s: set<Model>)
    requires multiset(ms) == multiset(s)
    ensures Unrepeated(ms) && Elements(ms) == s
  {
    forall i, j | 0 <= i < j < |ms| ensures ms[i] != ms[j] {
      assert ms == ms[..i] + [ms[i]] + ms[i + 1..j] + [ms[j]] + ms[j + 1..];
      assert multiset(ms)[ms[i]] == multiset(s)[ms[i]] <= 1;
    }
    assert forall x :: x in ms <==> x in multiset(ms);
  }

  /** A ranking of different candidates has each of them once. */
  lemma RankingIsUnrepeated(ranked: seq<Model>, ms: seq<Model>)
    requires multiset(ranked) == multiset(ms) && DistinctKeys(ms)
    ensures Unrepeated(ranked) && Elements(ranked) == Elements(ms)
  {
    UnrepeatedIsSet(ms);
    SetIsUnrepeated(ranked, Elements(ms));
  }

  // ----- rankings exist -----

  function Inserted(ms: seq<Model>, m: Model): (r: seq<Model>)
    requires MostDownloadedFirst(ms)
    ensures MostDownloadedFirst(r) && multiset(r) == multiset(ms) + multiset{m}
    ensures forall x :: x in r <==> x in ms || x == m
  {
    if ms == [] || ms[|ms| - 1].downloads >= m.downloads then ms + [m]
    else
      var last := |ms| - 1;
      assert ms == ms[..last] + [ms[last]];
      var r := Inserted(ms[..last], m);
      assert forall i :: 0 <= i < |r| ==> r[i] in r && r[i].downloads >= ms[last].downloads;
      r + [ms[last]]
  }

  lemma {:induction false} RankSet(s: set<Model>) returns (ranked: seq<Model>)
    ensures MostDownloadedFirst(ranked) && multiset(ranked) == multiset(s)
  {
    ranked := [];
    if s != {} {
      var m :| m in s;
      var rest := RankSet(s - {m});
      ranked := Inserted(rest, m);
      assert multiset(s) == multiset(s - {m}) + multiset{m};
    }
  }

  // ----- what is suggested from a ranking -----

  /** As many are suggested as are acceptable. */
  lemma {:induction false} SuggestsAcceptable(hub: Hub, ms: seq<Model>, vramMiB: int, contextTokens: int)
    requires Unrepeated(ms)
    ensures |SuggestionsOf(hub, ms, vramMiB, contextTokens)|
        == |AcceptableOf(hub, Elements(ms), vramMiB, contextTokens)|
  {
    hide SuggestionFor, Elements, AcceptableOf;
    if ms == [] {
      assert AcceptableOf(hub, Elements(ms), vramMiB, contextTokens) == {}
          by { NothingAcceptable(hub, vramMiB, contextTokens); }
    } else {
      var last := |ms| - 1;
      SuggestsAcceptable(hub, ms[..last], vramMiB, contextTokens);
      LastAcceptable(hub, ms, vramMiB, contextTokens);
    }
  }

  lemma NothingAcceptable(hub: Hub, vramMiB: int, contextTokens: int)
    ensures AcceptableOf(hub, Elements([]), vramMiB, contextTokens) == {}
  {
  }

  lemma LastAcceptable(hub: Hub, ms: seq<Model>, vramMiB: int, contextTokens: int)
    requires ms != [] && Unrepeated(ms)
    ensures var m := ms[|ms| - 1];
            var before := AcceptableOf(hub, Elements(ms[..|ms| - 1]), vramMiB, contextTokens);
            && m !in before
            && AcceptableOf(hub, Elements(ms), vramMiB, contextTokens)
               == if Acceptable(hub, m, vramMiB, contextTokens) then before + {m} else before
  {
    hide Acceptable;
    var last := |ms| - 1;
    assert Elements(ms) == Elements(ms[..last]) + {ms[last]} by { assert ms == ms[..last] + [ms[last]]; }
  }

  /** The candidate that the `j`-th suggestion was made for. */
  lemma {:induction false} MadeFor(hub: Hub, ms: seq<Model>, j: nat, vramMiB: int, contextTokens: int) returns (b: nat)
    requires j < |SuggestionsOf(hub, ms, vramMiB, contextTokens)|
    ensures b < |ms| && |SuggestionsOf(hub, ms[..b], vramMiB, contextTokens)| == j
    ensures SuggestionFor(hub, ms[b], vramMiB, contextTokens) == Some(SuggestionsOf(hub, ms, vramMiB, contextTokens)[j])
  {
    hide SuggestionFor;
    var last := |ms| - 1;
    if j < |SuggestionsOf(hub, ms[..last], vramMiB, contextTokens)| {
      b := MadeFor(hub, ms[..last], j, vramMiB, contextTokens);
      assert ms[..last][..b] == ms[..b];
    } else {
      b := last;
    }
  }

  lemma ShowsPage(hub: Hub, m: Model, vramMiB: int, contextTokens: int)
    requires Acceptable(hub, m, vramMiB, contextTokens)
    ensures hub.fetch(m.id).Some?
    ensures SuggestionFor(hub, m, vramMiB, contextTokens).value.downloads == hub.fetch(m.id).value.downloads
  {
    hide EstimateOf, Assess, DetectQuantization;
  }

  /** In a ranking, what must stand before does. */
  lemma BeforeIsPrefix(ranked: seq<Model>, ms: seq<Model>, m: Model, b: nat)
    requires IsRanking(ranked, ms) && DistinctKeys(ms) && b < |ranked| && m in ranked[..b]
    ensures Before(ms, m, ranked[b]) <= Elements(ranked[..b])
  {
    RankingIsUnrepeated(ranked, ms);
    forall x | x in Before(ms, m, ranked[b]) ensures x in ranked[..b] {
      assert x in Elements(ms);
      if x != m {
        var k :| 0 <= k < |ranked| && ranked[k] == x;
        assert k < b;
        assert ranked[..b][k] == x;
      }
    }
  }

  /** Whatever is suggested in this order can be suggested in this order. */
  lemma SuggestedTogether(hub: Hub, ranked: seq<Model>, ms: seq<Model>, m: Model, b: nat, fetches: nat, limit: nat,
                          vramMiB: int, contextTokens: int)
    requires IsRanking(ranked, ms) && DistinctKeys(ms) && b < |ranked| && b < fetches && m in ranked[..b]
    requires Acceptable(hub, m, vramMiB, contextTokens) && Acceptable(hub, ranked[b], vramMiB, contextTokens)
    requires |SuggestionsOf(hub, ranked[..b], vramMiB, contextTokens)| < limit
    ensures Both(hub, ms, m, ranked[b], fetches, limit, vramMiB, contextTokens)
  {
    hide Acceptable;
    var n := ranked[b];
    var prefix := ranked[..b];
    RankingIsUnrepeated(ranked, ms);
    UnrepeatedIsSet(prefix);
    SuggestsAcceptable(hub, prefix, vramMiB, contextTokens);
    BeforeIsPrefix(ranked, ms, m, b);
    CardinalityGrows(Before(ms, m, n), Elements(prefix));
    CardinalityGrows(AcceptableOf(hub, Before(ms, m, n), vramMiB, contextTokens),
                     AcceptableOf(hub, Elements(prefix), vramMiB, contextTokens));
    assert m in Elements(ranked) && n in Elements(ranked);
  }

  lemma {:induction false} CardinalityGrows<T>(a: set<T>, b: set<T>)
    requires a <= b
    ensures |a| <= |b|
  {
    if a != {} {
      var x :| x in a;
      CardinalityGrows(a - {x}, b - {x});
    }
  }

  /** Two suggestions made from a ranking are in the order of their pages, if pages agree with the search. */
  lemma AgreementOrders(hub: Hub, ms: seq<Model>, ranked: seq<Model>, i: nat, j: nat, fetches: nat, limit: nat,
                        vramMiB: int, contextTokens: int)
    requires DistinctKeys(ms) && IsRanking(ranked, ms)
    requires PagesAgree(hub, ms, fetches, limit, vramMiB, contextTokens)
    requires i < j < |Suggested(hub, ranked, fetches, limit, vramMiB, contextTokens)|
    ensures var ss := Suggested(hub, ranked, fetches, limit, vramMiB, contextTokens);
            ss[i].downloads >= ss[j].downloads
  {
    hide SuggestionFor, SuggestionsOf, IsRanking, Both, DistinctKeys;
    var top := Take(ranked, fetches);
    var all := SuggestionsOf(hub, top, vramMiB, contextTokens);
    var b := MadeFor(hub, top, j, vramMiB, contextTokens);
    assert top[..b] == ranked[..b];
    SuggestionsGrow(hub, top, b, vramMiB, contextTokens);
    assert all[i] in SuggestionsOf(hub, top[..b], vramMiB, contextTokens);
    SuggestionsComeFromCandidates(hub, top[..b], vramMiB, contextTokens);
    var m :| m in top[..b] && SuggestionFor(hub, m, vramMiB, contextTokens) == Some(all[i]);
    SuggestedTogether(hub, ranked, ms, m, b, fetches, limit, vramMiB, contextTokens);
    ShowsPage(hub, m, vramMiB, contextTokens);
    ShowsPage(hub, ranked[b], vramMiB, contextTokens);
  }

  /** The ranking in which only what must stand before `n` does. */
  lemma RankWith(ms: seq<Model>, m: Model, n: Model) returns (before: seq<Model>, after: seq<Model>)
    requires DistinctKeys(ms) && m in ms && n in ms && m != n && m.downloads >= n.downloads
    ensures IsRanking(before + [n] + after, ms) && multiset(before) == multiset(Before(ms, m, n))
  {
    var s := Before(ms, m, n);
    var rest := Elements(ms) - s - {n};
    before := RankSet(s);
    after := RankSet(rest);
    assert MostDownloadedFirst(before + [n] + after) by {
      SetIsUnrepeated(before, s);
      SetIsUnrepeated(after, rest);
      RanksAround(before, n, after);
    }
    hide MostDownloadedFirst, DistinctKeys, Before, Elements;
    AroundIsWhole(ms, m, n);
  }

  lemma AroundIsWhole(ms: seq<Model>, m: Model, n: Model)
    requires DistinctKeys(ms) && m in ms && n in ms && m != n && m.downloads >= n.downloads
    ensures var s := Before(ms, m, n);
            multiset(ms) == multiset(s) + multiset{n} + multiset(Elements(ms) - s - {n})
  {
    UnrepeatedIsSet(ms);
    hide DistinctKeys, Unrepeated;
    var s := Before(ms, m, n);
    assert multiset(Elements(ms)) == multiset(s) + multiset{n} + multiset(Elements(ms) - s - {n});
  }

  lemma RanksAround(before: seq<Model>, n: Model, after: seq<Model>)
    requires MostDownloadedFirst(before) && MostDownloadedFirst(after)
    requires forall x :: x in Elements(before) ==> x.downloads >= n.downloads
    requires forall x :: x in Elements(after) ==> x.downloads <= n.downloads
    ensures MostDownloadedFirst(before + [n] + after)
  {
    assert forall i :: 0 <= i < |before| ==> before[i] in Elements(before);
    assert forall i :: 0 <= i < |after| ==> after[i] in Elements(after);
  }

  lemma SuggestsNext(hub: Hub, before: seq<Model>, n: Model, vramMiB: int, contextTokens: int)
    requires Acceptable(hub, n, vramMiB, contextTokens)
    ensures SuggestionsOf(hub, before + [n], vramMiB, contextTokens)
         == SuggestionsOf(hub, before, vramMiB, contextTokens) + [SuggestionFor(hub, n, vramMiB, contextTokens).value]
  {
    hide SuggestionFor;
    assert (before + [n])[..|before|] == before;
  }

  /** What follows a few acceptable candidates is suggested after them. */
  lemma SuggestsAfter(hub: Hub, before: seq<Model>, n: Model, after: seq<Model>, fetches: nat, limit: nat, vramMiB: int,
                      contextTokens: int)
    requires Acceptable(hub, n, vramMiB, contextTokens) && |before| < fetches
    requires |SuggestionsOf(hub, before, vramMiB, contextTokens)| < limit
    ensures SuggestionsOf(hub, before, vramMiB, contextTokens) + [SuggestionFor(hub, n, vramMiB, contextTokens).value]
            <= Suggested(hub, before + [n] + after, fetches, limit, vramMiB, contextTokens)
  {
    hide SuggestionFor, SuggestionsOf;
    var top := Take(before + [n] + after, fetches);
    assert top[..|before| + 1] == before + [n];
    SuggestsNext(hub, before, n, vramMiB, contextTokens);
    SuggestionsGrow(hub, top, |before| + 1, vramMiB, contextTokens);
  }

  /** The place of an acceptable candidate among the suggestions. */
  lemma SuggestedAt(hub: Hub, ms: seq<Model>, m: Model, vramMiB: int, contextTokens: int) returns (i: nat)
    requires m in ms && Acceptable(hub, m, vramMiB, contextTokens)
    ensures i < |SuggestionsOf(hub, ms, vramMiB, contextTokens)|
    ensures SuggestionsOf(hub, ms, vramMiB, contextTokens)[i] == SuggestionFor(hub, m, vramMiB, contextTokens).value
  {
    hide SuggestionFor, SuggestionsOf;
    SuggestionsComeFromCandidates(hub, ms, vramMiB, contextTokens);
    i :| i < |SuggestionsOf(hub, ms, vramMiB, contextTokens)|
         && SuggestionsOf(hub, ms, vramMiB, contextTokens)[i] == SuggestionFor(hub, m, vramMiB, contextTokens).value;
  }

  /** A ranking with room for `n` after no more than must stand before it. */
  lemma RankTogether(hub: Hub, ms: seq<Model>, m: Model, n: Model, fetches: nat, limit: nat, vramMiB: int,
                     contextTokens: int)
    returns (before: seq<Model>, after: seq<Model>)
    requires DistinctKeys(ms) && Both(hub, ms, m, n, fetches, limit, vramMiB, contextTokens)
    ensures IsRanking(before + [n] + after, ms) && m in before && |before| < fetches
    ensures |SuggestionsOf(hub, before, vramMiB, contextTokens)| < limit
  {
    assert m in Before(ms, m, n);
    hide SuggestionsOf, IsRanking, DistinctKeys, Before, Acceptable;
    before, after := RankWith(ms, m, n);
    SetIsUnrepeated(before, Before(ms, m, n));
    UnrepeatedIsSet(before);
    SuggestsAcceptable(hub, before, vramMiB, contextTokens);
    assert m in multiset(before);
  }

  /** Two candidates that can be suggested one after the other are, by some ranking. */
  lemma OrderAgrees(hub: Hub, ms: seq<Model>, m: Model, n: Model, fetches: nat, limit: nat, vramMiB: int,
                    contextTokens: int)
    requires DistinctKeys(ms) && AlwaysOrdered(hub, ms, fetches, limit, vramMiB, contextTokens)
    requires Both(hub, ms, m, n, fetches, limit, vramMiB, contextTokens)
    ensures hub.fetch(m.id).Some? && hub.fetch(n.id).Some?
    ensures hub.fetch(m.id).value.downloads >= hub.fetch(n.id).value.downloads
  {
    hide SuggestionFor, SuggestionsOf, IsRanking, DistinctKeys, Before, Suggested;
    var before, after := RankTogether(hub, ms, m, n, fetches, limit, vramMiB, contextTokens);
    ShowsPage(hub, m, vramMiB, contextTokens);
    ShowsPage(hub, n, vramMiB, contextTokens);
    SuggestsAfter(hub, before, n, after, fetches, limit, vramMiB, contextTokens);
    var i := SuggestedAt(hub, before, m, vramMiB, contextTokens);
    var first := SuggestionsOf(hub, before, vramMiB, contextTokens);
    var ss := Suggested(hub, before + [n] + after, fetches, limit, vramMiB, contextTokens);
    assert ss[i].downloads >= ss[|first|].downloads;
  }

  /**
   * The order of the suggestions, exactly: however the ranking settles ties, the first `limit` acceptable ones of the
   * first `fetches` candidates come out most downloaded first, if and only if model pages agree with the search about
   * the order of every two acceptable candidates that can be suggested one after the other.
   */
  lemma OrderIsExact(hub: Hub, ms: seq<Model>, fetches: nat, limit: nat, vramMiB: int, contextTokens: int)
    requires DistinctKeys(ms)
    ensures AlwaysOrdered(hub, ms, fetches, limit, vramMiB, contextTokens)
            <==> PagesAgree(hub, ms, fetches, limit, vramMiB, contextTokens)
  {
    hide DistinctKeys, Both, IsRanking, Suggested;
    if AlwaysOrdered(hub, ms, fetches, limit, vramMiB, contextTokens) {
      forall m, n | Both(hub, ms, m, n, fetches, limit, vramMiB, contextTokens)
        ensures hub.fetch(m.id).Some? && hub.fetch(n.id).Some?
        ensures hub.fetch(m.id).value.downloads >= hub.fetch(n.id).value.downloads
      {
        OrderAgrees(hub, ms, m, n, fetches, limit, vramMiB, contextTokens);
      }
    }
    if PagesAgree(hub, ms, fetches, limit, vramMiB, contextTokens) {
      forall ranked | IsRanking(ranked, ms)
        ensures MostDownloadedReported(Suggested(hub, ranked, fetches, limit, vramMiB, contextTokens))
      {
        var ss := Suggested(hub, ranked, fetches, limit, vramMiB, contextTokens);
        forall i, j | 0 <= i < j < |ss| ensures ss[i].downloads >= ss[j].downloads {
          AgreementOrders(hub, ms, ranked, i, j, fetches, limit, vramMiB, contextTokens);
        }
      }
    }
  }

  /** The promised order of SuggestQuantized, whatever the searches found. */
  lemma PromisedOrder(hub: Hub, baseId: string, found: seq<Model>, vramMiB: int, contextTokens: int)
    ensures var kept := Kept(found, ToLower(baseId), ShortName(baseId));
            AlwaysOrdered(hub, kept, MAX_CANDIDATE_FETCHES, MAX_SUGGESTIONS, vramMiB, contextTokens)
            <==> PagesAgree(hub, kept, MAX_CANDIDATE_FETCHES, MAX_SUGGESTIONS, vramMiB, contextTokens)
  {
    hide AlwaysOrdered, PagesAgree, DistinctKeys;
    KeptIsExact(found, ToLower(baseId), ShortName(baseId));
    OrderIsExact(hub, Kept(found, ToLower(baseId), ShortName(baseId)), MAX_CANDIDATE_FETCHES, MAX_SUGGESTIONS, vramMiB,
                 contextTokens);
  }

  /** Every suggestion that any ranking allows, without limits, in order. */
  ghost predicate AllOrdered(hub: Hub, ms: seq<Model>, vramMiB: int, contextTokens: int) {
    forall ranked :: IsRanking(ranked, ms)
        ==> MostDownloadedReported(SuggestionsOf(hub, ranked, vramMiB, contextTokens))
  }

  lemma UnlimitedIsAll(hub: Hub, ms: seq<Model>, vramMiB: int, contextTokens: int)
    ensures AlwaysOrdered(hub, ms, |ms| + 1, |ms| + 1, vramMiB, contextTokens)
            <==> AllOrdered(hub, ms, vramMiB, contextTokens)
  {
    hide MostDownloadedReported, SuggestionsOf, MostDownloadedFirst;
    forall ranked | IsRanking(ranked, ms)
      ensures Suggested(hub, ranked, |ms| + 1, |ms| + 1, vramMiB, contextTokens)
           == SuggestionsOf(hub, ranked, vramMiB, contextTokens)
    {
      assert |multiset(ranked)| == |multiset(ms)|;
    }
    hide IsRanking, Suggested;
  }

  lemma UnlimitedBoth(hub: Hub, ms: seq<Model>, m: Model, n: Model, vramMiB: int, contextTokens: int)
    requires DistinctKeys(ms)
    ensures Both(hub, ms, m, n, |ms| + 1, |ms| + 1, vramMiB, contextTokens)
            <==> Ahead(hub, ms, m, n, vramMiB, contextTokens)
  {
    hide Ahead, DistinctKeys, Before, AcceptableOf;
    BeforeIsSmall(hub, ms, m, n, vramMiB, contextTokens);
  }

  /** Without the two limits every two acceptable candidates count. */
  lemma OrderIsExactUnlimited(hub: Hub, ms: seq<Model>, vramMiB: int, contextTokens: int)
    requires DistinctKeys(ms)
    ensures AllOrdered(hub, ms, vramMiB, contextTokens)
            <==> (forall m, n :: Ahead(hub, ms, m, n, vramMiB, contextTokens) ==>
                                   hub.fetch(m.id).value.downloads >= hub.fetch(n.id).value.downloads)
  {
    hide Both, DistinctKeys, AlwaysOrdered, AllOrdered, SuggestionFor;
    UnlimitedIsAll(hub, ms, vramMiB, contextTokens);
    OrderIsExact(hub, ms, |ms| + 1, |ms| + 1, vramMiB, contextTokens);
    forall m, n
      ensures Both(hub, ms, m, n, |ms| + 1, |ms| + 1, vramMiB, contextTokens)
              <==> Ahead(hub, ms, m, n, vramMiB, contextTokens)
    {
      UnlimitedBoth(hub, ms, m, n, vramMiB, contextTokens);
    }
  }

  lemma BeforeIsSmall(hub: Hub, ms: seq<Model>, m: Model, n: Model, vramMiB: int, contextTokens: int)
    requires DistinctKeys(ms)
    ensures |Before(ms, m, n)| <= |ms| && |AcceptableOf(hub, Before(ms, m, n), vramMiB, contextTokens)| <= |ms|
  {
    UnrepeatedIsSet(ms);
    hide Acceptable;
    CardinalityGrows(Before(ms, m, n), Elements(ms));
    CardinalityGrows(AcceptableOf(hub, Before(ms, m, n), vramMiB, contextTokens), Elements(ms));
  }

  /** The page of a one-parameter model with these downloads, and a configuration that names its scheme. */
  function Page(id: string, downloads: int): Model {
    Model(id, "0123", false, downloads, [], Some(map["I32" := 1]))
  }

  const AWQ_CONFIG := NO_CONFIG.(quantization := Some(Quantization("awq", 4)))

  lemma NamedScheme(page: Model)
    ensures DetectQuantization(page, AWQ_CONFIG) != ""
        && QuantBits(DetectQuantization(page, AWQ_CONFIG), AWQ_CONFIG) == 4
  {
  }

  lemma PageTotal(id: string, downloads: int)
    ensures var page := Page(id, downloads);
            && DetectQuantization(page, AWQ_CONFIG) != ""
            && EstimateOf(page, AWQ_CONFIG, 4096).Ok?
            && EstimateOf(page, AWQ_CONFIG, 4096).value.totalBytes <= 8 + FIXED_OVERHEAD_BYTES
  {
    hide DetectQuantization, ToLower, MarkerOf, EstimateOf, QuantBits;
    var page := Page(id, downloads);
    NamedScheme(page);
    var bits := BitsOf(page.parameters.value, 4);
    assert page.parameters.value.Keys == {"I32"};
    SumPick({"I32"}, bits, "I32");
    assert Sum({"I32"} - {"I32"}, bits) == 0;
    var rest := TotalByContext(page, AWQ_CONFIG, 4096);
  }

  lemma PageFits(hub: Hub, m: Model, downloads: int)
    requires hub.fetch(m.id) == Some(Page(m.id, downloads)) && hub.config(m.id, "0123") == Some(AWQ_CONFIG)
    ensures var s := SuggestionFor(hub, m, 80000, 4096); s.Some? && s.value.downloads == downloads
  {
    hide DetectQuantization, EstimateOf, Assess;
    PageTotal(m.id, downloads);
    AssessInIntegers(EstimateOf(Page(m.id, downloads), AWQ_CONFIG, 4096).value.totalBytes, 80000);
  }

  /**
   * The promised order can fail: the ranking uses the downloads that the search reported, and the suggestions show
   * those of the model page. Here the second of two acceptable candidates is shown with more downloads than the
   * first.
   */
  lemma OrderCanDiffer(hub: Hub, first: Model, second: Model)
    requires first.downloads == 2 && second.downloads == 1
    requires hub.fetch(first.id) == Some(Page(first.id, 1)) && hub.config(first.id, "0123") == Some(AWQ_CONFIG)
    requires hub.fetch(second.id) == Some(Page(second.id, 2)) && hub.config(second.id, "0123") == Some(AWQ_CONFIG)
    ensures MostDownloadedFirst([first, second])
    ensures var ss := SuggestionsOf(hub, [first, second], 80000, 4096);
            |ss| == 2 && !MostDownloadedReported(ss)
  {
    PageFits(hub, first, 1);
    PageFits(hub, second, 2);
    TwoSuggestions(hub, first, second, 80000, 4096);
    hide SuggestionFor, SuggestionsOf, Page;
    var ss := SuggestionsOf(hub, [first, second], 80000, 4096);
    assert ss[0].downloads < ss[1].downloads;
  }

  lemma TwoSuggestions(hub: Hub, first: Model, second: Model, vramMiB: int, contextTokens: int)
    requires SuggestionFor(hub, first, vramMiB, contextTokens).Some?
    requires SuggestionFor(hub, second, vramMiB, contextTokens).Some?
    ensures SuggestionsOf(hub, [first, second], vramMiB, contextTokens)
         == [SuggestionFor(hub, first, vramMiB, contextTokens).value,
             SuggestionFor(hub, second, vramMiB, contextTokens).value]
  {
    hide SuggestionFor;
    assert [first, second][..1] == [first] && [first][..0] == [];
    assert SuggestionsOf(hub, [], vramMiB, contextTokens) == [];
  }
}
