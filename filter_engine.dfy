/**
 * The filter engine behind `applyFiltersAndRender`: the cached search results
 * are narrowed by an approximate cooking-time rule and a mood rule, both of
 * which match fixed keyword tables against the lower-cased dish title.
 */
module FilterEngine {
  import opened Text

  /** One search hit: `idMeal`, `strMeal` and `strMealThumb` of the search endpoint. */
  datatype MealSummary = MealSummary(id: string, name: string, thumbnail: string)

  /**
   * The time selector's value once read: the literal "any", or what
   * `parseInt(value, 10)` gives, which is an integer or NaN.
   */
  datatype TimeValue = Any | Num(max: int) | NaN

  const QuickKeywords: seq<string> := ["salad", "wrap", "sandwich", "stir", "taco", "omelet", "quick", "soup"]
  const SlowKeywords: seq<string> := ["stew", "casserole", "braise", "roast", "bake", "slow"]

  const ComfortKeywords: seq<string> := ["casserole", "stew", "pie", "pot roast", "curry"]
  const LightKeywords: seq<string> := ["salad", "grill", "grilled", "light", "sashimi", "ceviche", "steamed"]
  const SpicyKeywords: seq<string> := ["chili", "spicy", "hot", "pepper", "szechuan", "cajun"]

  /** The mood table; a key it does not hold contributes no keywords (`moodMap[mood] || []`). */
  function MoodKeywords(mood: string): seq<string> {
    if mood == "comfort" then ComfortKeywords
    else if mood == "light" then LightKeywords
    else if mood == "spicy" then SpicyKeywords
    else []
  }

  /** `keywords.some(k => title.includes(k))` */
  predicate SomeKeyword(title: string, keywords: seq<string>) {
    exists k | k in keywords :: Includes(title, k)
  }

  /** The predicate passed to the time filter; comparisons against NaN are false. */
  predicate PassesTime(time: TimeValue, title: string) {
    match time
    case Any => true
    case NaN => true
    case Num(max) =>
      if max <= 15 then SomeKeyword(title, QuickKeywords)
      else if max <= 30 then SomeKeyword(title, QuickKeywords) || !SomeKeyword(title, SlowKeywords)
      else true
  }

  /** The predicate passed to the mood filter: some checked mood has a keyword in the title. */
  predicate PassesMood(moods: seq<string>, title: string) {
    |moods| == 0 || exists mood | mood in moods :: SomeKeyword(title, MoodKeywords(mood))
  }

  function Title(m: MealSummary): string {
    ToLower(m.name)
  }

  /** A meal survives the filters when its title passes both rules. */
  predicate Keep(time: TimeValue, moods: seq<string>, m: MealSummary) {
    PassesTime(time, Title(m)) && PassesMood(moods, Title(m))
  }

  /** `Array.prototype.filter`: the elements that satisfy `p`, in their original order. */
  function Filter<T>(s: seq<T>, p: T -> bool): (r: seq<T>)
    ensures |r| <= |s|
    ensures forall i :: 0 <= i < |r| ==> r[i] in s && p(r[i])
    ensures forall i :: 0 <= i < |s| && p(s[i]) ==> s[i] in r
  {
    if s == [] then [] else (if p(s[0]) then [s[0]] else []) + Filter(s[1..], p)
  }

  /** The filter engine: the cached results whose titles pass both rules. */
  function Apply(results: seq<MealSummary>, time: TimeValue, moods: seq<string>): seq<MealSummary> {
    Filter(results, m => Keep(time, moods, m))
  }

  // ----- order-preserving sub-lists -----

  /** `idx` lists strictly increasing positions of `b` at which the elements of `a` appear in order. */
  ghost predicate Embeds<T>(a: seq<T>, b: seq<T>, idx: seq<nat>) {
    && |idx| == |a|
    && (forall i :: 0 <= i < |idx| ==> idx[i] < |b| && b[idx[i]] == a[i])
    && (forall i, j :: 0 <= i < j < |idx| ==> idx[i] < idx[j])
  }

  ghost predicate IsSubsequence<T>(a: seq<T>, b: seq<T>) {
    exists idx :: Embeds(a, b, idx)
  }

  /** The positions that `Filter` keeps: exactly those whose element passes, in increasing order. */
  lemma {:induction false} FilterEmbeds<T>(s: seq<T>, p: T -> bool) returns (idx: seq<nat>)
    ensures Embeds(Filter(s, p), s, idx)
    ensures forall i :: 0 <= i < |s| ==> (i in idx <==> p(s[i]))
  {
    if s == [] {
      idx := [];
    } else {
      var tail := Filter(s[1..], p);
      var rest := FilterEmbeds(s[1..], p);
      var shifted := EmbedsInTail(tail, s, rest);
      if p(s[0]) {
        assert Filter(s, p) == [s[0]] + tail;
        idx := EmbedsWithHead(tail, s, shifted);
      } else {
        assert Filter(s, p) == tail;
        idx := shifted;
      }
      forall i | 0 < i < |s| ensures i in idx <==> p(s[i]) {
        assert i in shifted <==> i - 1 in rest;
        assert s[1..][i - 1] == s[i];
      }
    }
  }

  /** An embedding into `s[1..]` shifted by one is an embedding into `s` that avoids position 0. */
  lemma EmbedsInTail<T>(a: seq<T>, s: seq<T>, idx: seq<nat>) returns (shifted: seq<nat>)
    requires s != [] && Embeds(a, s[1..], idx)
    ensures Embeds(a, s, shifted)
    ensures forall i :: 0 <= i < |shifted| ==> 0 < shifted[i]
    ensures 0 !in shifted
    ensures forall i :: 0 < i < |s| ==> (i in shifted <==> i - 1 in idx)
  {
    shifted := seq(|idx|, i requires 0 <= i < |idx| => idx[i] + 1);
    forall i | 0 <= i < |shifted| ensures shifted[i] < |s| && s[shifted[i]] == a[i] {
      assert s[1..][idx[i]] == a[i];
    }
    forall i | 0 < i < |s| ensures i in shifted <==> i - 1 in idx {
      if i in shifted {
        var k :| 0 <= k < |shifted| && shifted[k] == i;
        assert idx[k] == i - 1;
      }
      if i - 1 in idx {
        var k :| 0 <= k < |idx| && idx[k] == i - 1;
        assert shifted[k] == i;
      }
    }
  }

  /** Putting position 0 in front of an embedding that avoids it embeds `[s[0]] + a`. */
  lemma EmbedsWithHead<T>(a: seq<T>, s: seq<T>, idx: seq<nat>) returns (idx': seq<nat>)
    requires s != [] && Embeds(a, s, idx)
    requires forall i :: 0 <= i < |idx| ==> 0 < idx[i]
    ensures Embeds([s[0]] + a, s, idx')
    ensures 0 in idx'
    ensures forall i :: 0 < i ==> (i in idx' <==> i in idx)
  {
    idx' := [0] + idx;
    forall i | 0 <= i < |idx'| ensures idx'[i] < |s| && s[idx'[i]] == ([s[0]] + a)[i] {
      if i > 0 {
        assert idx'[i] == idx[i - 1];
      }
    }
  }

  /** Every copy of a passing value is kept, and no copy of a failing one. */
  lemma {:induction false} FilterCounts<T>(s: seq<T>, p: T -> bool, x: T)
    ensures multiset(Filter(s, p))[x] == if p(x) then multiset(s)[x] else 0
  {
    if s != [] {
      FilterCounts(s[1..], p, x);
      assert s == [s[0]] + s[1..];
    }
  }

  /** Filtering with a predicate every element satisfies is the identity. */
  lemma {:induction false} FilterAllPass<T>(s: seq<T>, p: T -> bool)
    requires forall x :: x in s ==> p(x)
    ensures Filter(s, p) == s
  {
    if s != [] {
      FilterAllPass(s[1..], p);
    }
  }

  /** Two predicates that agree on the elements of `s` filter it alike. */
  lemma {:induction false} FilterAgree<T>(s: seq<T>, p: T -> bool, q: T -> bool)
    requires forall x :: x in s ==> p(x) == q(x)
    ensures Filter(s, p) == Filter(s, q)
  {
    if s != [] {
      FilterAgree(s[1..], p, q);
    }
  }

  /** Filtering twice is filtering once with the conjunction. */
  lemma {:induction false} FilterFusion<T>(s: seq<T>, p: T -> bool, q: T -> bool, both: T -> bool)
    requires forall x :: both(x) == (p(x) && q(x))
    ensures Filter(Filter(s, p), q) == Filter(s, both)
  {
    if s != [] {
      FilterFusion(s[1..], p, q, both);
      var head := if p(s[0]) then [s[0]] else [];
      var tail := Filter(s[1..], p);
      if p(s[0]) {
        assert (head + tail)[0] == s[0] && (head + tail)[1..] == tail;
      } else {
        assert head + tail == tail;
      }
    }
  }

  // ----- laws of the filter engine -----

  /** The filtered list is an order-preserving sub-list of the cached results. */
  lemma ApplyIsSubsequence(results: seq<MealSummary>, time: TimeValue, moods: seq<string>)
    ensures IsSubsequence(Apply(results, time, moods), results)
  {
    var idx := FilterEmbeds(results, m => Keep(time, moods, m));
  }

  /**
   * The filtered list consists of exactly the cached entries that pass both
   * rules, taken at their own positions and in their own order.
   */
  lemma ApplyKeepsPositions(results: seq<MealSummary>, time: TimeValue, moods: seq<string>)
    returns (idx: seq<nat>)
    ensures Embeds(Apply(results, time, moods), results, idx)
    ensures forall i :: 0 <= i < |results| ==> (i in idx <==> Keep(time, moods, results[i]))
  {
    idx := FilterEmbeds(results, m => Keep(time, moods, m));
  }

  /** A meal cached several times survives as many times as it occurs, or not at all. */
  lemma ApplyCounts(results: seq<MealSummary>, time: TimeValue, moods: seq<string>, m: MealSummary)
    ensures multiset(Apply(results, time, moods))[m] ==
      if Keep(time, moods, m) then multiset(results)[m] else 0
  {
    FilterCounts(results, x => Keep(time, moods, x), m);
  }

  /**
   * With no mood checked and a time value that filters nothing ("any", NaN or
   * above 30), the filtered list is the cached list itself.
   */
  lemma ApplyIdentity(results: seq<MealSummary>, time: TimeValue)
    requires time.Any? || time.NaN? || (time.Num? && time.max > 30)
    ensures Apply(results, time, []) == results
  {
    FilterAllPass(results, m => Keep(time, [], m));
  }

  /** Re-applying the same settings to the filtered list changes nothing. */
  lemma ApplyIdempotent(results: seq<MealSummary>, time: TimeValue, moods: seq<string>)
    ensures Apply(Apply(results, time, moods), time, moods) == Apply(results, time, moods)
  {
    FilterAllPass(Apply(results, time, moods), m => Keep(time, moods, m));
  }

  /**
   * The two rules compose by AND, in either order: the time filter followed by
   * the mood filter, or the other way round, gives the filter engine's result.
   */
  lemma ApplyComposes(results: seq<MealSummary>, time: TimeValue, moods: seq<string>)
    ensures Apply(Apply(results, time, []), Any, moods) == Apply(results, time, moods)
    ensures Apply(Apply(results, Any, moods), time, []) == Apply(results, time, moods)
  {
    FilterFusion(results, m => Keep(time, [], m), m => Keep(Any, moods, m), m => Keep(time, moods, m));
    FilterFusion(results, m => Keep(Any, moods, m), m => Keep(time, [], m), m => Keep(time, moods, m));
  }

  /** For a time value of 15 or less, a meal is kept iff its title holds a quick keyword. */
  lemma TimeRuleQuick(results: seq<MealSummary>, n: int, m: MealSummary)
    requires n <= 15
    ensures m in Apply(results, Num(n), []) <==>
      m in results && exists k :: k in QuickKeywords && IsSubstring(k, Title(m))
  {
  }

  /**
   * For a time value above 15 and at most 30, a meal is kept iff its title holds
   * a quick keyword or holds no slow keyword.
   */
  lemma TimeRuleMedium(results: seq<MealSummary>, n: int, m: MealSummary)
    requires 15 < n <= 30
    ensures m in Apply(results, Num(n), []) <==>
      m in results &&
      ((exists k :: k in QuickKeywords && IsSubstring(k, Title(m))) ||
       (forall k :: k in SlowKeywords ==> !IsSubstring(k, Title(m))))
  {
  }

  /**
   * With at least one mood checked (and time "any"), a meal is kept iff some
   * checked mood's keyword list has a keyword occurring in its title.
   */
  lemma MoodRule(results: seq<MealSummary>, moods: seq<string>, m: MealSummary)
    requires moods != []
    ensures m in Apply(results, Any, moods) <==>
      m in results && exists mood, k :: mood in moods && k in MoodKeywords(mood) && IsSubstring(k, Title(m))
  {
  }

  /** A checked mood that the table does not know neither adds nor removes meals. */
  lemma UnknownMoodIgnored(results: seq<MealSummary>, time: TimeValue, moods: seq<string>, mood: string)
    requires moods != []
    requires mood != "comfort" && mood != "light" && mood != "spicy"
    ensures Apply(results, time, moods + [mood]) == Apply(results, time, moods)
  {
    FilterAgree(results, m => Keep(time, moods + [mood], m), m => Keep(time, moods, m));
  }

  /** If every checked mood is unknown, nothing survives: the mood rule is on but has no keywords. */
  lemma {:induction false} OnlyUnknownMoodsKeepNothing(results: seq<MealSummary>, time: TimeValue, moods: seq<string>)
    requires moods != []
    requires forall mood :: mood in moods ==> MoodKeywords(mood) == []
    ensures Apply(results, time, moods) == []
  {
    if results != [] {
      OnlyUnknownMoodsKeepNothing(results[1..], time, moods);
    }
  }

  /** Filtering a pair whose first element passes and second fails keeps the first alone. */
  lemma FilterPair<T>(a: T, b: T, p: T -> bool)
    requires p(a) && !p(b)
    ensures Filter([a, b], p) == [a]
  {
    assert [a, b][1..] == [b] && [b][1..] == [];
    assert Filter([b], p) == [];
  }

  /** The quick bucket over ["Chicken Soup", "Beef Stew"] keeps only "Chicken Soup". */
  lemma QuickBucketScenario(soup: MealSummary, stew: MealSummary)
    requires soup.name == "Chicken Soup" && stew.name == "Beef Stew"
    ensures Apply([soup, stew], Num(15), []) == [soup]
  {
    assert Keep(Num(15), [], soup) by {
      ChickenSoupIsQuick(Title(soup));
    }
    assert !Keep(Num(15), [], stew) by {
      BeefStewIsNotQuick(Title(stew));
    }
    FilterPair(soup, stew, m => Keep(Num(15), [], m));
  }

  lemma ChickenSoupIsQuick(t: string)
    requires t == ToLower("Chicken Soup")
    ensures SomeKeyword(t, QuickKeywords)
  {
    assert t == "chicken soup";
    assert OccursAt("soup", t, 8);
    assert QuickKeywords[7] == "soup" && Includes(t, QuickKeywords[7]);
  }

  lemma BeefStewIsNotQuick(t: string)
    requires t == ToLower("Beef Stew")
    ensures !SomeKeyword(t, QuickKeywords)
  {
    assert t == "beef stew";
    forall i | 0 <= i < |QuickKeywords| ensures !Includes(t, QuickKeywords[i]) {
      var k := QuickKeywords[i];
      var c := if i == 3 then 'i' else if i == 5 || i == 7 then 'o' else if i == 6 then 'q' else 'a';
      assert c in k;
      MissingCharExcludes(t, k, c);
    }
  }

  /** The spicy mood over ["Spicy Tofu", "Plain Rice"] keeps only "Spicy Tofu". */
  lemma SpicyMoodScenario(tofu: MealSummary, rice: MealSummary)
    requires tofu.name == "Spicy Tofu" && rice.name == "Plain Rice"
    ensures Apply([tofu, rice], Any, ["spicy"]) == [tofu]
  {
    assert Keep(Any, ["spicy"], tofu) by {
      SpicyTofuIsSpicy(Title(tofu));
      assert "spicy" in ["spicy"];
    }
    assert !Keep(Any, ["spicy"], rice) by {
      PlainRiceIsNotSpicy(Title(rice));
    }
    FilterPair(tofu, rice, m => Keep(Any, ["spicy"], m));
  }

  lemma SpicyTofuIsSpicy(t: string)
    requires t == ToLower("Spicy Tofu")
    ensures SomeKeyword(t, MoodKeywords("spicy"))
  {
    assert t == "spicy tofu";
    assert OccursAt("spicy", t, 0);
    assert MoodKeywords("spicy")[1] == "spicy" && Includes(t, MoodKeywords("spicy")[1]);
  }

  lemma PlainRiceIsNotSpicy(t: string)
    requires t == ToLower("Plain Rice")
    ensures !SomeKeyword(t, MoodKeywords("spicy"))
  {
    assert t == "plain rice";
    forall i | 0 <= i < |SpicyKeywords| ensures !Includes(t, SpicyKeywords[i]) {
      var k := SpicyKeywords[i];
      if i == 3 {
        assert k == "pepper";
        forall j | 0 <= j && j + 6 <= |t| ensures !OccursAt(k, t, j) {
          assert t[j..j + 6][1] == t[j + 1] != 'e';
        }
      } else {
        var c := if i == 0 || i == 2 then 'h' else if i == 5 then 'j' else 's';
        assert c in k;
        MissingCharExcludes(t, k, c);
      }
    }
  }
}
