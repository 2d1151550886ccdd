/**
 * The keyword classifier: scoring a business description against the
 * keyword table, picking the two most confident categories, choosing
 * exactly two analysis methods for them and explaining the choice.
 */
module Classifier {
  import opened Wrappers
  import opened Text
  import opened Models
  import opened Constants
  import opened Seqs

  /** A `(category, confidence)` pair of the `scores` dictionary. */
  type Entry = (IndustryCategory, int)

  /** The position of a category in declaration order. */
  function CategoryIndex(c: IndustryCategory): nat {
    match c
    case Education => 0
    case ItStartup => 1
    case Manufacturing => 2
    case Marketing => 3
    case Finance => 4
    case Service => 5
    case ProjectManagement => 6
    case GeneralBusiness => 7
  }

  /** The `i`-th keyword entry belongs to the category at position `i`. */
  lemma KeywordCategoryIndex(i: nat)
    requires i < |INDUSTRY_KEYWORDS|
    ensures CategoryIndex(KeywordCategory(i)) == i
  {
    KeywordCategoriesExact();
  }

  // ---------------------------------------------------------------------
  // Scoring
  // ---------------------------------------------------------------------

  /** How many of the keywords, lower-cased, occur in the lower-cased description. */
  function CountMatches(descriptionLower: string, keywords: seq<string>): (n: nat)
    ensures n <= |keywords|
  {
    if keywords == [] then 0
    else
      var k := |keywords| - 1;
      CountMatches(descriptionLower, keywords[..k]) + (if Contains(descriptionLower, Lower(keywords[k])) then 1 else 0)
  }

  /** `min(score * 15, 95)`. */
  function Confidence(matches: nat): (c: int)
    ensures matches > 0 ==> 15 <= c <= 95
  {
    if matches * 15 < 95 then matches * 15 else 95
  }

  /** The scores of the categories with at least one match, in table order. */
  function ScoreEntries(descriptionLower: string, table: seq<(IndustryCategory, seq<string>)>): seq<Entry> {
    if table == [] then []
    else
      var n := |table| - 1;
      var count := CountMatches(descriptionLower, table[n].1);
      ScoreEntries(descriptionLower, table[..n]) + (if count > 0 then [(table[n].0, Confidence(count))] else [])
  }

  /** The entry used when nothing matches. */
  const FALLBACK_SCORE: Entry := (GeneralBusiness, 50)

  /** The `scores` dictionary once the loop and the fallback are done. */
  function CategoryScores(description: string): seq<Entry> {
    var s := ScoreEntries(Lower(description), INDUSTRY_KEYWORDS);
    if s == [] then [FALLBACK_SCORE] else s
  }

  // ---------------------------------------------------------------------
  // Stable sort by confidence, highest first
  // ---------------------------------------------------------------------

  predicate SortedByConfidence(s: seq<Entry>) {
    forall i, j :: 0 <= i < j < |s| ==> s[i].1 >= s[j].1
  }

  predicate DistinctCategories(s: seq<Entry>) {
    forall i, j :: 0 <= i < j < |s| ==> s[i].0 != s[j].0
  }

  /** Insert `x` in front of the first entry whose confidence is not higher. */
  function InsertByConfidence(x: Entry, s: seq<Entry>): (r: seq<Entry>)
    ensures |r| == |s| + 1
  {
    if s == [] || s[0].1 <= x.1 then [x] + s
    else [s[0]] + InsertByConfidence(x, s[1..])
  }

  lemma {:induction false} InsertFacts(x: Entry, s: seq<Entry>)
    ensures multiset(InsertByConfidence(x, s)) == multiset(s) + multiset{x}
    ensures forall i :: 0 <= i < |s| + 1 ==> InsertByConfidence(x, s)[i] == x || InsertByConfidence(x, s)[i] in s
    decreases |s|
  {
    if s != [] && s[0].1 > x.1 {
      InsertFacts(x, s[1..]);
      assert s == [s[0]] + s[1..];
      var r := InsertByConfidence(x, s);
      forall i | 0 <= i < |s| + 1 ensures r[i] == x || r[i] in s {
        if i > 0 {
          assert r[i] == InsertByConfidence(x, s[1..])[i - 1];
        }
      }
    }
  }

  lemma {:induction false} InsertSorted(x: Entry, s: seq<Entry>)
    requires SortedByConfidence(s)
    ensures SortedByConfidence(InsertByConfidence(x, s))
    decreases |s|
  {
    if s != [] && s[0].1 > x.1 {
      var rest := InsertByConfidence(x, s[1..]);
      InsertSorted(x, s[1..]);
      assert rest[0] == x || rest[0] == s[1];
      ConsSorted(s[0], rest);
    }
  }

  /** An entry at least as confident as the head of a sorted list can go in front of it. */
  lemma ConsSorted(a: Entry, s: seq<Entry>)
    requires SortedByConfidence(s) && (s != [] ==> a.1 >= s[0].1)
    ensures SortedByConfidence([a] + s)
  {
    var r := [a] + s;
    forall i, j | 0 <= i < j < |r| ensures r[i].1 >= r[j].1 {
      if i == 0 {
        assert r[j] == s[j - 1] && s[0].1 >= s[j - 1].1;
      } else {
        assert r[i] == s[i - 1] && r[j] == s[j - 1];
      }
    }
  }

  lemma {:induction false} InsertDistinct(x: Entry, s: seq<Entry>)
    requires DistinctCategories(s)
    requires forall i :: 0 <= i < |s| ==> s[i].0 != x.0
    ensures DistinctCategories(InsertByConfidence(x, s))
    decreases |s|
  {
    if s != [] && s[0].1 > x.1 {
      InsertDistinct(x, s[1..]);
      InsertFacts(x, s[1..]);
      var rest := InsertByConfidence(x, s[1..]);
      var r := [s[0]] + rest;
      forall i, j | 0 <= i < j < |r| ensures r[i].0 != r[j].0 {
        if i == 0 {
          assert r[j] == rest[j - 1];
          if rest[j - 1] != x {
            var k :| 0 <= k < |s[1..]| && s[1..][k] == rest[j - 1];
            assert s[k + 1] == rest[j - 1];
          }
        } else {
          assert r[i] == rest[i - 1] && r[j] == rest[j - 1];
        }
      }
    }
  }

  /** `sorted(..., key=confidence, reverse=True)`, which is stable. */
  function SortByConfidence(s: seq<Entry>): (r: seq<Entry>)
    ensures |r| == |s|
  {
    if s == [] then [] else InsertByConfidence(s[0], SortByConfidence(s[1..]))
  }

  /** The sort is a permutation, ordered by confidence, and keeps categories distinct. */
  lemma SortFacts(s: seq<Entry>)
    ensures multiset(SortByConfidence(s)) == multiset(s)
    ensures SortedByConfidence(SortByConfidence(s))
    ensures DistinctCategories(s) ==> DistinctCategories(SortByConfidence(s))
  {
    SortPermutes(s);
    SortOrders(s);
    if DistinctCategories(s) {
      SortDistinct(s);
    }
  }

  lemma {:induction false} SortPermutes(s: seq<Entry>)
    ensures multiset(SortByConfidence(s)) == multiset(s)
    decreases |s|
  {
    if s != [] {
      assert s == [s[0]] + s[1..];
      SortPermutes(s[1..]);
      InsertFacts(s[0], SortByConfidence(s[1..]));
    }
  }

  lemma {:induction false} SortOrders(s: seq<Entry>)
    ensures SortedByConfidence(SortByConfidence(s))
    decreases |s|
  {
    if s != [] {
      SortOrders(s[1..]);
      InsertSorted(s[0], SortByConfidence(s[1..]));
    }
  }

  lemma {:induction false} SortDistinct(s: seq<Entry>)
    requires DistinctCategories(s)
    ensures DistinctCategories(SortByConfidence(s))
    decreases |s|
  {
    if s != [] {
      var rest := SortByConfidence(s[1..]);
      assert DistinctCategories(s[1..]);
      SortDistinct(s[1..]);
      SortPermutes(s[1..]);
      forall i | 0 <= i < |rest| ensures rest[i].0 != s[0].0 {
        assert rest[i] in multiset(s[1..]);
        var k :| 0 <= k < |s[1..]| && s[1..][k] == rest[i];
        assert s[k + 1] == rest[i];
      }
      InsertDistinct(s[0], rest);
    }
  }

  /** The entries with confidence `v`, in order. */
  function WithConfidence(s: seq<Entry>, v: int): seq<Entry> {
    if s == [] then [] else (if s[0].1 == v then [s[0]] else []) + WithConfidence(s[1..], v)
  }

  lemma {:induction false} InsertKeepsTies(x: Entry, s: seq<Entry>, v: int)
    requires SortedByConfidence(s)
    ensures WithConfidence(InsertByConfidence(x, s), v) == (if x.1 == v then [x] else []) + WithConfidence(s, v)
    decreases |s|
  {
    if s == [] || s[0].1 <= x.1 {
      assert ([x] + s)[1..] == s;
    } else {
      var rest := InsertByConfidence(x, s[1..]);
      var w := WithConfidence(s[1..], v);
      assert InsertByConfidence(x, s) == [s[0]] + rest;
      SortedTail(s);
      InsertKeepsTies(x, s[1..], v);
      WithConfidenceCons(s[0], rest, v);
      if x.1 == v {
        assert s[0].1 != v;
        assert WithConfidence(s, v) == w;
        assert WithConfidence([s[0]] + rest, v) == [x] + w;
      } else {
        assert WithConfidence(rest, v) == w;
      }
    }
  }

  lemma SortedTail(s: seq<Entry>)
    requires s != [] && SortedByConfidence(s)
    ensures SortedByConfidence(s[1..])
  {
    forall i, j | 0 <= i < j < |s[1..]| ensures s[1..][i].1 >= s[1..][j].1 {
      assert s[1..][i] == s[i + 1] && s[1..][j] == s[j + 1];
    }
  }

  lemma WithConfidenceCons(e: Entry, rest: seq<Entry>, v: int)
    ensures WithConfidence([e] + rest, v) == (if e.1 == v then [e] else []) + WithConfidence(rest, v)
  {
    assert ([e] + rest)[1..] == rest;
  }

  /** Stability: the entries of each confidence keep their original order. */
  lemma {:induction false} SortKeepsTies(s: seq<Entry>, v: int)
    ensures WithConfidence(SortByConfidence(s), v) == WithConfidence(s, v)
    decreases |s|
  {
    if s != [] {
      SortKeepsTies(s[1..], v);
      SortFacts(s[1..]);
      InsertKeepsTies(s[0], SortByConfidence(s[1..]), v);
    }
  }

  /** Entries listed in strictly increasing declaration order. */
  predicate InCategoryOrder(s: seq<Entry>) {
    forall i, j :: 0 <= i < j < |s| ==> CategoryIndex(s[i].0) < CategoryIndex(s[j].0)
  }

  lemma {:induction false} WithConfidenceElements(s: seq<Entry>, v: int)
    ensures forall i :: 0 <= i < |WithConfidence(s, v)| ==> WithConfidence(s, v)[i] in s
    decreases |s|
  {
    if s != [] {
      WithConfidenceElements(s[1..], v);
    }
  }

  lemma {:induction false} WithConfidenceInOrder(s: seq<Entry>, v: int)
    requires InCategoryOrder(s)
    ensures InCategoryOrder(WithConfidence(s, v))
    decreases |s|
  {
    if s != [] {
      WithConfidenceInOrder(s[1..], v);
      WithConfidenceElements(s[1..], v);
      var rest := WithConfidence(s[1..], v);
      forall i | 0 <= i < |rest| ensures CategoryIndex(s[0].0) < CategoryIndex(rest[i].0) {
        var j :| 0 <= j < |s[1..]| && s[1..][j] == rest[i];
        assert s[j + 1] == rest[i];
      }
    }
  }

  lemma WithConfidenceHeads(t: seq<Entry>)
    requires |t| >= 2 && t[0].1 == t[1].1
    ensures |WithConfidence(t, t[0].1)| >= 2
    ensures WithConfidence(t, t[0].1)[0] == t[0] && WithConfidence(t, t[0].1)[1] == t[1]
  {
    assert t[1..][0] == t[1];
  }

  // ---------------------------------------------------------------------
  // The classification result
  // ---------------------------------------------------------------------

  function TopTwo(s: seq<Entry>): (r: seq<Entry>)
    ensures |r| == if |s| < 2 then |s| else 2
  {
    if |s| <= 2 then s else s[..2]
  }

  /** The `IndustryCategoryInfo` of one entry, named from `INDUSTRY_NAMES`. */
  function ToInfo(e: Entry): IndustryCategoryInfo {
    IndustryNamesComplete(e.0);
    IndustryCategoryInfo(e.0, INDUSTRY_NAMES[e.0], e.1)
  }

  /** What `classify_business` returns. */
  function ClassifySpec(description: string): seq<IndustryCategoryInfo> {
    Map(ToInfo, TopTwo(SortedScores(description)))
  }

  /** `classify_business`: the keyword-counting loops, the fallback, the sort and the cut to two. */
  method ClassifyBusiness(businessDescription: string) returns (result: seq<IndustryCategoryInfo>)
    ensures result == ClassifySpec(businessDescription)
  {
    var descriptionLower := Lower(businessDescription);
    var scores: seq<Entry> := [];
    var idx := 0;
    while idx < |INDUSTRY_KEYWORDS|
      invariant 0 <= idx <= |INDUSTRY_KEYWORDS|
      invariant scores == ScoreEntries(descriptionLower, INDUSTRY_KEYWORDS[..idx])
    {
      var category := INDUSTRY_KEYWORDS[idx].0;
      var score := CountKeywordMatches(descriptionLower, INDUSTRY_KEYWORDS[idx].1);
      ScoreEntriesStep(descriptionLower, INDUSTRY_KEYWORDS, idx);
      if score > 0 {
        scores := scores + [(category, Confidence(score))];
      }
      idx := idx + 1;
    }
    assert INDUSTRY_KEYWORDS[..idx] == INDUSTRY_KEYWORDS;
    if scores == [] {
      scores := [FALLBACK_SCORE];
    }
    var sortedCategories := TopTwo(SortByConfidence(scores));
    result := [];
    var i := 0;
    while i < |sortedCategories|
      invariant 0 <= i <= |sortedCategories|
      invariant result == Map(ToInfo, sortedCategories[..i])
    {
      MapSnoc(ToInfo, sortedCategories, i);
      result := result + [ToInfo(sortedCategories[i])];
      i := i + 1;
    }
    assert sortedCategories[..i] == sortedCategories;
  }

  /** The inner loop of `classify_business`: how many of one category's keywords occur. */
  method CountKeywordMatches(descriptionLower: string, keywords: seq<string>) returns (score: nat)
    ensures score == CountMatches(descriptionLower, keywords)
  {
    score := 0;
    var k := 0;
    while k < |keywords|
      invariant 0 <= k <= |keywords|
      invariant score == CountMatches(descriptionLower, keywords[..k])
    {
      assert keywords[..k + 1][..k] == keywords[..k];
      if Contains(descriptionLower, Lower(keywords[k])) {
        score := score + 1;
      }
      k := k + 1;
    }
    assert keywords[..k] == keywords;
  }

  /** One more category of the table adds its entry, if any keyword of it matched. */
  lemma ScoreEntriesStep(descriptionLower: string, table: seq<(IndustryCategory, seq<string>)>, idx: nat)
    requires idx < |table|
    ensures ScoreEntries(descriptionLower, table[..idx + 1]) ==
      ScoreEntries(descriptionLower, table[..idx]) +
      (if CountMatches(descriptionLower, table[idx].1) > 0
       then [(table[idx].0, Confidence(CountMatches(descriptionLower, table[idx].1)))] else [])
  {
    assert table[..idx + 1][..idx] == table[..idx];
  }

  /** Entries of a table prefix are in declaration order, below position `k`, and never the catch-all. */
  lemma {:induction false} ScoreEntriesOrdered(descriptionLower: string, k: nat)
    requires k <= |INDUSTRY_KEYWORDS|
    ensures InCategoryOrder(ScoreEntries(descriptionLower, INDUSTRY_KEYWORDS[..k]))
    ensures forall i :: 0 <= i < |ScoreEntries(descriptionLower, INDUSTRY_KEYWORDS[..k])| ==>
      CategoryIndex(ScoreEntries(descriptionLower, INDUSTRY_KEYWORDS[..k])[i].0) < k
    ensures forall i :: 0 <= i < |ScoreEntries(descriptionLower, INDUSTRY_KEYWORDS[..k])| ==>
      15 <= ScoreEntries(descriptionLower, INDUSTRY_KEYWORDS[..k])[i].1 <= 95
    decreases k
  {
    if k > 0 {
      var t := INDUSTRY_KEYWORDS[..k];
      assert t[..k - 1] == INDUSTRY_KEYWORDS[..k - 1];
      assert t[k - 1] == INDUSTRY_KEYWORDS[k - 1];
      KeywordCategoryIndex(k - 1);
      ScoreEntriesOrdered(descriptionLower, k - 1);
    }
  }

  /** No entry is produced exactly when no keyword of any category matches. */
  lemma {:induction false} ScoreEntriesEmpty(descriptionLower: string, k: nat)
    requires k <= |INDUSTRY_KEYWORDS|
    ensures ScoreEntries(descriptionLower, INDUSTRY_KEYWORDS[..k]) == [] <==>
      forall i :: 0 <= i < k ==> CountMatches(descriptionLower, INDUSTRY_KEYWORDS[i].1) == 0
    decreases k
  {
    if k > 0 {
      var t := INDUSTRY_KEYWORDS[..k];
      assert t[..k - 1] == INDUSTRY_KEYWORDS[..k - 1];
      assert t[k - 1] == INDUSTRY_KEYWORDS[k - 1];
      ScoreEntriesEmpty(descriptionLower, k - 1);
    }
  }

  /** `e` is the entry of table row `row`: one of its keywords matched, and `e` is its category with the capped score. */
  predicate ScoredBy(descriptionLower: string, row: (IndustryCategory, seq<string>), e: Entry) {
    CountMatches(descriptionLower, row.1) > 0 && e == (row.0, Confidence(CountMatches(descriptionLower, row.1)))
  }

  /** An entry is produced exactly for a row of the table with a match, scored by its match count. */
  lemma {:induction false} ScoreEntriesMembers(descriptionLower: string, table: seq<(IndustryCategory, seq<string>)>, e: Entry)
    ensures e in ScoreEntries(descriptionLower, table) <==>
      exists i :: 0 <= i < |table| && ScoredBy(descriptionLower, table[i], e)
    decreases |table|
  {
    if table != [] {
      var n := |table| - 1;
      ScoreEntriesMembers(descriptionLower, table[..n], e);
      ScoreEntriesLast(descriptionLower, table, e);
      ScoredInPrefix(descriptionLower, table, table[..n], e);
    }
  }

  /** The last row adds its entry, when it has one, to those of the rows before it. */
  lemma ScoreEntriesLast(descriptionLower: string, table: seq<(IndustryCategory, seq<string>)>, e: Entry)
    requires table != []
    ensures e in ScoreEntries(descriptionLower, table) <==>
      e in ScoreEntries(descriptionLower, table[..|table| - 1]) || ScoredBy(descriptionLower, table[|table| - 1], e)
  {
  }

  /** Some row scores `e` exactly when a row before the last does, or the last one does. */
  lemma ScoredInPrefix(descriptionLower: string, table: seq<(IndustryCategory, seq<string>)>, front: seq<(IndustryCategory, seq<string>)>, e: Entry)
    requires table != [] && front == table[..|table| - 1]
    ensures (exists i :: 0 <= i < |table| && ScoredBy(descriptionLower, table[i], e)) <==>
      (exists i :: 0 <= i < |front| && ScoredBy(descriptionLower, front[i], e)) ||
      ScoredBy(descriptionLower, table[|table| - 1], e)
  {
    var n := |front|;
    if exists i :: 0 <= i < |table| && ScoredBy(descriptionLower, table[i], e) {
      var i :| 0 <= i < |table| && ScoredBy(descriptionLower, table[i], e);
      if i < n {
        assert front[i] == table[i];
      }
    }
    if exists i :: 0 <= i < n && ScoredBy(descriptionLower, front[i], e) {
      var i :| 0 <= i < n && ScoredBy(descriptionLower, front[i], e);
      assert front[i] == table[i];
    }
  }

  /** The scores dictionary: a category is present exactly when one of its keywords matched, with the capped score
    * of its match count; when no keyword of any category matched it is the fallback alone. */
  lemma CategoryScoreOf(description: string, e: Entry)
    ensures e in CategoryScores(description) <==>
      (e == FALLBACK_SCORE &&
       forall i :: 0 <= i < |INDUSTRY_KEYWORDS| ==> CountMatches(Lower(description), INDUSTRY_KEYWORDS[i].1) == 0) ||
      (exists i :: 0 <= i < |INDUSTRY_KEYWORDS| && ScoredBy(Lower(description), INDUSTRY_KEYWORDS[i], e))
  {
    var d := Lower(description);
    var k := |INDUSTRY_KEYWORDS|;
    ScoreEntriesMembers(d, INDUSTRY_KEYWORDS, e);
    ScoreEntriesEmpty(d, k);
    assert INDUSTRY_KEYWORDS[..k] == INDUSTRY_KEYWORDS;
  }

  lemma CategoryScoresFacts(description: string)
    ensures |CategoryScores(description)| >= 1
    ensures InCategoryOrder(CategoryScores(description))
    ensures DistinctCategories(CategoryScores(description))
    ensures forall i :: 0 <= i < |CategoryScores(description)| ==>
      (CategoryScores(description)[i].0 == GeneralBusiness && CategoryScores(description)[i].1 == 50) ||
      (CategoryScores(description)[i].0 != GeneralBusiness && 15 <= CategoryScores(description)[i].1 <= 95)
  {
    var d := Lower(description);
    FullTableEntries(d);
    WithFallbackFacts(ScoreEntries(d, INDUSTRY_KEYWORDS));
  }

  lemma FullTableEntries(descriptionLower: string)
    ensures InCategoryOrder(ScoreEntries(descriptionLower, INDUSTRY_KEYWORDS))
    ensures forall i :: 0 <= i < |ScoreEntries(descriptionLower, INDUSTRY_KEYWORDS)| ==>
      CategoryIndex(ScoreEntries(descriptionLower, INDUSTRY_KEYWORDS)[i].0) < 7 &&
      15 <= ScoreEntries(descriptionLower, INDUSTRY_KEYWORDS)[i].1 <= 95
  {
    var k := |INDUSTRY_KEYWORDS|;
    KeywordCategoriesExact();
    ScoreEntriesOrdered(descriptionLower, k);
    assert INDUSTRY_KEYWORDS[..k] == INDUSTRY_KEYWORDS;
  }

  /** Entries in category order with scores in [15, 95], or the fallback alone when there are none. */
  lemma WithFallbackFacts(s: seq<Entry>)
    requires InCategoryOrder(s)
    requires forall i :: 0 <= i < |s| ==> CategoryIndex(s[i].0) < 7 && 15 <= s[i].1 <= 95
    ensures var r := if s == [] then [FALLBACK_SCORE] else s;
      && |r| >= 1
      && InCategoryOrder(r)
      && DistinctCategories(r)
      && forall i :: 0 <= i < |r| ==>
        (r[i].0 == GeneralBusiness && r[i].1 == 50) || (r[i].0 != GeneralBusiness && 15 <= r[i].1 <= 95)
  {
    forall i, j | 0 <= i < j < |s| ensures s[i].0 != s[j].0 {
      assert CategoryIndex(s[i].0) < CategoryIndex(s[j].0);
    }
  }

  /** The sorted score list that the result is cut from. */
  function SortedScores(description: string): seq<Entry> {
    SortByConfidence(CategoryScores(description))
  }

  lemma ClassifySpecEntries(description: string)
    ensures |ClassifySpec(description)| == if |SortedScores(description)| < 2 then |SortedScores(description)| else 2
    ensures forall i :: 0 <= i < |ClassifySpec(description)| ==> ClassifySpec(description)[i] == ToInfo(SortedScores(description)[i])
  {
    var top := TopTwo(SortedScores(description));
    forall i | 0 <= i < |top| ensures Map(ToInfo, top)[i] == ToInfo(SortedScores(description)[i]) {
      MapAt(ToInfo, top, i);
    }
  }

  lemma SortedScoresFacts(description: string)
    ensures |SortedScores(description)| >= 1
    ensures SortedByConfidence(SortedScores(description))
    ensures DistinctCategories(SortedScores(description))
    ensures multiset(SortedScores(description)) == multiset(CategoryScores(description))
    ensures forall i :: 0 <= i < |SortedScores(description)| ==>
      (SortedScores(description)[i].0 == GeneralBusiness && SortedScores(description)[i].1 == 50) ||
      (SortedScores(description)[i].0 != GeneralBusiness && 15 <= SortedScores(description)[i].1 <= 95)
  {
    var s := CategoryScores(description);
    var t := SortedScores(description);
    CategoryScoresFacts(description);
    SortFacts(s);
    forall i | 0 <= i < |t|
      ensures (t[i].0 == GeneralBusiness && t[i].1 == 50) || (t[i].0 != GeneralBusiness && 15 <= t[i].1 <= 95)
    {
      assert t[i] in multiset(s);
      var j :| 0 <= j < |s| && s[j] == t[i];
    }
  }

  /**
   * One or two results, each with its display name and a confidence in
   * [0, 100]: 50 for the catch-all, 15 to 95 for a matched category; two
   * results never share a category.
   */
  lemma ClassifyShape(description: string)
    ensures 1 <= |ClassifySpec(description)| <= 2
    ensures forall i :: 0 <= i < |ClassifySpec(description)| ==>
      && ValidCategoryInfo(ClassifySpec(description)[i])
      && ClassifySpec(description)[i].categoryId in INDUSTRY_NAMES
      && ClassifySpec(description)[i].categoryName == INDUSTRY_NAMES[ClassifySpec(description)[i].categoryId]
      && (if ClassifySpec(description)[i].categoryId == GeneralBusiness
          then ClassifySpec(description)[i].confidenceScore == 50
          else 15 <= ClassifySpec(description)[i].confidenceScore <= 95)
    ensures |ClassifySpec(description)| == 2 ==> ClassifySpec(description)[0].categoryId != ClassifySpec(description)[1].categoryId
  {
    ClassifySpecEntries(description);
    SortedScoresFacts(description);
    var r := ClassifySpec(description);
    forall i | 0 <= i < |r| ensures r[i].categoryId in INDUSTRY_NAMES {
      IndustryNamesComplete(r[i].categoryId);
    }
  }

  /**
   * The results are ordered by confidence, highest first, and ties keep
   * declaration order (the order of the keyword table).
   */
  lemma ClassifyOrdered(description: string)
    ensures var r := ClassifySpec(description);
      |r| == 2 ==>
        r[0].confidenceScore > r[1].confidenceScore ||
        (r[0].confidenceScore == r[1].confidenceScore &&
         CategoryIndex(r[0].categoryId) < CategoryIndex(r[1].categoryId))
  {
    ClassifySpecEntries(description);
    SortedScoresFacts(description);
    var s := CategoryScores(description);
    var t := SortedScores(description);
    if |t| >= 2 && t[0].1 == t[1].1 {
      CategoryScoresFacts(description);
      var v := t[0].1;
      WithConfidenceHeads(t);
      SortKeepsTies(s, v);
      WithConfidenceInOrder(s, v);
    }
  }

  const FALLBACK_INFO: IndustryCategoryInfo := IndustryCategoryInfo(GeneralBusiness, INDUSTRY_NAMES[GeneralBusiness], 50)

  lemma FallbackExactlyWhenNoEntry(description: string)
    ensures ClassifySpec(description) == [FALLBACK_INFO] <==> ScoreEntries(Lower(description), INDUSTRY_KEYWORDS) == []
  {
    if ScoreEntries(Lower(description), INDUSTRY_KEYWORDS) == [] {
      NoEntryFallback(description);
    } else {
      EntryNoFallback(description);
      assert FALLBACK_INFO.categoryId == GeneralBusiness;
    }
  }

  /** Without any entry, the result is the catch-all alone. */
  lemma NoEntryFallback(description: string)
    requires ScoreEntries(Lower(description), INDUSTRY_KEYWORDS) == []
    ensures ClassifySpec(description) == [FALLBACK_INFO]
  {
    var t := SortedScores(description);
    assert CategoryScores(description) == [FALLBACK_SCORE];
    assert t == InsertByConfidence(FALLBACK_SCORE, SortByConfidence([]));
    assert t == [FALLBACK_SCORE];
    assert ClassifySpec(description)[0] == ToInfo(FALLBACK_SCORE);
  }

  /** With an entry, the first category of the result is a table category, not the catch-all. */
  lemma EntryNoFallback(description: string)
    requires ScoreEntries(Lower(description), INDUSTRY_KEYWORDS) != []
    ensures |ClassifySpec(description)| >= 1 && ClassifySpec(description)[0].categoryId != GeneralBusiness
  {
    var entries := ScoreEntries(Lower(description), INDUSTRY_KEYWORDS);
    TableEntriesNotCatchAll(Lower(description));
    assert CategoryScores(description) == entries;
    SortedHeadFrom(entries);
    ClassifySpecEntries(description);
  }

  /** No entry the keyword table produces is the catch-all. */
  lemma TableEntriesNotCatchAll(descriptionLower: string)
    ensures forall i :: 0 <= i < |ScoreEntries(descriptionLower, INDUSTRY_KEYWORDS)| ==>
      ScoreEntries(descriptionLower, INDUSTRY_KEYWORDS)[i].0 != GeneralBusiness
  {
    ScoreEntriesOrdered(descriptionLower, |INDUSTRY_KEYWORDS|);
    assert INDUSTRY_KEYWORDS[..|INDUSTRY_KEYWORDS|] == INDUSTRY_KEYWORDS;
  }

  /** Sorting entries none of which is the catch-all puts no catch-all first. */
  lemma SortedHeadFrom(s: seq<Entry>)
    requires s != [] && forall i :: 0 <= i < |s| ==> s[i].0 != GeneralBusiness
    ensures SortByConfidence(s)[0].0 != GeneralBusiness
  {
    SortFacts(s);
    assert SortByConfidence(s)[0] in multiset(s);
  }

  /** The result falls back to the catch-all at 50 exactly when no keyword matches. */
  lemma ClassifyFallback(description: string)
    ensures ClassifySpec(description) == [FALLBACK_INFO] <==>
      forall i :: 0 <= i < |INDUSTRY_KEYWORDS| ==> CountMatches(Lower(description), INDUSTRY_KEYWORDS[i].1) == 0
  {
    FallbackExactlyWhenNoEntry(description);
    ScoreEntriesEmpty(Lower(description), |INDUSTRY_KEYWORDS|);
    assert INDUSTRY_KEYWORDS[..|INDUSTRY_KEYWORDS|] == INDUSTRY_KEYWORDS;
  }

  /** Every scored category either makes the result or is no more confident than the last result. */
  lemma ClassifyPicksHighest(description: string, e: Entry)
    requires e in CategoryScores(description)
    ensures var r := ClassifySpec(description);
      ToInfo(e) in r || e.1 <= r[|r| - 1].confidenceScore
  {
    var t := SortedScores(description);
    assert e in t by {
      SortedScoresFacts(description);
      assert e in multiset(CategoryScores(description));
    }
    assert SortedByConfidence(t) by {
      SortedScoresFacts(description);
    }
    TopTwoPicksHighest(t, e);
    var top := TopTwo(t);
    if e in top {
      var j :| 0 <= j < |top| && top[j] == e;
      MapAt(ToInfo, top, j);
    } else {
      MapAt(ToInfo, top, |top| - 1);
    }
  }

  /** An entry of a sorted list is either kept by the cut to two or no more confident than the last one kept. */
  lemma TopTwoPicksHighest(t: seq<Entry>, e: Entry)
    requires SortedByConfidence(t) && e in t
    ensures var top := TopTwo(t); e in top || e.1 <= top[|top| - 1].1
  {
    var j :| 0 <= j < |t| && t[j] == e;
    if j >= 2 {
      assert t[1].1 >= t[j].1;
    }
  }

  // ---------------------------------------------------------------------
  // Method selection
  // ---------------------------------------------------------------------

  /** `table.get(c, [])`. */
  function MethodsFor(table: map<IndustryCategory, seq<AnalysisMethod>>, c: IndustryCategory): seq<AnalysisMethod> {
    if c in table then table[c] else []
  }

  /** The first method of `ms` that is not in `taken`. */
  function FirstNotIn(ms: seq<AnalysisMethod>, taken: seq<AnalysisMethod>): (r: Option<AnalysisMethod>)
    ensures r.Some? ==> r.value in ms && r.value !in taken
    ensures r.None? ==> forall i :: 0 <= i < |ms| ==> ms[i] in taken
  {
    if ms == [] then None else if ms[0] !in taken then Some(ms[0]) else FirstNotIn(ms[1..], taken)
  }

  /** The methods appended, from `ms`, by a loop that skips those already taken and stops at two. */
  function FillToTwo(selected: seq<AnalysisMethod>, ms: seq<AnalysisMethod>): (r: seq<AnalysisMethod>)
    ensures |selected| <= 2 ==> |r| <= 2
    ensures NoDuplicates(selected) ==> NoDuplicates(r)
    ensures |selected| <= |r| && r[..|selected|] == selected
    decreases |ms|
  {
    if |selected| >= 2 || ms == [] then selected
    else if ms[0] in selected then FillToTwo(selected, ms[1..])
    else
      var next := selected + [ms[0]];
      assert next[..|selected|] == selected;
      FillToTwo(next, ms[1..])
  }

  /** The catch-all methods of the last resort. */
  const FALLBACK_METHODS: seq<AnalysisMethod> := [Swot, LeanCanvas, Cjm]

  /** The last-resort list is the general-business list of the table. */
  lemma FallbackIsGeneralBusiness()
    ensures FALLBACK_METHODS == INDUSTRY_METHODS[GeneralBusiness]
  {
  }

  /** Any selection of at most one method is completed to two distinct methods by the last-resort list. */
  lemma FillFromFallback(selected: seq<AnalysisMethod>)
    requires |selected| <= 1
    ensures |FillToTwo(selected, FALLBACK_METHODS)| == 2
    ensures NoDuplicates(FillToTwo(selected, FALLBACK_METHODS))
  {
    var f := FALLBACK_METHODS;
    assert f[1..] == [LeanCanvas, Cjm];
    assert f[1..][1..] == [Cjm];
    if selected == [] {
      assert FillToTwo([], f) == FillToTwo([Swot], f[1..]);
      assert FillToTwo([Swot], f[1..]) == FillToTwo([Swot, LeanCanvas], f[1..][1..]);
    } else if selected[0] == Swot {
      assert selected == [Swot];
      assert FillToTwo(selected, f[1..]) == FillToTwo([Swot, LeanCanvas], f[1..][1..]);
    } else {
      assert FillToTwo(selected, f) == FillToTwo(selected + [Swot], f[1..]);
    }
  }

  /** The first category's lead method, when it has one. */
  function LeadSelection(first: seq<AnalysisMethod>): (r: seq<AnalysisMethod>)
    ensures first != [] ==> r == [first[0]]
    ensures first == [] ==> r == []
  {
    if first != [] then [first[0]] else []
  }

  /**
   * The selection before any gap is filled: the lead method, then the second
   * category's first method not yet taken, or, for a single category, its
   * own second method.
   */
  function PairSelection(categories: seq<IndustryCategoryInfo>, table: map<IndustryCategory, seq<AnalysisMethod>>): seq<AnalysisMethod>
    requires categories != []
  {
    var first := MethodsFor(table, categories[0].categoryId);
    var lead := LeadSelection(first);
    if |categories| > 1 then
      match FirstNotIn(MethodsFor(table, categories[1].categoryId), lead)
      case Some(m) => lead + [m]
      case None => lead
    else if |first| > 1 then lead + [first[1]]
    else lead
  }

  /**
   * What `select_analysis_methods` returns over a given method table: the
   * default pair for no category; otherwise the pair, with gaps filled from
   * the first category's list and then from the last-resort list, cut or
   * padded to two.
   */
  function SelectionOf(categories: seq<IndustryCategoryInfo>, table: map<IndustryCategory, seq<AnalysisMethod>>): (r: seq<AnalysisMethod>)
    ensures |r| == 2
  {
    if categories == [] then [Swot, LeanCanvas]
    else
      var first := MethodsFor(table, categories[0].categoryId);
      var pair := PairSelection(categories, table);
      var filled := if |pair| < 2 && first != [] then FillToTwo(pair, first) else pair;
      var completed := if |filled| < 2 then FillToTwo(filled, FALLBACK_METHODS) else filled;
      if |completed| >= 2 then completed[..2] else completed + [Swot, LeanCanvas][..2 - |completed|]
  }

  /** A table whose every method list is free of repeats. */
  predicate DistinctTable(table: map<IndustryCategory, seq<AnalysisMethod>>) {
    forall c :: c in table ==> NoDuplicates(table[c])
  }

  /** The pair has at most two methods, starts with the lead method, and repeats none when the table does not. */
  lemma PairSelectionFacts(categories: seq<IndustryCategoryInfo>, table: map<IndustryCategory, seq<AnalysisMethod>>)
    requires categories != []
    ensures |PairSelection(categories, table)| <= 2
    ensures DistinctTable(table) ==> NoDuplicates(PairSelection(categories, table))
    ensures var first := MethodsFor(table, categories[0].categoryId);
      first != [] ==> PairSelection(categories, table)[0] == first[0]
  {
    var first := MethodsFor(table, categories[0].categoryId);
    if DistinctTable(table) {
      assert NoDuplicates(first);
    }
  }

  /**
   * Once the gaps are filled the selection has two methods that still
   * begin with the pair; with a repeat-free table they differ.
   */
  lemma SelectionCompletes(categories: seq<IndustryCategoryInfo>, table: map<IndustryCategory, seq<AnalysisMethod>>)
    requires categories != []
    ensures var first := MethodsFor(table, categories[0].categoryId);
      var pair := PairSelection(categories, table);
      var filled := if |pair| < 2 && first != [] then FillToTwo(pair, first) else pair;
      var completed := if |filled| < 2 then FillToTwo(filled, FALLBACK_METHODS) else filled;
      && |completed| == 2
      && completed[..|pair|] == pair
      && (DistinctTable(table) ==> completed[0] != completed[1])
  {
    var first := MethodsFor(table, categories[0].categoryId);
    var pair := PairSelection(categories, table);
    PairSelectionFacts(categories, table);
    var filled := if |pair| < 2 && first != [] then FillToTwo(pair, first) else pair;
    assert filled[..|pair|] == pair;
    if |filled| < 2 {
      FillFromFallback(filled);
      var completed := FillToTwo(filled, FALLBACK_METHODS);
      assert completed[..|filled|] == filled;
      assert completed[..|pair|] == filled[..|pair|];
    }
  }

  /**
   * `select_analysis_methods` always returns two methods, distinct when the
   * table lists no method twice: the default pair for no category, and
   * otherwise the first category's lead method followed by the second
   * category's first other method, or for a single category its own second
   * method.
   */
  lemma SelectionFacts(categories: seq<IndustryCategoryInfo>, table: map<IndustryCategory, seq<AnalysisMethod>>)
    ensures DistinctTable(table) ==> SelectionOf(categories, table)[0] != SelectionOf(categories, table)[1]
    ensures categories == [] ==> SelectionOf(categories, table) == [Swot, LeanCanvas]
    ensures categories != [] && MethodsFor(table, categories[0].categoryId) != [] ==>
      SelectionOf(categories, table)[0] == MethodsFor(table, categories[0].categoryId)[0]
    ensures |categories| == 1 && |MethodsFor(table, categories[0].categoryId)| >= 2 ==>
      SelectionOf(categories, table) == MethodsFor(table, categories[0].categoryId)[..2]
    ensures |categories| >= 2 && MethodsFor(table, categories[0].categoryId) != [] ==>
      var lead := MethodsFor(table, categories[0].categoryId)[0];
      var next := FirstNotIn(MethodsFor(table, categories[1].categoryId), [lead]);
      next.Some? ==> SelectionOf(categories, table) == [lead, next.value]
  {
    if categories != [] {
      SelectionCompletes(categories, table);
      PairSelectionFacts(categories, table);
      var r := SelectionOf(categories, table);
      var pair := PairSelection(categories, table);
      var first := MethodsFor(table, categories[0].categoryId);
      if |categories| == 1 && |first| >= 2 {
        assert pair == [first[0], first[1]];
        assert r[..2] == pair;
      }
      if |categories| >= 2 && first != [] {
        var next := FirstNotIn(MethodsFor(table, categories[1].categoryId), [first[0]]);
        if next.Some? {
          assert pair == [first[0], next.value];
          assert r[..2] == pair;
        }
      }
    }
  }

  /**
   * `select_analysis_methods`, over any method table, step by step as the
   * source makes the selection.
   */
  method SelectAnalysisMethodsFrom(categories: seq<IndustryCategoryInfo>, table: map<IndustryCategory, seq<AnalysisMethod>>)
    returns (selected: seq<AnalysisMethod>)
    ensures selected == SelectionOf(categories, table)
  {
    if categories == [] {
      return [Swot, LeanCanvas];
    }
    selected := [];
    var firstCategoryMethods := MethodsFor(table, categories[0].categoryId);
    if firstCategoryMethods != [] {
      selected := [firstCategoryMethods[0]];
    }
    ghost var lead := selected;
    if |categories| > 1 {
      var secondCategoryMethods := MethodsFor(table, categories[1].categoryId);
      var i := 0;
      while i < |secondCategoryMethods|
        invariant 0 <= i <= |secondCategoryMethods|
        invariant selected == lead
        invariant FirstNotIn(secondCategoryMethods, lead) == FirstNotIn(secondCategoryMethods[i..], lead)
      {
        assert secondCategoryMethods[i..][1..] == secondCategoryMethods[i + 1..];
        if secondCategoryMethods[i] !in selected {
          selected := selected + [secondCategoryMethods[i]];
          break;
        }
        i := i + 1;
      }
    } else {
      if |firstCategoryMethods| > 1 {
        selected := selected + [firstCategoryMethods[1]];
      }
    }
    assert selected == PairSelection(categories, table);
    if |selected| < 2 && firstCategoryMethods != [] {
      selected := FillFirstCategory(selected, firstCategoryMethods);
    }
    if |selected| < 2 {
      selected := FillFallback(selected);
    }
    if |selected| >= 2 {
      selected := selected[..2];
    } else {
      selected := selected + [Swot, LeanCanvas][..2 - |selected|];
    }
  }

  /** The loop over the first category's methods: append the untaken ones until there are two. */
  method FillFirstCategory(selected: seq<AnalysisMethod>, methods: seq<AnalysisMethod>) returns (r: seq<AnalysisMethod>)
    requires |selected| < 2
    ensures r == FillToTwo(selected, methods)
  {
    r := selected;
    var i := 0;
    while i < |methods|
      invariant 0 <= i <= |methods|
      invariant |r| < 2
      invariant FillToTwo(selected, methods) == FillToTwo(r, methods[i..])
    {
      assert methods[i..][1..] == methods[i + 1..];
      if methods[i] !in r {
        r := r + [methods[i]];
        if |r| == 2 {
          assert FillToTwo(r, methods[i + 1..]) == r;
          return;
        }
      }
      i := i + 1;
    }
  }

  /** The loop over the last-resort methods: append the untaken ones until there are two. */
  method FillFallback(selected: seq<AnalysisMethod>) returns (r: seq<AnalysisMethod>)
    requires |selected| < 2
    ensures r == FillToTwo(selected, FALLBACK_METHODS)
  {
    r := FillFirstCategory(selected, FALLBACK_METHODS);
  }

  /**
   * Over `INDUSTRY_METHODS`: always two distinct methods, led by the first
   * category's lead method; the second is the second category's first other
   * method, or for one category its own second method.
   */
  lemma SelectAnalysisMethodsFacts(categories: seq<IndustryCategoryInfo>)
    ensures var r := SelectionOf(categories, INDUSTRY_METHODS);
      r[0] != r[1]
    ensures categories != [] ==>
      |MethodsFor(INDUSTRY_METHODS, categories[0].categoryId)| >= 3 &&
      SelectionOf(categories, INDUSTRY_METHODS)[0] == MethodsFor(INDUSTRY_METHODS, categories[0].categoryId)[0]
    ensures |categories| == 1 ==> SelectionOf(categories, INDUSTRY_METHODS) == MethodsFor(INDUSTRY_METHODS, categories[0].categoryId)[..2]
    ensures |categories| >= 2 ==>
      var lead := MethodsFor(INDUSTRY_METHODS, categories[0].categoryId)[0];
      var next := FirstNotIn(MethodsFor(INDUSTRY_METHODS, categories[1].categoryId), [lead]);
      next.Some? && SelectionOf(categories, INDUSTRY_METHODS) == [lead, next.value]
  {
    forall c | c in INDUSTRY_METHODS ensures NoDuplicates(INDUSTRY_METHODS[c]) {
      IndustryMethodsComplete(c);
    }
    if categories != [] {
      IndustryMethodsComplete(categories[0].categoryId);
    }
    if |categories| >= 2 {
      IndustryMethodsComplete(categories[1].categoryId);
      SomeOtherMethod(INDUSTRY_METHODS[categories[1].categoryId], INDUSTRY_METHODS[categories[0].categoryId][0]);
    }
    SelectionFacts(categories, INDUSTRY_METHODS);
  }

  /** `select_analysis_methods` over `INDUSTRY_METHODS`. */
  method SelectAnalysisMethods(categories: seq<IndustryCategoryInfo>) returns (selected: seq<AnalysisMethod>)
    ensures selected == SelectionOf(categories, INDUSTRY_METHODS)
  {
    selected := SelectAnalysisMethodsFrom(categories, INDUSTRY_METHODS);
  }

  /** A list of two distinct methods always has one other than `x`. */
  lemma SomeOtherMethod(ms: seq<AnalysisMethod>, x: AnalysisMethod)
    requires |ms| >= 2 && NoDuplicates(ms)
    ensures FirstNotIn(ms, [x]).Some?
  {
    if ms[0] == x {
      assert ms[1] != x;
      assert ms[1..][0] == ms[1];
    }
  }

  /** An IT startup with a secondary education angle is analysed with Lean Canvas and the Logic Model. */
  lemma FusedSelectionExample()
    ensures FirstNotIn(INDUSTRY_METHODS[Education], [INDUSTRY_METHODS[ItStartup][0]]) == Some(LogicModel)
  {
  }

  // ---------------------------------------------------------------------
  // Reasoning text
  // ---------------------------------------------------------------------

  /** The opening sentence: one category with its confidence, or the fusion of the first two. */
  function ReasoningHead(categories: seq<IndustryCategoryInfo>): Result<string> {
    if |categories| == 1 then
      Ok("귀하의 사업은 '" + categories[0].categoryName + "' 업종으로 분류되었습니다 " +
         "(신뢰도: " + IntToString(categories[0].confidenceScore) + "%).")
    else if |categories| == 0 then Err(IndexError)
    else
      Ok("귀하의 사업은 '" + categories[0].categoryName + "'과(와) " +
         "'" + categories[1].categoryName + "'의 융합 업종으로 분류되었습니다.")
  }

  function MethodNames(methods: seq<AnalysisMethod>): seq<string> {
    seq(|methods|, i requires 0 <= i < |methods| => MethodValue(methods[i]))
  }

  /** `METHOD_DESCRIPTIONS.get(method, "")`. */
  function DescriptionOf(m: AnalysisMethod): string {
    if m in METHOD_DESCRIPTIONS then METHOD_DESCRIPTIONS[m] else ""
  }

  /** The line of the `number`-th method. */
  function MethodLine(number: nat, m: AnalysisMethod): string {
    "\n" + NatToString(number) + ". " + MethodValue(m) + ": " + DescriptionOf(m)
  }

  /** The numbered lines of all methods, counting from 1. */
  function MethodLines(methods: seq<AnalysisMethod>): seq<string> {
    MapNumbered(MethodLine, methods)
  }

  /** The sentence that names the selected methods. */
  function ReasoningIntro(methods: seq<AnalysisMethod>): string {
    "\n\n이에 따라 " + Join(MethodNames(methods), ", ") + " 기법을 사용하여 " + "리스크를 분석합니다."
  }

  /** The header of the numbered list. */
  const LIST_HEADER: string := "\n\n선택된 분석 기법:"

  /** `reasoning_parts` once complete: head, method sentence, list header, one line per method. */
  function ReasoningParts(categories: seq<IndustryCategoryInfo>, methods: seq<AnalysisMethod>): Result<seq<string>> {
    match ReasoningHead(categories)
    case Err(e) => Err(e)
    case Ok(head) => Ok([head, ReasoningIntro(methods), LIST_HEADER] + MethodLines(methods))
  }

  /** `generate_classification_reasoning`: the parts, joined by the empty string. */
  method GenerateClassificationReasoning(businessDescription: string, categories: seq<IndustryCategoryInfo>, methods: seq<AnalysisMethod>)
    returns (reasoning: Result<string>)
    ensures categories == [] <==> reasoning == Err(IndexError)
    ensures categories != [] ==>
      ReasoningParts(categories, methods).Ok? && reasoning == Ok(Join(ReasoningParts(categories, methods).value, ""))
  {
    var head := ReasoningHead(categories);
    if head.Err? {
      return Err(head.error);
    }
    var reasoningParts := [head.value];
    reasoningParts := reasoningParts + [ReasoningIntro(methods)];
    reasoningParts := reasoningParts + [LIST_HEADER];
    ghost var prefix := reasoningParts;
    var i := 0;
    while i < |methods|
      invariant 0 <= i <= |methods|
      invariant reasoningParts == prefix + MethodLines(methods[..i])
    {
      MapNumberedSnoc(MethodLine, methods, i);
      reasoningParts := reasoningParts + [MethodLine(i + 1, methods[i])];
      i := i + 1;
    }
    assert methods[..i] == methods;
    assert reasoningParts == ReasoningParts(categories, methods).value;
    reasoning := Ok(Join(reasoningParts, ""));
  }

  /**
   * The reasoning opens with the classification sentence and lists every
   * selected method with its 1-based number, its name and its description.
   */
  lemma ReasoningListsMethods(categories: seq<IndustryCategoryInfo>, methods: seq<AnalysisMethod>, i: nat)
    requires categories != [] && i < |methods|
    ensures ReasoningParts(categories, methods).Ok?
    ensures var text := Join(ReasoningParts(categories, methods).value, "");
      StartsWith(text, ReasoningHead(categories).value) &&
      Contains(text, MethodLine(i + 1, methods[i]))
  {
    var parts := ReasoningParts(categories, methods).value;
    assert parts[3 + i] == MethodLine(i + 1, methods[i]) by {
      MapNumberedAt(MethodLine, methods, i);
    }
    JoinStartsWith(parts, "");
    JoinContains(parts, "", 3 + i);
  }
}
