/** The data hub's dataset catalogue: a text search over titles and tags combined with
    a set of selected tag filters, and the tag buttons that toggle those filters. */
module DataHub {
  import opened Wrappers

  datatype DatasetKind = Experiment | Imagery | Literature | Environmental

  datatype Dataset = Dataset(
    id: string, title: string, source: string, kind: DatasetKind,
    size: string, date: string, tags: seq<string>,
    downloadUrl: Option<string>, externalUrl: Option<string>)

  // The titles of the last three datasets are spelled as their words joined by single
  // spaces; the strings are the same, and the search proofs split them at the spaces.
  const InsulinCrystallization := Dataset("1", "Microgravity Effects on Insulin Crystallization",
    "NASA GeneLab", Experiment, "2.3 GB", "2024-01-15",
    ["protein", "crystallization", "microgravity", "insulin"], Some("#"), None)
  const ProteinCrystalGrowth := Dataset("2", "ISS Protein Crystal Growth Experiment Data",
    "NASA GeneLab", Experiment, "1.8 GB", "2024-01-10",
    ["protein", "crystal", "ISS", "space"], Some("#"), None)
  const DebrisPopulationModel := Dataset("3", 
    "Orbital Debris" + " " + "Population" + " " + "Model" + " " + "2024",
    "ORDEM", Environmental, "450 MB", "2024-01-20",
    ["debris", "orbital", "safety", "tracking"], Some("#"), None)
  const PharmaManufacturingReview := Dataset("4", 
    "Space-based" + " " + "Pharmaceutical" + " " + "Manufacturing" + " " + "Review",
    "PubMed", Literature, "15 MB", "2024-01-18",
    ["pharmaceutical", "space", "manufacturing", "review"], None, Some("https://pubmed.ncbi.nlm.nih.gov"))
  const SentinelEuropeCoverage := Dataset("5", 
    "Copernicus" + " " + "Sentinel-1" + " " + "Europe" + " " + "Coverage",
    "ESA Copernicus", Imagery, "12.4 GB", "2024-01-22",
    ["satellite", "radar", "europe", "imaging"], Some("#"), None)

  /** The catalogue the search runs over, in display order. */
  const SampleDatasets: seq<Dataset> := [
    InsulinCrystallization, ProteinCrystalGrowth, DebrisPopulationModel,
    PharmaManufacturingReview, SentinelEuropeCoverage
  ]

  /** The tag buttons offered above the results. */
  const PopularTags: seq<string> :=
    ["protein", "crystallization", "microgravity", "space", "satellite", "debris", "pharmaceutical"]

  // ---------------------------------------------------------------- strings

  /** Lower-casing of one character, restricted to ASCII letters. */
  function LowerChar(c: char): (l: char)
    ensures 'A' <= c <= 'Z' ==> l as int == c as int + 32
    ensures !('A' <= c <= 'Z') ==> l == c
  {
    if 'A' <= c <= 'Z' then (c as int + 32) as char else c
  }

  function ToLower(s: string): (l: string)
    ensures |l| == |s|
    ensures forall i :: 0 <= i < |s| ==> l[i] == LowerChar(s[i])
  {
    seq(|s|, (i: int) requires 0 <= i < |s| => LowerChar(s[i]))
  }

  /** Lower-casing twice is lower-casing once. */
  lemma ToLowerIdempotent(s: string)
    ensures ToLower(ToLower(s)) == ToLower(s)
  {
  }

  /** Only the letter itself and its capital lower-case to a lower-case letter. */
  lemma LowerCharPreimage(c: char, x: char)
    requires 'a' <= c <= 'z'
    ensures LowerChar(x) == c <==> x == c || x as int == c as int - 32
  {
  }

  lemma ToLowerAppend(a: string, b: string)
    ensures ToLower(a + b) == ToLower(a) + ToLower(b)
  {
  }

  /** q occurs in s starting at position i. */
  predicate OccursAt(s: string, q: string, i: int)
  {
    0 <= i <= |s| - |q| && s[i..i + |q|] == q
  }

  /** `s.includes(q)`: q occurs in s as a contiguous block. */
  predicate Contains(s: string, q: string)
  {
    exists i | 0 <= i <= |s| - |q| :: OccursAt(s, q, i)
  }

  lemma ContainsSelf(s: string)
    ensures Contains(s, s)
  {
    assert OccursAt(s, s, 0);
  }

  /** A query containing a character the text lacks cannot occur in it. */
  lemma NotContainsMissingChar(s: string, q: string, c: char)
    requires c in q && c !in s
    ensures !Contains(s, q)
  {
    var k :| 0 <= k < |q| && q[k] == c;
    forall i | 0 <= i <= |s| - |q| ensures !OccursAt(s, q, i) {
      assert s[i..i + |q|][k] == s[i + k] != c;
    }
  }

  /** An occurrence of q in a + [sep] + b lies inside a or inside b when sep does not occur in q. */
  lemma NotContainsAcross(a: string, sep: char, b: string, q: string)
    requires sep !in q
    requires !Contains(a, q) && !Contains(b, q)
    ensures !Contains(a + [sep] + b, q)
  {
    var s := a + [sep] + b;
    forall i | 0 <= i <= |s| - |q| ensures !OccursAt(s, q, i) {
      if i + |q| <= |a| {
        assert !OccursAt(a, q, i);
        assert a[i..i + |q|] == s[i..i + |q|];
      } else if i <= |a| {
        assert s[i..i + |q|][|a| - i] == sep != q[|a| - i];
      } else {
        var j := i - |a| - 1;
        assert !OccursAt(b, q, j);
        assert b[j..j + |q|] == s[i..i + |q|];
      }
    }
  }

  /** The lower-cased form of a text lacks a lower-case letter when the text has neither it nor its capital. */
  lemma LowerLacks(s: string, c: char)
    requires 'a' <= c <= 'z'
    requires c !in s && (c as int - 32) as char !in s
    ensures c !in ToLower(s)
  {
    forall i | 0 <= i < |s| ensures ToLower(s)[i] != c {
      LowerCharPreimage(c, s[i]);
    }
  }

  /** Lower-casing keeps a separator that is not a capital letter. */
  lemma NotContainsLowerAcross(a: string, sep: char, b: string, q: string)
    requires !('A' <= sep <= 'Z') && sep !in q
    requires !Contains(ToLower(a), q) && !Contains(ToLower(b), q)
    ensures !Contains(ToLower(a + [sep] + b), q)
  {
    ToLowerAppend(a + [sep], b);
    ToLowerAppend(a, [sep]);
    assert ToLower([sep]) == [sep];
    NotContainsAcross(ToLower(a), sep, ToLower(b), q);
  }

  // ---------------------------------------------------------------- filtering

  /** The text search: an empty query matches everything; otherwise the lower-cased
      query must occur in the lower-cased title or in some lower-cased tag. */
  predicate MatchesSearch(d: Dataset, query: string)
  {
    query == ""
    || Contains(ToLower(d.title), ToLower(query))
    || exists tag :: tag in d.tags && Contains(ToLower(tag), ToLower(query))
  }

  /** The tag filter: no selection matches everything; otherwise some selected tag
      must be one of the dataset's tags, compared exactly. */
  predicate MatchesFilters(d: Dataset, filters: seq<string>)
  {
    |filters| == 0 || exists f :: f in filters && f in d.tags
  }

  predicate Matches(d: Dataset, query: string, filters: seq<string>)
  {
    MatchesSearch(d, query) && MatchesFilters(d, filters)
  }

  /** `filteredDatasets`: the datasets that pass both the search and the tag filter, in catalogue order. */
  function FilterDatasets(ds: seq<Dataset>, query: string, filters: seq<string>): (r: seq<Dataset>)
    ensures forall d :: d in r <==> d in ds && Matches(d, query, filters)
    ensures |r| <= |ds|
  {
    if ds == [] then []
    else
      var rest := FilterDatasets(ds[1..], query, filters);
      assert forall d :: d in ds <==> d == ds[0] || d in ds[1..];
      if Matches(ds[0], query, filters) then [ds[0]] + rest else rest
  }

  /** xs is obtained from ys by deleting elements, keeping the order of the rest. */
  predicate IsSubsequence<T(==)>(xs: seq<T>, ys: seq<T>)
    decreases |ys|
  {
    xs == []
    || (ys != []
        && ((xs[0] == ys[0] && IsSubsequence(xs[1..], ys[1..])) || IsSubsequence(xs, ys[1..])))
  }

  lemma {:induction false} SubsequenceLength<T>(xs: seq<T>, ys: seq<T>)
    requires IsSubsequence(xs, ys)
    ensures |xs| <= |ys|
  {
    if xs != [] {
      if xs[0] == ys[0] && IsSubsequence(xs[1..], ys[1..]) {
        SubsequenceLength(xs[1..], ys[1..]);
      } else {
        SubsequenceLength(xs, ys[1..]);
      }
    }
  }

  lemma {:induction false} SubsequenceMembers<T>(xs: seq<T>, ys: seq<T>)
    requires IsSubsequence(xs, ys)
    ensures forall x :: x in xs ==> x in ys
  {
    if xs != [] {
      if xs[0] == ys[0] && IsSubsequence(xs[1..], ys[1..]) {
        SubsequenceMembers(xs[1..], ys[1..]);
        assert forall x :: x in xs ==> x == xs[0] || x in xs[1..];
      } else {
        SubsequenceMembers(xs, ys[1..]);
      }
    }
  }

  predicate Distinct<T(==)>(xs: seq<T>)
  {
    forall i, j :: 0 <= i < j < |xs| ==> xs[i] != xs[j]
  }

  lemma {:induction false} SubsequenceDistinct<T>(xs: seq<T>, ys: seq<T>)
    requires IsSubsequence(xs, ys) && Distinct(ys)
    ensures Distinct(xs)
  {
    if xs != [] {
      assert Distinct(ys[1..]) by {
        forall i, j | 0 <= i < j < |ys[1..]| ensures ys[1..][i] != ys[1..][j] {
          assert ys[1..][i] == ys[i + 1] && ys[1..][j] == ys[j + 1];
        }
      }
      if xs[0] == ys[0] && IsSubsequence(xs[1..], ys[1..]) {
        SubsequenceDistinct(xs[1..], ys[1..]);
        SubsequenceMembers(xs[1..], ys[1..]);
        assert ys[0] !in ys[1..] by {
          forall k | 0 <= k < |ys[1..]| ensures ys[1..][k] != ys[0] {
            assert ys[1..][k] == ys[k + 1];
          }
        }
        forall i, j | 0 <= i < j < |xs| ensures xs[i] != xs[j] {
          if i == 0 {
            assert xs[j] == xs[1..][j - 1];
          } else {
            assert xs[i] == xs[1..][i - 1] && xs[j] == xs[1..][j - 1];
          }
        }
      } else {
        SubsequenceDistinct(xs, ys[1..]);
      }
    }
  }

  /** The result keeps catalogue order: it is the catalogue with some entries deleted. */
  lemma {:induction false} FilterIsSubsequence(ds: seq<Dataset>, query: string, filters: seq<string>)
    ensures IsSubsequence(FilterDatasets(ds, query, filters), ds)
  {
    if ds != [] {
      FilterIsSubsequence(ds[1..], query, filters);
      var r := FilterDatasets(ds, query, filters);
      if Matches(ds[0], query, filters) {
        assert r[1..] == FilterDatasets(ds[1..], query, filters);
      }
    }
  }

  /** When every dataset passing one search also passes another, the first result is a
      subsequence of the second. */
  lemma {:induction false} FilterMonotone(ds: seq<Dataset>, q1: string, f1: seq<string>, q2: string, f2: seq<string>)
    requires forall d :: Matches(d, q1, f1) ==> Matches(d, q2, f2)
    ensures IsSubsequence(FilterDatasets(ds, q1, f1), FilterDatasets(ds, q2, f2))
    decreases |ds|
  {
    if ds != [] {
      FilterMonotone(ds[1..], q1, f1, q2, f2);
      var r1, r2 := FilterDatasets(ds, q1, f1), FilterDatasets(ds, q2, f2);
      var t1, t2 := FilterDatasets(ds[1..], q1, f1), FilterDatasets(ds[1..], q2, f2);
      if Matches(ds[0], q1, f1) {
        assert r1[0] == r2[0] && r1[1..] == t1 && r2[1..] == t2;
      } else if Matches(ds[0], q2, f2) {
        assert r1 == t1 && r2[1..] == t2;
        SubsequenceSkip(t1, ds[0], t2);
      }
    }
  }

  lemma SubsequenceSkip<T>(xs: seq<T>, y: T, ys: seq<T>)
    requires IsSubsequence(xs, ys)
    ensures IsSubsequence(xs, [y] + ys)
  {
    assert ([y] + ys)[1..] == ys;
  }

  /** Two searches that accept the same datasets give the same result list. */
  lemma {:induction false} FilterSameMatches(ds: seq<Dataset>, q1: string, f1: seq<string>, q2: string, f2: seq<string>)
    requires forall d :: Matches(d, q1, f1) == Matches(d, q2, f2)
    ensures FilterDatasets(ds, q1, f1) == FilterDatasets(ds, q2, f2)
  {
    if ds != [] {
      FilterSameMatches(ds[1..], q1, f1, q2, f2);
    }
  }

  /** An empty query with no selected tag shows the whole catalogue. */
  lemma {:induction false} EmptySearchShowsAll(ds: seq<Dataset>)
    ensures FilterDatasets(ds, "", []) == ds
  {
    if ds != [] {
      EmptySearchShowsAll(ds[1..]);
      assert [ds[0]] + ds[1..] == ds;
    }
  }

  /** A non-empty query only narrows the empty-query result. */
  lemma QueryNarrows(ds: seq<Dataset>, query: string, filters: seq<string>)
    ensures IsSubsequence(FilterDatasets(ds, query, filters), FilterDatasets(ds, "", filters))
  {
    FilterMonotone(ds, query, filters, "", filters);
  }

  /** Once some tag is selected, selecting more tags never drops a result. */
  lemma MoreFiltersWiden(ds: seq<Dataset>, query: string, f: seq<string>, g: seq<string>)
    requires |f| > 0
    requires forall t :: t in f ==> t in g
    ensures IsSubsequence(FilterDatasets(ds, query, f), FilterDatasets(ds, query, g))
  {
    forall d | Matches(d, query, f) ensures Matches(d, query, g) {
      var t :| t in f && t in d.tags;
      assert t in g;
    }
    FilterMonotone(ds, query, f, query, g);
  }

  /** Queries that differ only in the case of ASCII letters give the same results. */
  lemma SearchIsCaseInsensitive(ds: seq<Dataset>, q1: string, q2: string, filters: seq<string>)
    requires ToLower(q1) == ToLower(q2)
    ensures FilterDatasets(ds, q1, filters) == FilterDatasets(ds, q2, filters)
  {
    assert |q1| == |q2|;
    assert q1 == "" <==> q2 == "";
    FilterSameMatches(ds, q1, filters, q2, filters);
  }

  /** The tag filter depends only on which tags are selected, not on their order or repetition. */
  lemma FilterDependsOnSelectedSet(ds: seq<Dataset>, query: string, f: seq<string>, g: seq<string>)
    requires forall t :: t in f <==> t in g
    ensures FilterDatasets(ds, query, f) == FilterDatasets(ds, query, g)
  {
    assert |f| == 0 <==> |g| == 0 by {
      if |f| != 0 { assert f[0] in g; }
      if |g| != 0 { assert g[0] in f; }
    }
    FilterSameMatches(ds, query, f, query, g);
  }

  lemma SampleDatasetsDistinct()
    ensures Distinct(SampleDatasets)
  {
  }

  /** Any search over the sample catalogue returns at most its five datasets, in order and without repeats. */
  lemma SampleResultsBounded(query: string, filters: seq<string>)
    ensures |FilterDatasets(SampleDatasets, query, filters)| <= 5
    ensures IsSubsequence(FilterDatasets(SampleDatasets, query, filters), SampleDatasets)
    ensures Distinct(FilterDatasets(SampleDatasets, query, filters))
  {
    FilterIsSubsequence(SampleDatasets, query, filters);
    SampleDatasetsDistinct();
    SubsequenceDistinct(FilterDatasets(SampleDatasets, query, filters), SampleDatasets);
  }

  // ---------------------------------------------------------------- the "protein" search

  /** w has neither the lower-case letter c nor its capital. */
  predicate LacksLetter(w: string, c: char)
  {
    'a' <= c <= 'z' && c !in w && (c as int - 32) as char !in w
  }

  /** A word lacking, in both cases, some letter of q cannot contain q. */
  lemma WordLacks(w: string, c: char, q: string)
    requires c in q && LacksLetter(w, c)
    ensures !Contains(ToLower(w), q)
  {
    LowerLacks(w, c);
    NotContainsMissingChar(ToLower(w), q, c);
  }

  /** Four tags that each lack, in both cases, some letter of q. */
  lemma FourTagsLack(tags: seq<string>, t1: string, t2: string, t3: string, t4: string,
                     c1: char, c2: char, c3: char, c4: char, q: string)
    requires tags == [t1, t2, t3, t4]
    requires c1 in q && LacksLetter(t1, c1)
    requires c2 in q && LacksLetter(t2, c2)
    requires c3 in q && LacksLetter(t3, c3)
    requires c4 in q && LacksLetter(t4, c4)
    ensures forall tag :: tag in tags ==> !Contains(ToLower(tag), q)
  {
    WordLacks(t1, c1, q);
    WordLacks(t2, c2, q);
    WordLacks(t3, c3, q);
    WordLacks(t4, c4, q);
  }

  /** A four-word text lacks q when each word lacks, in both cases, some letter of q. */
  lemma FourWordsLack(s: string, w1: string, w2: string, w3: string, w4: string,
                      c1: char, c2: char, c3: char, c4: char, q: string)
    requires s == w1 + " " + w2 + " " + w3 + " " + w4
    requires ' ' !in q
    requires c1 in q && LacksLetter(w1, c1)
    requires c2 in q && LacksLetter(w2, c2)
    requires c3 in q && LacksLetter(w3, c3)
    requires c4 in q && LacksLetter(w4, c4)
    ensures !Contains(ToLower(s), q)
  {
    WordLacks(w1, c1, q);
    WordLacks(w2, c2, q);
    WordLacks(w3, c3, q);
    WordLacks(w4, c4, q);
    NotContainsLowerAcross(w1, ' ', w2, q);
    NotContainsLowerAcross(w1 + [' '] + w2, ' ', w3, q);
    NotContainsLowerAcross(w1 + [' '] + w2 + [' '] + w3, ' ', w4, q);
  }

  // ---------------------------------------------------------------- tag toggling

  /** The selection with every occurrence of `tag` removed (`prev.filter(f => f !== tag)`). */
  function RemoveAll(xs: seq<string>, tag: string): (r: seq<string>)
    ensures forall y :: y in r <==> y in xs && y != tag
    ensures IsSubsequence(r, xs)
    ensures multiset(r) == multiset(xs)[tag := 0]
  {
    if xs == [] then []
    else
      assert forall y :: y in xs <==> y == xs[0] || y in xs[1..];
      assert xs == [xs[0]] + xs[1..];
      assert multiset(xs) == multiset([xs[0]]) + multiset(xs[1..]);
      if xs[0] == tag then
        SubsequenceSkip(RemoveAll(xs[1..], tag), xs[0], xs[1..]);
        RemoveAll(xs[1..], tag)
      else
        [xs[0]] + RemoveAll(xs[1..], tag)
  }

  /** `toggleFilter`: a selected tag is deselected everywhere, an unselected one is appended. */
  function Toggle(selected: seq<string>, tag: string): (r: seq<string>)
    ensures tag in selected ==> tag !in r && forall y :: y != tag ==> (y in r <==> y in selected)
    ensures tag !in selected ==> r == selected + [tag]
  {
    if tag in selected then RemoveAll(selected, tag) else selected + [tag]
  }

  lemma {:induction false} RemoveAllAbsent(xs: seq<string>, tag: string)
    requires tag !in xs
    ensures RemoveAll(xs, tag) == xs
  {
    if xs != [] {
      assert tag !in xs[1..];
      RemoveAllAbsent(xs[1..], tag);
      assert [xs[0]] + xs[1..] == xs;
    }
  }

  lemma {:induction false} RemoveAllLast(xs: seq<string>, tag: string)
    requires tag !in xs
    ensures RemoveAll(xs + [tag], tag) == xs
  {
    if xs == [] {
      assert RemoveAll([tag], tag) == RemoveAll([], tag);
    } else {
      assert (xs + [tag])[0] == xs[0] && (xs + [tag])[1..] == xs[1..] + [tag];
      assert tag !in xs[1..];
      RemoveAllLast(xs[1..], tag);
      assert [xs[0]] + xs[1..] == xs;
    }
  }

  /** Toggling an unselected tag twice gives back the very same list. */
  lemma ToggleTwiceAbsent(selected: seq<string>, tag: string)
    requires tag !in selected
    ensures Toggle(Toggle(selected, tag), tag) == selected
  {
    RemoveAllLast(selected, tag);
  }

  /** Toggling any tag twice selects the same set of tags, so the search shows the same results. */
  lemma ToggleTwiceSameResults(ds: seq<Dataset>, query: string, selected: seq<string>, tag: string)
    ensures FilterDatasets(ds, query, Toggle(Toggle(selected, tag), tag)) == FilterDatasets(ds, query, selected)
  {
    var twice := Toggle(Toggle(selected, tag), tag);
    forall t ensures t in twice <==> t in selected {
      if tag !in selected {
        ToggleTwiceAbsent(selected, tag);
      }
    }
    FilterDependsOnSelectedSet(ds, query, twice, selected);
  }

  lemma {:induction false} RemoveAllDistinct(xs: seq<string>, tag: string)
    requires Distinct(xs)
    ensures Distinct(RemoveAll(xs, tag))
  {
    SubsequenceDistinct(RemoveAll(xs, tag), xs);
  }

  /** Toggling never introduces a repeated tag. */
  lemma ToggleKeepsDistinct(selected: seq<string>, tag: string)
    requires Distinct(selected)
    ensures Distinct(Toggle(selected, tag))
  {
    if tag in selected {
      RemoveAllDistinct(selected, tag);
    } else {
      var r := selected + [tag];
      forall i, j | 0 <= i < j < |r| ensures r[i] != r[j] {
        if j == |selected| {
          assert r[i] == selected[i];
        }
      }
    }
  }

  /** The selection after a sequence of tag clicks, starting from `selected`. */
  function ApplyToggles(selected: seq<string>, clicks: seq<string>): seq<string>
    decreases |clicks|
  {
    if clicks == [] then selected else ApplyToggles(Toggle(selected, clicks[0]), clicks[1..])
  }

  /** From the initial empty selection, no sequence of clicks produces a repeated tag. */
  lemma {:induction false} TogglesKeepDistinct(selected: seq<string>, clicks: seq<string>)
    requires Distinct(selected)
    ensures Distinct(ApplyToggles(selected, clicks))
    decreases |clicks|
  {
    if clicks != [] {
      ToggleKeepsDistinct(selected, clicks[0]);
      TogglesKeepDistinct(Toggle(selected, clicks[0]), clicks[1..]);
    }
  }

  lemma InitialSelectionStaysDistinct(clicks: seq<string>)
    ensures Distinct(ApplyToggles([], clicks))
  {
    TogglesKeepDistinct([], clicks);
  }

  /** Each of the offered tag buttons, clicked alone with an empty search, lists the
      sample datasets carrying that tag, so none of them leads to an empty list. */
  lemma PopularTagsFindSamples()
    ensures forall t | t in PopularTags :: FilterDatasets(SampleDatasets, "", Toggle([], t)) != []
  {
    forall t | t in PopularTags
      ensures FilterDatasets(SampleDatasets, "", Toggle([], t)) != []
    {
      assert Toggle([], t) == [t];
      var d := if t in InsulinCrystallization.tags then InsulinCrystallization
        else if t in ProteinCrystalGrowth.tags then ProteinCrystalGrowth
        else if t in DebrisPopulationModel.tags then DebrisPopulationModel
        else if t in PharmaManufacturingReview.tags then PharmaManufacturingReview
        else SentinelEuropeCoverage;
      assert t in d.tags;
      assert d in SampleDatasets && Matches(d, "", [t]);
    }
  }

  /** Before any typing or clicking, the whole sample catalogue is listed. */
  lemma InitialResultsShowAll()
    ensures FilterDatasets(SampleDatasets, "", []) == SampleDatasets
  {
    EmptySearchShowsAll(SampleDatasets);
  }

  // ---------------------------------------------------------------- panel state

  /** The search tab's state: the query text and the selected tags. */
  class DataHubPanel {
    var searchQuery: string
    var selectedFilters: seq<string>

    ghost predicate Valid()
      reads this
    {
      Distinct(selectedFilters)
    }

    constructor ()
      ensures Valid()
      ensures searchQuery == "" && selectedFilters == []
    {
      searchQuery := "";
      selectedFilters := [];
    }

    /** The result list shown under the search box. */
    function Results(): seq<Dataset>
      reads this
    {
      FilterDatasets(SampleDatasets, searchQuery, selectedFilters)
    }

    /** Typing in the search box; the list is recomputed for the new query. */
    method SetSearchQuery(query: string)
      requires Valid()
      modifies this
      ensures Valid()
      ensures searchQuery == query
      ensures selectedFilters == old(selectedFilters)
      ensures Results() == FilterDatasets(SampleDatasets, query, old(selectedFilters))
    {
      searchQuery := query;
    }

    /** Clicking a popular-tag button. */
    method ToggleFilter(tag: string)
      requires Valid()
      modifies this
      ensures Valid()
      ensures selectedFilters == Toggle(old(selectedFilters), tag)
      ensures searchQuery == old(searchQuery)
      ensures Results() == FilterDatasets(SampleDatasets, old(searchQuery), Toggle(old(selectedFilters), tag))
    {
      ToggleKeepsDistinct(selectedFilters, tag);
      selectedFilters := Toggle(selectedFilters, tag);
    }
  }
}
