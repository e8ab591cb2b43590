/** The search of the sample catalogue worked out for one query: "protein" with no tag
    selected finds exactly the first two datasets. */
module DataHubExample {
  import opened DataHub

  lemma ProteinInTag(d: Dataset)
    requires "protein" in d.tags
    ensures MatchesSearch(d, "protein")
  {
    ProteinIsLowerCase();
    ContainsSelf("protein");
  }

  lemma ProteinIsLowerCase()
    ensures ToLower("protein") == "protein"
  {
  }

  lemma ThirdDatasetMissesProtein()
    ensures !MatchesSearch(DebrisPopulationModel, "protein")
  {
    ProteinIsLowerCase();
    assert LacksLetter("debris", 'p');
    assert LacksLetter("orbital", 'p');
    assert LacksLetter("safety", 'p');
    assert LacksLetter("tracking", 'p');
    FourTagsLack(DebrisPopulationModel.tags, "debris", "orbital", "safety", "tracking",
      'p', 'p', 'p', 'p', "protein");
    ThirdTitleLacksProtein();
  }

  lemma FourthDatasetMissesProtein()
    ensures !MatchesSearch(PharmaManufacturingReview, "protein")
  {
    ProteinIsLowerCase();
    assert LacksLetter("pharmaceutical", 'o');
    assert LacksLetter("space", 'r');
    assert LacksLetter("manufacturing", 'p');
    assert LacksLetter("review", 'p');
    FourTagsLack(PharmaManufacturingReview.tags, "pharmaceutical", "space", "manufacturing", "review",
      'o', 'r', 'p', 'p', "protein");
    FourthTitleLacksProtein();
  }

  lemma FifthDatasetMissesProtein()
    ensures !MatchesSearch(SentinelEuropeCoverage, "protein")
  {
    ProteinIsLowerCase();
    assert LacksLetter("satellite", 'p');
    assert LacksLetter("radar", 'p');
    assert LacksLetter("europe", 't');
    assert LacksLetter("imaging", 'p');
    FourTagsLack(SentinelEuropeCoverage.tags, "satellite", "radar", "europe", "imaging",
      'p', 'p', 't', 'p', "protein");
    FifthTitleLacksProtein();
  }

  lemma ThirdTitleLetters()
    ensures LacksLetter("Orbital Debris", 'p') && LacksLetter("Population", 'r')
    ensures LacksLetter("Model", 'p') && LacksLetter("2024", 'p')
  {
    // one word at a time, which keeps each step small for the verifier
    assert LacksLetter("Orbital Debris", 'p');
    assert LacksLetter("Population", 'r');
    assert LacksLetter("Model", 'p');
    assert LacksLetter("2024", 'p');
  }

  lemma ThirdTitleLacksProtein()
    ensures !Contains(ToLower(DebrisPopulationModel.title), "protein")
  {
    ThirdTitleLetters();
    FourWordsLack(DebrisPopulationModel.title, "Orbital Debris", "Population", "Model", "2024",
      'p', 'r', 'p', 'p', "protein");
  }

  lemma FourthTitleLetters()
    ensures LacksLetter("Space-based", 'o') && LacksLetter("Pharmaceutical", 'o')
    ensures LacksLetter("Manufacturing", 'p') && LacksLetter("Review", 'p')
  {
    // one word at a time, which keeps each step small for the verifier
    assert LacksLetter("Space-based", 'o');
    assert LacksLetter("Pharmaceutical", 'o');
    assert LacksLetter("Manufacturing", 'p');
    assert LacksLetter("Review", 'p');
  }

  lemma FourthTitleLacksProtein()
    ensures !Contains(ToLower(PharmaManufacturingReview.title), "protein")
  {
    FourthTitleLetters();
    FourWordsLack(PharmaManufacturingReview.title, "Space-based", "Pharmaceutical", "Manufacturing", "Review",
      'o', 'o', 'p', 'p', "protein");
  }

  lemma FifthTitleLetters()
    ensures LacksLetter("Copernicus", 't') && LacksLetter("Sentinel-1", 'p')
    ensures LacksLetter("Europe", 't') && LacksLetter("Coverage", 'p')
  {
    // one word at a time, which keeps each step small for the verifier
    assert LacksLetter("Copernicus", 't');
    assert LacksLetter("Sentinel-1", 'p');
    assert LacksLetter("Europe", 't');
    assert LacksLetter("Coverage", 'p');
  }

  lemma FifthTitleLacksProtein()
    ensures !Contains(ToLower(SentinelEuropeCoverage.title), "protein")
  {
    FifthTitleLetters();
    FourWordsLack(SentinelEuropeCoverage.title, "Copernicus", "Sentinel-1", "Europe", "Coverage",
      't', 'p', 't', 'p', "protein");
  }

  /** Searching the sample catalogue for "protein" with no tag selected finds exactly datasets 1 and 2. */
  lemma ProteinSearchExample()
    ensures FilterDatasets(SampleDatasets, "protein", []) == [InsulinCrystallization, ProteinCrystalGrowth]
  {
    var ds := SampleDatasets;
    var q := "protein";
    ProteinInTag(ds[0]);
    ProteinInTag(ds[1]);
    ThirdDatasetMissesProtein();
    FourthDatasetMissesProtein();
    FifthDatasetMissesProtein();
    assert !Matches(ds[2], q, []) && !Matches(ds[3], q, []) && !Matches(ds[4], q, []);
    assert FilterDatasets(ds[4..], q, []) == [];
    assert ds[3..][1..] == ds[4..];
    assert FilterDatasets(ds[3..], q, []) == [];
    assert ds[2..][1..] == ds[3..];
    assert FilterDatasets(ds[2..], q, []) == [];
    assert ds[1..][1..] == ds[2..];
    assert FilterDatasets(ds[1..], q, []) == [ds[1]];
  }
}
