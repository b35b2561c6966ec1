/** The queries on a small concrete dataset: two Tesla Model 3 of 2019
    registered in King county and one Nissan Leaf of 2018 in Pierce county. */
module Scenario {
  import opened Frequency
  import opened YearKeys
  import opened Datasets

  function SmallDataset(): Dataset<Vehicle> {
    Dataset([
      Vehicle("Tesla", "Model 3", "2019", "King"),
      Vehicle("Tesla", "Model 3", "2019", "King"),
      Vehicle("Nissan", "Leaf", "2018", "Pierce")])
  }

  lemma SmallDatasetMostPopular()
    ensures MostPopularMakeModel(SmallDataset().data) == Ok(MakeModel("Tesla", "Model 3"))
  {
    var rs := SmallDataset().data;
    var makes := Project(rs, Make);
    assert makes == ["Tesla", "Tesla", "Nissan"];
    assert Count(makes, "Tesla") == 2;
    assert Count(makes, "Nissan") == 1;
    ModeOfDominant(makes, "Tesla");
    var tesla := Where(rs, Make, "Tesla");
    assert Where(rs[2..], Make, "Tesla") == [];
    assert tesla == rs[..2];
    var models := Project(tesla, Model);
    assert models == ["Model 3", "Model 3"];
    ModeOfDominant(models, "Model 3");
  }

  lemma SmallDatasetYearCounts()
    ensures CountByModelYear(SmallDataset(), IntYear(2019)) == 2
    ensures CountByModelYear(SmallDataset(), StrYear("2018")) == 1
  {
    var years := Project(SmallDataset().data, Year);
    assert years == ["2019", "2019", "2018"];
    Year2019Key();
    assert Count(years, "2019") == 2;
    assert Count(years, "2018") == 1;
  }

  lemma SmallDatasetCounty()
    ensures CountyWithMostVehicles(SmallDataset()) == Ok("King")
  {
    var counties := Project(SmallDataset().data, County);
    assert counties == ["King", "King", "Pierce"];
    assert Count(counties, "King") == 2;
    assert Count(counties, "Pierce") == 1;
    ModeOfDominant(counties, "King");
  }
}
