/** A dataset of vehicle registrations and its aggregate queries: the most
    popular make and model, the number of vehicles of a model year and the
    county with the most vehicles. A dataset never changes after it is
    built, so every query is a function of its records and arguments. */
module Datasets {
  import opened Frequency
  import opened YearKeys

  /** One registration record, with the fields the queries read. */
  datatype Vehicle = Vehicle(make: string, model: string, year: string, county: string)

  /** A read-only wrapper over the records it was built from. The record type
      is generic: facility datasets are datasets too, but only the queries
      below, which need vehicle fields, are defined for vehicles. */
  datatype Dataset<T> = Dataset(data: seq<T>)

  /** Raised when a most-frequent value is asked of no records at all. */
  datatype DatasetError = EmptyDatasetError

  datatype Result<T> = Ok(value: T) | Err(error: DatasetError) {
    predicate IsFailure() {
      Err?
    }

    function PropagateFailure<U>(): Result<U>
      requires Err?
    {
      Err(error)
    }

    function Extract(): T
      requires Ok?
    {
      value
    }
  }

  /** The pair returned by the most-popular query. */
  datatype MakeModel = MakeModel(make: string, model: string)

  datatype Field = Make | Model | Year | County

  function FieldOf(v: Vehicle, f: Field): string {
    match f
    case Make => v.make
    case Model => v.model
    case Year => v.year
    case County => v.county
  }

  /** One field of every record, in record order. */
  function Project(records: seq<Vehicle>, f: Field): (r: seq<string>)
    ensures |r| == |records|
    ensures forall i :: 0 <= i < |records| ==> r[i] == FieldOf(records[i], f)
  {
    if |records| == 0 then []
    else [FieldOf(records[0], f)] + Project(records[1..], f)
  }

  /** The records whose field `f` equals `v`, in record order. */
  function Where(records: seq<Vehicle>, f: Field, v: string): (r: seq<Vehicle>)
    ensures forall x :: x in r ==> x in records && FieldOf(x, f) == v
    ensures forall x :: x in records && FieldOf(x, f) == v ==> x in r
    ensures |r| == Count(Project(records, f), v)
  {
    if |records| == 0 then []
    else
      var rest := Where(records[1..], f, v);
      assert Project(records, f)[1..] == Project(records[1..], f);
      if FieldOf(records[0], f) == v then [records[0]] + rest else rest
  }

  /** Number of records carrying both `make` and `model`: the reference
      count for the popularity of a model within a make. */
  function CountMakeModel(records: seq<Vehicle>, make: string, model: string): nat {
    if |records| == 0 then 0
    else
      (if records[0].make == make && records[0].model == model then 1 else 0)
      + CountMakeModel(records[1..], make, model)
  }

  /** `model` is a most popular model of make `make`: some record carries
      both, and no model is carried together with `make` by strictly more
      records. */
  predicate IsPopularModelOfMake(records: seq<Vehicle>, make: string, model: string) {
    && (exists i :: 0 <= i < |records| && records[i].make == make && records[i].model == model)
    && forall i :: 0 <= i < |records| && records[i].make == make ==>
      CountMakeModel(records, make, records[i].model) <= CountMakeModel(records, make, model)
  }

  /** Counting a model among the records of one make is counting the
      records that carry both. */
  lemma {:induction false} CountModelWithinMake(records: seq<Vehicle>, make: string, model: string)
    ensures Count(Project(Where(records, Make, make), Model), model) == CountMakeModel(records, make, model)
  {
    if |records| > 0 {
      var rest := Where(records[1..], Make, make);
      CountModelWithinMake(records[1..], make, model);
      if records[0].make == make {
        assert Where(records, Make, make) == [records[0]] + rest;
        assert Project([records[0]] + rest, Model)[1..] == Project(rest, Model);
      } else {
        assert Where(records, Make, make) == rest;
      }
    }
  }

  /** The most popular make of `records`; fails on no records. */
  function GetMake(records: seq<Vehicle>): (r: Result<string>)
    ensures r.Ok? <==> |records| > 0
    ensures r.Ok? ==> IsMode(Project(records, Make), r.value)
  {
    if |records| == 0 then Err(EmptyDatasetError)
    else Ok(Mode(Project(records, Make)))
  }

  /** The most popular model among the records of make `make`; fails when
      no record has that make. */
  function GetModel(records: seq<Vehicle>, make: string): (r: Result<string>)
    ensures r.Ok? <==> make in Project(records, Make)
    ensures r.Ok? ==> IsPopularModelOfMake(records, make, r.value)
  {
    var ofMake := Where(records, Make, make);
    if |ofMake| == 0 then Err(EmptyDatasetError)
    else
      var models := Project(ofMake, Model);
      var m := Mode(models);
      ModeWithinMake(records, make, m);
      Ok(m)
  }

  /** A most frequent model of the records of one make is the model of a
      record of that make. */
  lemma ModeWithinMakeOccurs(records: seq<Vehicle>, make: string, m: string)
    requires m in Project(Where(records, Make, make), Model)
    ensures exists i :: 0 <= i < |records| && records[i].make == make && records[i].model == m
  {
    var ofMake := Where(records, Make, make);
    var j :| 0 <= j < |ofMake| && Project(ofMake, Model)[j] == m;
    assert ofMake[j] in ofMake;
    var i :| 0 <= i < |records| && records[i] == ofMake[j];
  }

  /** A model of a record of make `make` is among the models of the records
      of that make. */
  lemma ModelOfMakeIsCandidate(records: seq<Vehicle>, make: string, i: nat)
    requires i < |records| && records[i].make == make
    ensures records[i].model in Project(Where(records, Make, make), Model)
  {
  }

  /** What a most frequent model of the records of one make means in terms
      of the records themselves. */
  lemma ModeWithinMake(records: seq<Vehicle>, make: string, m: string)
    requires IsMode(Project(Where(records, Make, make), Model), m)
    ensures IsPopularModelOfMake(records, make, m)
  {
    ModeWithinMakeOccurs(records, make, m);
    CountModelWithinMake(records, make, m);
    forall i | 0 <= i < |records| && records[i].make == make
      ensures CountMakeModel(records, make, records[i].model) <= CountMakeModel(records, make, m)
    {
      ModelOfMakeIsCandidate(records, make, i);
      CountModelWithinMake(records, make, records[i].model);
    }
  }

  /** The most popular make and, among the records of that make, the most
      popular model; fails on no records. */
  function MostPopularMakeModel(records: seq<Vehicle>): (r: Result<MakeModel>)
    ensures r.Ok? <==> |records| > 0
    ensures r.Ok? ==> IsMode(Project(records, Make), r.value.make)
    ensures r.Ok? ==> r.value.model in Project(records, Model)
    ensures r.Ok? ==> IsPopularModelOfMake(records, r.value.make, r.value.model)
  {
    var make :- GetMake(records);
    var model := GetModel(records, make);
    if model.Err? then Err(EmptyDatasetError) else Ok(MakeModel(make, model.value))
  }

  /** The most popular make and model of the dataset's own records. */
  function DatasetMostPopularMakeModel(d: Dataset<Vehicle>): (r: Result<MakeModel>)
    ensures r.Ok? <==> |d.data| > 0
    ensures r.Ok? ==> r.value.make in Project(d.data, Make) && r.value.model in Project(d.data, Model)
  {
    MostPopularMakeModel(d.data)
  }

  /** Number of records whose model year equals the key of `year`. */
  function CountByModelYear(d: Dataset<Vehicle>, year: YearArg): (n: nat)
    ensures n == Count(Project(d.data, Year), YearKey(year))
    ensures n <= |d.data|
  {
    |Where(d.data, Year, YearKey(year))|
  }

  /** The county with the most vehicles; fails on an empty dataset. */
  function CountyWithMostVehicles(d: Dataset<Vehicle>): (r: Result<string>)
    ensures r.Ok? <==> |d.data| > 0
    ensures r.Ok? ==> IsMode(Project(d.data, County), r.value)
  {
    if |d.data| == 0 then Err(EmptyDatasetError)
    else Ok(Mode(Project(d.data, County)))
  }

  /** A dataset hands back exactly the records it was built from. */
  lemma DataIsConstructorArgument<T>(records: seq<T>)
    ensures Dataset(records).data == records
  {
  }

  /** The count of an integer year equals that of the string it prints as. */
  lemma CountByModelYearIntOrString(d: Dataset<Vehicle>, n: int)
    ensures CountByModelYear(d, IntYear(n)) == CountByModelYear(d, StrYear(IntToString(n)))
  {
    IntAndStringYearSameKey(n);
  }

  /** Counting year 2019 gives the same number whether 2019 or "2019" is asked. */
  lemma CountByModelYear2019(d: Dataset<Vehicle>)
    ensures CountByModelYear(d, IntYear(2019)) == CountByModelYear(d, StrYear("2019"))
  {
    Year2019Key();
  }

  /** No record is counted under two different integer years. */
  lemma CountsOfDistinctYears(d: Dataset<Vehicle>, a: int, b: int)
    requires a != b
    ensures CountByModelYear(d, IntYear(a)) + CountByModelYear(d, IntYear(b)) <= |d.data|
  {
    if YearKey(IntYear(a)) == YearKey(IntYear(b)) {
      IntYearKeyInjective(a, b);
    }
    CountTwoValues(Project(d.data, Year), YearKey(IntYear(a)), YearKey(IntYear(b)));
  }

  /** On a non-empty record sequence the model query after the make query
      succeeds. */
  lemma GetModelOfMostPopularMake(records: seq<Vehicle>)
    requires |records| > 0
    ensures GetModel(records, GetMake(records).value).Ok?
  {
  }
}
