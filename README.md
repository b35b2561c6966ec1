# Vehicle registration dataset queries

A model of the `Dataset` component of the DMV data project. A `Dataset` wraps
an ordered sequence of records (vehicle registrations or facility listings)
and never changes after construction. For vehicle records it answers four
aggregate queries:

- `data`: the records it was built from;
- `most_popular_make_model`: the most frequent make (`get_make`) and, among
  the records of that make, the most frequent model (`get_model`);
- `count_by_model_year(year)`: how many records have the given model year,
  where the year may be an integer or a string;
- `county_with_most_vehicles`: the most frequent county.

The implementation of `Dataset` is not part of this model. Its behaviour is
taken from the RSpec file `spec/dataset_spec.rb`, which pins it down, and
from the design of the component. Every query is a pure function, so
the model is functional: datatypes, functions and lemmas.

Layout:

- `frequency.dfy` (module `Frequency`): `Count`, the predicate `IsMode`
  ("occurs, and nothing occurs strictly more often") and `Mode`. `Mode`
  scans the elements in order; among tied values the earliest wins. Only `IsMode` is proved about the result. The tests
  do not fix a tie-break order.
- `year_keys.dfy` (module `YearKeys`): the year argument
  `IntYear(n) | StrYear(s)` and its comparison key. An integer becomes its
  decimal string, with a minus sign when negative, as Ruby's `Integer#to_s`
  prints it. A string is used as it is. `ParseInt` reads a key back and
  serves as the inverse in the round-trip lemma.
- `datasets.dfy` (module `Datasets`): `Vehicle`, the generic
  `Dataset<T>`, the error `EmptyDatasetError`, and the queries.
  `Project(records, f)` is the tests' `data.map { |vehicle| vehicle.f }`.
  `Where(records, f, v)` keeps the records whose field `f` is `v`.
- `scenario.dfy` (module `Scenario`): three concrete records and the query
  results on them.

Errors: `get_make`, `most_popular_make_model` and
`county_with_most_vehicles` return `Err(EmptyDatasetError)` for no records.
`get_model` returns it when no record has the requested make. Each contract
states both directions of when a query succeeds.

## Model

| member | source | states |
|---|---|---|
| `Datasets.DataIsConstructorArgument` | spec/dataset_spec.rb:32-48 | a dataset returns exactly the sequence it was built from, for any record type |
| `Datasets.GetMake` | spec/dataset_spec.rb:94-98 | succeeds exactly on non-empty records; the make returned occurs among the records' makes and no make occurs strictly more often |
| `Datasets.GetModel` | spec/dataset_spec.rb:100-106 | succeeds exactly when some record has the make; the model returned belongs to a record of that make, and no model among the records of that make is carried by strictly more of them |
| `Datasets.ModeWithinMake` | spec/dataset_spec.rb:101-104 | a most frequent model of the records filtered by make is the model of a record of that make and has maximal make-and-model count over all the records |
| `Datasets.CountModelWithinMake` | spec/dataset_spec.rb:101-104 | counting a model among the records of one make equals counting the records that carry both the make and the model |
| `Datasets.MostPopularMakeModel` | spec/dataset_spec.rb:51-62 | succeeds exactly on non-empty records; the make is a most frequent make; the model occurs among the models and belongs to a record of that make, with maximal count among that make's models |
| `Datasets.DatasetMostPopularMakeModel` | spec/dataset_spec.rb:57-62 | on a dataset's own data: the make occurs among the makes and the model among the models |
| `Datasets.GetModelOfMostPopularMake` | spec/dataset_spec.rb:102-104 | on non-empty records, `get_model` of the make chosen by `get_make` succeeds |
| `Datasets.CountByModelYear` | spec/dataset_spec.rb:65-74 | the count is the number of entries of the projected years equal to the year's key, hence at most the number of records |
| `Datasets.CountByModelYearIntOrString` | spec/dataset_spec.rb:76-80 | any integer year and the string it prints as give the same count |
| `Datasets.CountByModelYear2019` | spec/dataset_spec.rb:76-80 | `IntYear(2019)` and `StrYear("2019")` give the same count |
| `Datasets.CountsOfDistinctYears` | spec/dataset_spec.rb:70-74 | counts for two different integer years together never exceed the number of records |
| `Datasets.CountyWithMostVehicles` | spec/dataset_spec.rb:83-91 | succeeds exactly on a non-empty dataset; the county returned occurs among the counties and no county occurs strictly more often |
| `Datasets.Project` | spec/dataset_spec.rb:58-59 | one entry per record, in record order, each the chosen field of that record (the tests map each vehicle to its make, model, year or county at lines 58-59, 71 and 89) |
| `Datasets.Where` | spec/dataset_spec.rb:71-72 | the records kept are exactly the records with the field value, and there are as many as that value occurs in the projection |
| `Frequency.Count` | spec/dataset_spec.rb:72 | a count is at most the length and is positive exactly when the value occurs |
| `Frequency.Mode` | spec/dataset_spec.rb:94-98 | the mode of a non-empty sequence occurs in it and no value occurs strictly more often |
| `Frequency.ModeOfDominant` | spec/dataset_spec.rb:94-98 | a value strictly more frequent than every other is the mode, whatever the tie-break |
| `Frequency.CountTwoValues` | spec/dataset_spec.rb:70-74 | occurrences of two different values add up to at most the length |
| `YearKeys.IntToString` | spec/dataset_spec.rb:76-80 | the printed form of an integer is non-empty and starts with a minus sign exactly for negatives |
| `YearKeys.YearKey` | spec/dataset_spec.rb:76-80 | the key of an integer year reads back as that integer; the key of a string year is the string itself |
| `YearKeys.IntToStringRoundTrip` | spec/dataset_spec.rb:76-80 | reading back the key of an integer year gives that integer |
| `YearKeys.IntYearKeyInjective` | spec/dataset_spec.rb:70-74 | two integer years with the same key are equal |
| `YearKeys.IntAndStringYearSameKey` | spec/dataset_spec.rb:76-80 | an integer year and the string it prints as have the same key |
| `YearKeys.Year2019Key` | spec/dataset_spec.rb:76-80 | 2019 and "2019" have the same key |
| `Scenario.SmallDatasetMostPopular` | spec/dataset_spec.rb:51-62 | on two Tesla Model 3 and one Nissan Leaf, the result is Tesla, Model 3 |
| `Scenario.SmallDatasetYearCounts` | spec/dataset_spec.rb:65-80 | on the same records, year 2019 counts 2 and year "2018" counts 1 |
| `Scenario.SmallDatasetCounty` | spec/dataset_spec.rb:83-91 | on the same records, the county with most vehicles is King |

## Left out

- Loading the WA, OR, NY and MO data through `DmvDataService` (spec/dataset_spec.rb:8-11): external data fetching and I/O.
- `VehicleFactory` and `FacilityFactory` (spec/dataset_spec.rb:5-6, 13-16): external record construction. Records are a plain datatype.
- Facility records: no query is defined over them. `Dataset<T>` is generic, so `data` holds for them too.
- Ruby's runtime type checks (`be_a Array`, `be_a Vehicle`, `be_a String`, `be_a Integer`): Dafny's types guarantee them.
- The returned pair is a `MakeModel` datatype rather than a two-element array. The test's non-emptiness check holds by construction.
- The year field of a record is a string, as the tests compare it with `"2019"`. Integer-valued record years and parsing of malformed year strings are not modelled. A string argument is compared as it is, so `"02019"` does not match `"2019"`.
- `Frequency.Mode`: which of several equally frequent values is returned (first occurrence) is fixed by the definition but not stated in a contract, because the tests do not fix it.
- The source's behaviour on empty input (no records, or no record of the requested make) is neither shown nor tested; the model returns `Err(EmptyDatasetError)` as the component's design documents.
