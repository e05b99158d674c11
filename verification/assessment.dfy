/**
 One risk assessment: the nine policy inputs become a one-row record, the
 record is aligned to the fitted pipeline's schema, the black-box classifier
 scores the aligned row, and the risk policy turns its output into what the
 dashboard shows. The classifier is a pair of functions over aligned rows,
 since the trained model is not part of this model.
 */
module Assessment {
  import opened Values
  import opened Schema
  import opened Alignment
  import opened RiskPolicy

  /** The policy inputs the sidebar collects. */
  datatype PolicyInputs = PolicyInputs(
    policyTenure: real,
    ageOfCar: int,
    ageOfPolicyholder: int,
    areaCluster: string,
    segment: string,
    fuelType: string,
    populationDensity: int,
    make: int,
    ncapRating: int)

  /** The raw record built from the inputs: the nine fields under their
      column names, numbers as numbers and selections of text as text. */
  function ToRecord(inp: PolicyInputs): (raw: Frame)
    ensures raw.Keys == {"policy_tenure", "age_of_car", "age_of_policyholder", "area_cluster",
                         "segment", "fuel_type", "population_density", "make", "ncap_rating"}
    ensures raw["policy_tenure"] == Num(inp.policyTenure)
    ensures raw["age_of_car"] == Num(inp.ageOfCar as real)
    ensures raw["age_of_policyholder"] == Num(inp.ageOfPolicyholder as real)
    ensures raw["area_cluster"] == Str(inp.areaCluster)
    ensures raw["segment"] == Str(inp.segment)
    ensures raw["fuel_type"] == Str(inp.fuelType)
    ensures raw["population_density"] == Num(inp.populationDensity as real)
    ensures raw["make"] == Num(inp.make as real)
    ensures raw["ncap_rating"] == Num(inp.ncapRating as real)
  {
    map[
      "policy_tenure" := Num(inp.policyTenure),
      "age_of_car" := Num(inp.ageOfCar as real),
      "age_of_policyholder" := Num(inp.ageOfPolicyholder as real),
      "area_cluster" := Str(inp.areaCluster),
      "segment" := Str(inp.segment),
      "fuel_type" := Str(inp.fuelType),
      "population_density" := Num(inp.populationDensity as real),
      "make" := Num(inp.make as real),
      "ncap_rating" := Num(inp.ncapRating as real)
    ]
  }

  /** The loaded pipeline: its preprocessing step, the probability of the
      positive class (a claim) for an aligned row, and the hard label. */
  datatype Model = Model(
    prep: Preprocessor,
    claimProbability: seq<Cell> -> real,
    predictLabel: seq<Cell> -> int)

  /** Everything the dashboard displays for one assessment. */
  datatype Report = Report(
    features: seq<Cell>,
    riskPercent: real,
    predictedClaim: int,
    tier: Tier,
    recommendation: Recommendation,
    claimText: string,
    claimBadge: string)

  /** One assessment. Alignment errors propagate; otherwise the classifier
      sees exactly the aligned row, the percentage is the positive-class
      probability times 100, the tier is the band the percentage lies in, and
      the level, action, badge, claim text and claim badge are those the
      risk policy gives for the percentage and the hard label. */
  function Assess(raw: Frame, model: Model, show: Value -> string, parse: Value -> Option<real>)
    : (r: Result<Report, AlignError>)
    ensures r.Success? <==> Align(raw, model.prep, show, parse).Success?
    ensures r.Failure? ==> r.error == Align(raw, model.prep, show, parse).error
    ensures r.Success? ==> r.value.features == Align(raw, model.prep, show, parse).value
    ensures r.Success? ==> Columns(r.value.features) == model.prep.featureNamesIn
    ensures r.Success? ==> r.value.riskPercent == 100.0 * model.claimProbability(r.value.features)
    ensures r.Success? ==> r.value.predictedClaim == model.predictLabel(r.value.features)
    ensures r.Success? ==> InBand(r.value.tier, r.value.riskPercent)
    ensures r.Success? ==> r.value.recommendation == Recommend(r.value.riskPercent)
    ensures r.Success? ==> r.value.claimText == ClaimText(r.value.predictedClaim)
    ensures r.Success? ==> r.value.claimBadge == ClaimBadge(r.value.predictedClaim)
  {
    match Align(raw, model.prep, show, parse)
    case Failure(e) => Failure(e)
    case Success(row) =>
      var percent := model.claimProbability(row) * 100.0;
      var predicted := model.predictLabel(row);
      var tier := TierOf(percent);
      TierOfIsBand(percent, tier);
      Success(Report(row, percent, predicted, tier, Recommend(percent), ClaimText(predicted), ClaimBadge(predicted)))
  }

  /** The default sidebar inputs: the number inputs' initial values and the
      first option of every select box. */
  const ScenarioInputs: PolicyInputs := PolicyInputs(1.0, 3, 35, "A", "A", "Petrol", 5000, 1, 0)

  /** A schema that expects two columns the inputs lack: a categorical
      `region_code` and a numeric `airbags`. */
  const ScenarioPrep: Preprocessor := Preprocessor(
    ["policy_tenure", "age_of_car", "age_of_policyholder", "area_cluster", "segment",
     "fuel_type", "population_density", "make", "ncap_rating", "region_code", "airbags"],
    [Transformer("num", ["policy_tenure", "age_of_car", "age_of_policyholder",
                         "population_density", "make", "ncap_rating", "airbags"]),
     Transformer("cat", ["area_cluster", "segment", "fuel_type", "region_code"])])

  /** The categorical columns of the scenario schema are those of its "cat"
      transformer. */
  lemma ScenarioCategoricalColumns()
    ensures CategoricalColumns(ScenarioPrep) == ["area_cluster", "segment", "fuel_type", "region_code"]
  {
  }

  /** The aligned row for the scenario, written out. */
  const ScenarioRow: seq<Cell> := [
    Cell("policy_tenure", Num(1.0)),
    Cell("age_of_car", Num(3.0)),
    Cell("age_of_policyholder", Num(35.0)),
    Cell("area_cluster", Str("A")),
    Cell("segment", Str("A")),
    Cell("fuel_type", Str("Petrol")),
    Cell("population_density", Num(5000.0)),
    Cell("make", Num(1.0)),
    Cell("ncap_rating", Num(0.0)),
    Cell("region_code", Str("No")),
    Cell("airbags", Num(0.0))]

  /** Column by column, the scenario row is what alignment promises. */
  lemma ScenarioExpectedValues(show: Value -> string, parse: Value -> Option<real>)
    ensures Columns(ScenarioRow) == ScenarioPrep.featureNamesIn
    ensures forall i :: 0 <= i < |ScenarioRow| ==>
              ScenarioRow[i].value == ExpectedValue(ScenarioPrep.featureNamesIn[i], ToRecord(ScenarioInputs),
                                                    ["area_cluster", "segment", "fuel_type", "region_code"], show, parse)
  {
    var raw := ToRecord(ScenarioInputs);
    assert "region_code" !in raw;
    assert "airbags" !in raw;
  }

  /** The default sidebar inputs aligned to that schema: the supplied fields keep
      their values and types, `region_code` is "No" and `airbags` is 0, all
      in the schema's order. */
  lemma ScenarioAlignment(show: Value -> string, parse: Value -> Option<real>)
    ensures Align(ToRecord(ScenarioInputs), ScenarioPrep, show, parse) == Success(ScenarioRow)
  {
    ScenarioCategoricalColumns();
    ScenarioExpectedValues(show, parse);
    AlignSucceedsOnFittedSchema(ToRecord(ScenarioInputs), ScenarioPrep, show, parse);
    AlignMatchesReference(ToRecord(ScenarioInputs), ScenarioPrep, show, parse, ScenarioRow);
  }
}
