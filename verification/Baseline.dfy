/** The baseline rating model: its parameters and what it accepts as a rating. */
module BaselineModel {
  import opened Common
  import opened RatingTypes
  import opened Analysis

  datatype BaselineConfig = BaselineConfig(
    version: Id,
    initialMean: real,
    initialUncertainty: real,
    minimumUncertainty: real,
    maximumUncertainty: real,
    defaultPerformanceDeviation: real)
  {
    predicate Valid() {
      && version != 0
      && 0.0 < minimumUncertainty <= initialUncertainty <= maximumUncertainty
      && defaultPerformanceDeviation > 0.0
    }
  }

  datatype Baseline = Baseline(config: BaselineConfig, math: Functions) {

    ghost predicate Valid() {
      config.Valid() && math.Lawful()
    }

    /** A rating this model may read: its own version, inside its bounds. */
    predicate Accepts(estimate: Estimate) {
      && estimate.Valid()
      && estimate.modelVersion == config.version
      && config.minimumUncertainty <= estimate.uncertainty <= config.maximumUncertainty
    }

    function Deviation(estimate: Estimate): real {
      if estimate.performanceDeviation.Some? then estimate.performanceDeviation.value
      else config.defaultPerformanceDeviation
    }
  }
}
