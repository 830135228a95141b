/** A whole simulated run, from the workload to its report. */
module RunSimulation {
  import opened RatingTypes
  import opened BaselineModel
  import opened PredictionLaws
  import opened Simulator
  import opened SimulatorRun
  import opened SimulatorReport
  import opened SimulatorLaws
  import opened OutcomeGenerator

  datatype Outcome = Reported(report: RunReport, rooms: seq<SimulatedRoom>) | Failed(error: RunError) | NotReported

  /** Everything a run needs to end in a report. */
  ghost predicate Capable(predict: Predictor, outcomes: Outcomes, w: Workload, config: RunConfig) {
    Smooth(predict, outcomes, w, config) && PredictorCoherent(predict, w) && OutcomesAnswer(outcomes, w, config)
  }

  /** Forms the rooms and builds the report. A report conserves everything, and a
      valid workload with capable dependencies always gets one. */
  method Run(
      predict: Predictor, outcomes: Outcomes, log: real -> real, w: Workload, config: RunConfig) returns (r: Outcome)
    requires config.Valid()
    ensures r.Reported? ==>
      && WorkloadValid(w, config.policy.ratingModelVersion) && Resolved(predict, outcomes, w, config, r.rooms)
      && ReportOk(log, w, config, r.rooms, r.report)
      && r.report.overall.counts.tickets == |w.arrivals| && r.report.overall.counts.rooms == |r.rooms|
      && SamplesExact(r.report.overall) && SamplesBounded(config.policy, r.report.overall)
      && ReportedCounts(r.report, |r.report.partitions|) == r.report.overall.counts
    ensures r.Failed? ==> r.error != NotPredicted
    ensures WorkloadValid(w, config.policy.ratingModelVersion) && Capable(predict, outcomes, w, config) ==> r.Reported?
  {
    hide *;
    CapableParts(predict, outcomes, w, config);
    var formation := FormRooms(predict, outcomes, w, config);
    if formation.Aborted? {
      return Failed(formation.error);
    }
    ResolvedParts(predict, outcomes, w, config, formation.rooms);
    if Capable(predict, outcomes, w, config) {
      RunReports(predict, outcomes, w, config, formation.rooms, log);
    }
    var report := BuildReport(log, w, config, formation.rooms);
    if report.Err? {
      return NotReported;
    }
    RunConserves(predict, outcomes, w, config, formation.rooms, log, report.value);
    r := Reported(report.value, formation.rooms);
  }

  lemma CapableParts(predict: Predictor, outcomes: Outcomes, w: Workload, config: RunConfig)
    ensures Capable(predict, outcomes, w, config) ==>
      && AvoidsZero(w, config) && Smooth(predict, outcomes, w, config) && PredictorCoherent(predict, w)
        && OutcomesAnswer(outcomes, w, config)
  {
    hide PredictorDecides, OutcomesDecide, PredictorCoherent, OutcomesAnswer;
  }

  /** The baseline and the outcome generator make every valid run capable: ratings
      the model reads and no moment at the zero time are enough for a report. */
  lemma BaselineIsCapable(model: Baseline, noise: Noise, w: Workload, config: RunConfig)
    requires config.Valid() && WorkloadValid(w, config.policy.ratingModelVersion)
    requires ReadsWorkload(model, w) && AvoidsZero(w, config)
    ensures model.Valid()
    ensures Capable(AsPredictor(model), AsOutcomes(w.config.partitions, noise), w, config)
  {
    hide ReadsWorkload, WorkloadValid, RunConfig.Valid, PredictorCoherent, PredictorDecides, Askable, Answers,
      OutcomeRequestOf;
    BaselineDecides(model, w);
    GeneratorAnswers(w, config, noise);
  }
}
