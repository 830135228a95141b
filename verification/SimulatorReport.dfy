/** The report of a run: samples over all rooms and over each partition, with a
    calibration of every partition that filled a room. */
module SimulatorReport {
  import opened Common
  import opened RatingTypes
  import opened Eligibility
  import opened Simulator
  import Calibration

  /** The counters of a set of samples. */
  datatype Counts = Counts(
    tickets: nat,
    filledTickets: nat,
    timedOutTickets: nat,
    rooms: nat,
    filled: nat,
    timedOut: nat)
  {
    function Plus(c: Counts): Counts {
      Counts(tickets + c.tickets, filledTickets + c.filledTickets, timedOutTickets + c.timedOutTickets,
             rooms + c.rooms, filled + c.filled, timedOut + c.timedOut)
    }
  }

  const NO_COUNTS := Counts(0, 0, 0, 0, 0, 0)

  datatype Samples = Samples(
    counts: Counts,
    playerWaits: seq<Duration>,
    resolutions: seq<Duration>,
    filledDurations: seq<Duration>,
    skillGaps: seq<real>,
    winSpreads: seq<real>,
    observations: seq<Calibration.Observation>)

  const NO_SAMPLES := Samples(NO_COUNTS, [], [], [], [], [], [])

  datatype PartitionReport = PartitionReport(
      partition: Partition, samples: Samples, calibration: Option<Calibration.Report>)

  datatype RunReport = RunReport(overall: Samples, partitions: seq<PartitionReport>, resolvedAt: Time)

  // ---------------------------------------------------------------------
  // One room's samples
  // ---------------------------------------------------------------------

  function ResolutionOf(room: SimulatedRoom): Time {
    if room.filled.Some? then room.filled.value.at else room.view.deadline
  }

  function CountsOf(room: SimulatedRoom): Counts {
    var n := |room.arrivals|;
    if room.filled.None? then Counts(n, 0, n, 1, 0, 1) else Counts(n, n, 0, 1, 1, 0)
  }

  function WaitsOf(room: SimulatedRoom): seq<Duration> {
    seq(|room.arrivals|, i requires 0 <= i < |room.arrivals| => ResolutionOf(room) - room.arrivals[i].arrivedAt)
  }

  /** Prediction fairness has no value without participants. */
  predicate Sampleable(room: SimulatedRoom) {
    room.filled.Some? ==> room.filled.value.prediction.participants != []
  }

  function SpreadOf(prediction: RoomPrediction): real
    requires prediction.participants != []
  {
    MaxFirstPlace(prediction.participants, |prediction.participants|)
    - MinFirstPlace(prediction.participants, |prediction.participants|)
  }

  function Sampled(s: Samples, room: SimulatedRoom): Samples
    requires Sampleable(room)
  {
    var always := s.(
      counts := s.counts.Plus(CountsOf(room)),
      playerWaits := s.playerWaits + WaitsOf(room),
      resolutions := s.resolutions + [ResolutionOf(room) - room.view.createdAt]);
    if room.filled.None? then always
    else
      var f := room.filled.value;
      always.(
        filledDurations := s.filledDurations + [f.at - room.view.createdAt],
        skillGaps := s.skillGaps + [SkillGap(room.view.members)],
        winSpreads := s.winSpreads + [SpreadOf(f.prediction)],
        observations := s.observations + [Calibration.Observation(f.prediction, f.result)])
  }

  ghost predicate AllSampleable(rooms: seq<SimulatedRoom>) {
    forall i :: 0 <= i < |rooms| ==> Sampleable(rooms[i])
  }

  ghost function SamplesOf(rooms: seq<SimulatedRoom>): Samples
    requires AllSampleable(rooms)
  {
    if rooms == [] then NO_SAMPLES else Sampled(SamplesOf(rooms[..|rooms| - 1]), rooms[|rooms| - 1])
  }

  /** The rooms of one partition, in order. */
  ghost function Within(rooms: seq<SimulatedRoom>, id: Id): seq<SimulatedRoom> {
    if rooms == [] then []
    else
      var last := rooms[|rooms| - 1];
      Within(rooms[..|rooms| - 1], id) + if last.partitionId == id then [last] else []
  }

  lemma {:induction false} WithinFrom(rooms: seq<SimulatedRoom>, id: Id)
    ensures forall r :: r in Within(rooms, id) <==> r in rooms && r.partitionId == id
  {
    if rooms != [] {
      WithinFrom(rooms[..|rooms| - 1], id);
      assert rooms == rooms[..|rooms| - 1] + [rooms[|rooms| - 1]];
    }
  }

  lemma WithinSampleable(rooms: seq<SimulatedRoom>, id: Id)
    requires AllSampleable(rooms)
    ensures AllSampleable(Within(rooms, id))
  {
    hide Within, Sampleable;
    WithinFrom(rooms, id);
    forall i | 0 <= i < |Within(rooms, id)| ensures Sampleable(Within(rooms, id)[i]) {
      assert Within(rooms, id)[i] in rooms;
      var j :| 0 <= j < |rooms| && rooms[j] == Within(rooms, id)[i];
    }
  }

  lemma StepSamples(rooms: seq<SimulatedRoom>, room: SimulatedRoom)
    requires AllSampleable(rooms + [room])
    ensures AllSampleable(rooms) && Sampleable(room)
    ensures SamplesOf(rooms + [room]) == Sampled(SamplesOf(rooms), room)
    ensures forall id :: Within(rooms + [room], id) == Within(rooms, id) + if room.partitionId == id then [room] else []
  {
    hide Sampled, Sampleable;
    assert (rooms + [room])[..|rooms|] == rooms;
    forall i | 0 <= i < |rooms| ensures Sampleable(rooms[i]) {
      assert (rooms + [room])[i] == rooms[i];
    }
    assert (rooms + [room])[|rooms|] == room;
  }

  ghost function LatestResolution(startedAt: Time, rooms: seq<SimulatedRoom>): Time {
    if rooms == [] then startedAt
    else
      var before, last := LatestResolution(startedAt, rooms[..|rooms| - 1]), ResolutionOf(rooms[|rooms| - 1]);
      if last > before then last else before
  }

  // ---------------------------------------------------------------------
  // The report loops
  // ---------------------------------------------------------------------

  method AddRoomSamples(s: Samples, room: SimulatedRoom) returns (r: Result<Samples>)
    ensures r.Ok? <==> Sampleable(room)
    ensures r.Ok? ==> r.value == Sampled(s, room)
  {
    var resolution := ResolutionOf(room);
    var waits: seq<Duration> := [];
    for i := 0 to |room.arrivals|
      invariant |waits| == i && forall j :: 0 <= j < i ==> waits[j] == resolution - room.arrivals[j].arrivedAt
    {
      waits := waits + [resolution - room.arrivals[i].arrivedAt];
    }
    assert waits == WaitsOf(room);
    var always := s.(
      counts := s.counts.Plus(CountsOf(room)),
      playerWaits := s.playerWaits + waits,
      resolutions := s.resolutions + [resolution - room.view.createdAt]);
    if room.filled.None? {
      return Ok(always);
    }
    var f := room.filled.value;
    if |f.prediction.participants| == 0 {
      return Err(InvalidPrediction);
    }
    var ps := f.prediction.participants;
    var minimum, maximum := ps[0].firstPlaceProbability, ps[0].firstPlaceProbability;
    for i := 1 to |ps|
      invariant minimum == MinFirstPlace(ps, i) && maximum == MaxFirstPlace(ps, i)
    {
      minimum := MinReal(minimum, ps[i].firstPlaceProbability);
      maximum := MaxReal(maximum, ps[i].firstPlaceProbability);
    }
    var gap := ComputeSkillGap(room.view.members);
    r := Ok(always.(
              filledDurations := s.filledDurations + [f.at - room.view.createdAt],
              skillGaps := s.skillGaps + [gap],
              winSpreads := s.winSpreads + [maximum - minimum],
              observations := s.observations + [Calibration.Observation(f.prediction, f.result)]));
  }

  /** The samples kept per partition are those of the partition's rooms. */
  ghost predicate TableOk(w: Workload, rooms: seq<SimulatedRoom>, table: map<Id, Samples>)
    requires AllSampleable(rooms)
  {
    && (forall id :: id in table <==> exists p :: p in w.config.partitions && p.id == id)
    && (forall id :: id in table ==> AllSampleable(Within(rooms, id)) && table[id] == SamplesOf(Within(rooms, id)))
  }

  ghost predicate Located(w: Workload, rooms: seq<SimulatedRoom>) {
    forall i :: 0 <= i < |rooms| ==> InPartition(w, rooms[i])
  }

  lemma TableStep(w: Workload, rooms: seq<SimulatedRoom>, room: SimulatedRoom, table: map<Id, Samples>)
    requires AllSampleable(rooms + [room]) && AllSampleable(rooms) && Sampleable(room)
    requires TableOk(w, rooms, table) && room.partitionId in table
    ensures TableOk(w, rooms + [room], table[room.partitionId := Sampled(table[room.partitionId], room)])
  {
    hide Sampled, Sampleable, Within, SamplesOf;
    StepSamples(rooms, room);
    forall id | id in table
      ensures AllSampleable(Within(rooms + [room], id))
      ensures SamplesOf(Within(rooms + [room], id))
        == if id == room.partitionId then Sampled(table[id], room) else table[id]
    {
      WithinSampleable(rooms + [room], id);
      if id == room.partitionId {
        StepSamples(Within(rooms, id), room);
      } else {
        assert Within(rooms, id) + [] == Within(rooms, id);
      }
    }
  }

  ghost predicate Calibrates(log: real -> real, config: RunConfig, s: Samples) {
    s.observations != [] ==> Calibration.Calibrated(log, s.observations, config.binCount).Ok?
  }

  ghost predicate PartitionOk(
      log: real -> real, config: RunConfig, rooms: seq<SimulatedRoom>, p: Partition, r: PartitionReport) {
    && r.partition == p && AllSampleable(Within(rooms, p.id)) && r.samples == SamplesOf(Within(rooms, p.id))
    && (r.calibration.Some? <==> r.samples.observations != [])
    && (r.calibration.Some? ==>
      Calibration.Calibrated(log, r.samples.observations, config.binCount) == Ok(r.calibration.value))
  }

  ghost predicate ReportOk(log: real -> real, w: Workload, config: RunConfig, rooms: seq<SimulatedRoom>, r: RunReport) {
    && AllSampleable(rooms) && r.overall == SamplesOf(rooms)
    && |r.partitions| == |w.config.partitions|
    && (forall i :: 0 <= i < |r.partitions| ==>
      PartitionOk(log, config, rooms, w.config.partitions[i], r.partitions[i]))
    && r.resolvedAt == LatestResolution(w.config.startedAt, rooms)
  }

  /** Exactly when the report can be built. */
  ghost predicate Reportable(log: real -> real, w: Workload, config: RunConfig, rooms: seq<SimulatedRoom>) {
    && AllSampleable(rooms)
    && forall i :: 0 <= i < |w.config.partitions| ==>
      var within := Within(rooms, w.config.partitions[i].id);
      AllSampleable(within) && Calibrates(log, config, SamplesOf(within))
  }

  method CollectSamples(w: Workload, rooms: seq<SimulatedRoom>)
    returns (ok: bool, overall: Samples, table: map<Id, Samples>, resolvedAt: Time)
    requires Located(w, rooms)
    ensures ok <==> AllSampleable(rooms)
    ensures ok ==>
      && overall == SamplesOf(rooms) && TableOk(w, rooms, table)
      && resolvedAt == LatestResolution(w.config.startedAt, rooms)
  {
    hide Sampled, Sampleable, Within;
    ok, overall, resolvedAt := true, NO_SAMPLES, w.config.startedAt;
    table := StartTable(w);
    for k := 0 to |rooms|
      invariant AllSampleable(rooms[..k]) && overall == SamplesOf(rooms[..k]) && TableOk(w, rooms[..k], table)
      invariant resolvedAt == LatestResolution(w.config.startedAt, rooms[..k])
    {
      var room := rooms[k];
      assert rooms[..k + 1] == rooms[..k] + [room];
      assert rooms[..k + 1][..k] == rooms[..k];
      if ResolutionOf(room) > resolvedAt {
        resolvedAt := ResolutionOf(room);
      }
      var added := AddRoomSamples(overall, room);
      if added.Err? {
        assert !Sampleable(rooms[k]);
        ok := false;
        return;
      }
      assert InPartition(w, rooms[k]);
      var updated := AddRoomSamples(table[room.partitionId], room);
      StepSamples(rooms[..k], room);
      TableStep(w, rooms[..k], room, table);
      overall := added.value;
      table := table[room.partitionId := updated.value];
    }
    assert rooms[..|rooms|] == rooms;
  }

  method StartTable(w: Workload) returns (table: map<Id, Samples>)
    ensures AllSampleable([]) && SamplesOf([]) == NO_SAMPLES && TableOk(w, [], table)
  {
    table := map[];
    for i := 0 to |w.config.partitions|
      invariant forall id :: id in table <==> exists p :: p in w.config.partitions[..i] && p.id == id
      invariant forall id :: id in table ==> table[id] == NO_SAMPLES
    {
      assert w.config.partitions[..i + 1] == w.config.partitions[..i] + [w.config.partitions[i]];
      table := table[w.config.partitions[i].id := NO_SAMPLES];
    }
    assert w.config.partitions[..|w.config.partitions|] == w.config.partitions;
  }

  /** The report of one partition; its calibration fails only if it has rooms. */
  method ReportPartition(
    log: real -> real, ghost w: Workload, config: RunConfig, ghost rooms: seq<SimulatedRoom>, table: map<Id, Samples>,
    p: Partition)
    returns (r: Result<PartitionReport>)
    requires AllSampleable(rooms) && TableOk(w, rooms, table) && p in w.config.partitions
    ensures AllSampleable(Within(rooms, p.id))
    ensures r.Ok? <==> Calibrates(log, config, SamplesOf(Within(rooms, p.id)))
    ensures r.Ok? ==> PartitionOk(log, config, rooms, p, r.value)
  {
    hide SamplesOf, Within, AllSampleable, Calibration.Calibrated;
    var samples := table[p.id];
    if |samples.observations| == 0 {
      return Ok(PartitionReport(p, samples, None));
    }
    var calibrated := Calibration.EvaluateCalibration(log, samples.observations, config.binCount);
    if calibrated.Err? {
      return Err(calibrated.error);
    }
    r := Ok(PartitionReport(p, samples, Some(calibrated.value)));
  }

  method BuildReport(
      log: real -> real, w: Workload, config: RunConfig, rooms: seq<SimulatedRoom>) returns (r: Result<RunReport>)
    requires Located(w, rooms)
    ensures r.Ok? <==> Reportable(log, w, config, rooms)
    ensures r.Ok? ==> ReportOk(log, w, config, rooms, r.value)
  {
    hide SamplesOf, Within, Located, AllSampleable, PartitionOk, Calibrates, TableOk, LatestResolution;
    var ok, overall, table, resolvedAt := CollectSamples(w, rooms);
    if !ok {
      return Err(InvalidPrediction);
    }
    var partitions: seq<PartitionReport> := [];
    for i := 0 to |w.config.partitions|
      invariant |partitions| == i
      invariant forall j :: 0 <= j < i ==> PartitionOk(log, config, rooms, w.config.partitions[j], partitions[j])
      invariant forall j :: 0 <= j < i ==>
        && AllSampleable(Within(rooms, w.config.partitions[j].id))
        && Calibrates(log, config, SamplesOf(Within(rooms, w.config.partitions[j].id)))
    {
      var report := ReportPartition(log, w, config, rooms, table, w.config.partitions[i]);
      if report.Err? {
        return Err(report.error);
      }
      partitions := partitions + [report.value];
    }
    r := Ok(RunReport(overall, partitions, resolvedAt));
  }
}
