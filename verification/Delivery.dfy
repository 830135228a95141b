/** Lifecycle, outbox and consumer in one run: what the consumer applies follows
    what the transactions decided. */
module Delivery {
  import opened Common
  import opened Outbox
  import OutboxRuns
  import opened Database
  import Lifecycle
  import LifecycleRuns
  import LifecycleLaws

  /** The tables of the lifecycle, and the outbox with everything downstream. */
  datatype Joint = Joint(db: Db, world: OutboxRuns.World)

  datatype JointStep =
    | Transact(command: Lifecycle.Step)
    | Transport(step: OutboxRuns.Step)

  function Emitted(db: Db, command: Lifecycle.Step): seq<Event> {
    var outbox := Lifecycle.Apply(db, command).outbox;
    if |db.outbox| <= |outbox| then outbox[|db.outbox|..] else []
  }

  /** Every event is available from the moment it occurred. */
  function Insert(rows: Table, events: seq<Event>): Table
    decreases |events|
  {
    if events == [] then rows
    else
      var e := events[0];
      Insert(rows[e.eventId := Row(e, e.occurredAt, 0, None, None, None, None)], events[1..])
  }

  /** A transaction inserts its events in the commit that writes its tables;
      everything else is left to the workers and the network. */
  ghost predicate Enabled(j: Joint, step: JointStep) {
    step.Transport? ==> !step.step.Append? && OutboxRuns.Enabled(j.world, step.step)
  }

  ghost function Apply(j: Joint, step: JointStep): Joint
    requires Enabled(j, step)
  {
    match step
    case Transact(command) =>
      Joint(Lifecycle.Apply(j.db, command), j.world.(rows := Insert(j.world.rows, Emitted(j.db, command))))
    case Transport(s) => j.(world := OutboxRuns.Apply(j.world, s))
  }

  ghost predicate CanRun(j: Joint, steps: seq<JointStep>)
    decreases |steps|
  {
    steps == [] || (Enabled(j, steps[0]) && CanRun(Apply(j, steps[0]), steps[1..]))
  }

  ghost function Run(j: Joint, steps: seq<JointStep>): Joint
    requires CanRun(j, steps)
    decreases |steps|
  {
    if steps == [] then j else Run(Apply(j, steps[0]), steps[1..])
  }

  function Start(configs: Lifecycle.Configs): Joint {
    Joint(Lifecycle.Empty(configs), OutboxRuns.START)
  }

  // ---------------------------------------------------------------------
  // Every joint run is a run of the outbox
  // ---------------------------------------------------------------------

  ghost predicate Reached(w: OutboxRuns.World) {
    exists trace :: OutboxRuns.CanRun(OutboxRuns.START, trace) && OutboxRuns.Run(OutboxRuns.START, trace) == w
  }

  ghost predicate Inv(j: Joint) {
    && Lifecycle.Inv(j.db)
    && LifecycleLaws.HoldsFirst(j.world.rows, j.db.outbox, |j.db.outbox|)
    && Reached(j.world)
  }

  lemma {:induction false} RunOneMore(w: OutboxRuns.World, trace: seq<OutboxRuns.Step>, last: OutboxRuns.Step)
    requires OutboxRuns.CanRun(w, trace) && OutboxRuns.Enabled(OutboxRuns.Run(w, trace), last)
    ensures OutboxRuns.CanRun(w, trace + [last])
    ensures OutboxRuns.Run(w, trace + [last]) == OutboxRuns.Apply(OutboxRuns.Run(w, trace), last)
    decreases |trace|
  {
    hide OutboxRuns.Enabled, OutboxRuns.Apply;
    if trace == [] {
      assert (trace + [last])[1..] == [];
    } else {
      assert (trace + [last])[1..] == trace[1..] + [last];
      RunOneMore(OutboxRuns.Apply(w, trace[0]), trace[1..], last);
    }
  }

  lemma ReachedOneMore(w: OutboxRuns.World, step: OutboxRuns.Step)
    requires Reached(w) && OutboxRuns.Enabled(w, step)
    ensures Reached(OutboxRuns.Apply(w, step))
  {
    hide OutboxRuns.Enabled, OutboxRuns.Apply, OutboxRuns.CanRun, OutboxRuns.Run;
    var trace :| OutboxRuns.CanRun(OutboxRuns.START, trace) && OutboxRuns.Run(OutboxRuns.START, trace) == w;
    RunOneMore(OutboxRuns.START, trace, step);
  }

  function Inserted(w: OutboxRuns.World, e: Event): OutboxRuns.World {
    w.(rows := w.rows[e.eventId := Row(e, e.occurredAt, 0, None, None, None, None)])
  }

  lemma HoldsOneMore(rows: Table, outbox: seq<Event>, k: nat)
    requires k < |outbox| && LifecycleLaws.HoldsFirst(rows, outbox, k) && outbox[k].eventId !in rows
    ensures LifecycleLaws.HoldsFirst(
      rows[outbox[k].eventId := Row(outbox[k], outbox[k].occurredAt, 0, None, None, None, None)], outbox, k + 1)
  {
    var e := outbox[k];
    var after := rows[e.eventId := Row(e, e.occurredAt, 0, None, None, None, None)];
    forall id | id in after
      ensures exists i :: 0 <= i < k + 1 && outbox[i] == after[id].event && outbox[i].eventId == id {
      if id == e.eventId {
        assert outbox[k] == after[id].event;
      } else {
        var i :| 0 <= i < k && outbox[i] == rows[id].event && outbox[i].eventId == id;
        assert outbox[i] == after[id].event;
      }
    }
  }

  lemma AppendIsInsert(w: OutboxRuns.World, e: Event)
    requires OutboxRuns.Enabled(w, OutboxRuns.Append(e, e.occurredAt))
    ensures OutboxRuns.Apply(w, OutboxRuns.Append(e, e.occurredAt)) == Inserted(w, e) && e.eventId !in w.rows
  {
  }

  /** Inserting what a transaction emitted is a sequence of enabled appends. */
  lemma {:induction false} InsertKeeps(db: Db, w: OutboxRuns.World, k: nat)
    requires Lifecycle.Inv(db) && k <= |db.outbox|
    requires LifecycleLaws.HoldsFirst(w.rows, db.outbox, k) && Reached(w)
    ensures var after := w.(rows := Insert(w.rows, db.outbox[k..]));
      LifecycleLaws.HoldsFirst(after.rows, db.outbox, |db.outbox|) && Reached(after)
    decreases |db.outbox| - k
  {
    hide Lifecycle.Inv, LifecycleLaws.HoldsFirst, Reached, OutboxRuns.Enabled, OutboxRuns.Apply;
    if k < |db.outbox| {
      var e := db.outbox[k];
      LifecycleLaws.NextAppendEnabled(db, w, k);
      ReachedOneMore(w, OutboxRuns.Append(e, e.occurredAt));
      AppendIsInsert(w, e);
      HoldsOneMore(w.rows, db.outbox, k);
      InsertKeeps(db, Inserted(w, e), k + 1);
      assert db.outbox[k..][0] == e && db.outbox[k..][1..] == db.outbox[k + 1..];
      assert Insert(w.rows, db.outbox[k..]) == Insert(Inserted(w, e).rows, db.outbox[k + 1..]);
    } else {
      assert db.outbox[k..] == [];
      assert w.(rows := w.rows) == w;
    }
  }

  lemma OutboxGrows(db: Db, command: Lifecycle.Step)
    ensures db.outbox <= Lifecycle.Apply(db, command).outbox
  {
    hide Lifecycle.Apply;
    LifecycleLaws.StepPersists(db, command);
  }

  lemma HoldsPrefix(rows: Table, before: seq<Event>, after: seq<Event>)
    requires LifecycleLaws.HoldsFirst(rows, before, |before|) && before <= after
    ensures LifecycleLaws.HoldsFirst(rows, after, |before|)
  {
    forall id | id in rows
      ensures exists i :: 0 <= i < |before| && after[i] == rows[id].event && after[i].eventId == id {
      var i :| 0 <= i < |before| && before[i] == rows[id].event && before[i].eventId == id;
      assert after[i] == before[i];
    }
  }

  lemma TransactKeepsInv(j: Joint, step: JointStep)
    requires Inv(j) && step.Transact?
    ensures Inv(Apply(j, step))
  {
    var after := Lifecycle.Apply(j.db, step.command);
    LifecycleRuns.StepKeepsInv(j.db, step.command);
    OutboxGrows(j.db, step.command);
    HoldsPrefix(j.world.rows, j.db.outbox, after.outbox);
    hide Lifecycle.Apply, Lifecycle.Inv, LifecycleLaws.HoldsFirst, Reached, Insert;
    InsertKeeps(after, j.world, |j.db.outbox|);
  }

  /** Whatever happens downstream leaves the stored events as they are. */
  lemma TransportKeepsEvents(w: OutboxRuns.World, step: OutboxRuns.Step)
    requires WellFormed(w.rows) && OutboxRuns.Enabled(w, step) && !step.Append?
    ensures var rows := OutboxRuns.Apply(w, step).rows;
      rows.Keys == w.rows.Keys && forall id :: id in rows ==> rows[id].event == w.rows[id].event
  {
    if step.Acknowledge? || step.Retry? || step.Bury? || step.Revive? {
      OutboxRuns.WritesEvolve(w, step);
    }
  }

  lemma HoldsSameEvents(before: Table, after: Table, outbox: seq<Event>)
    requires LifecycleLaws.HoldsFirst(before, outbox, |outbox|)
    requires after.Keys == before.Keys && forall id :: id in after ==> after[id].event == before[id].event
    ensures LifecycleLaws.HoldsFirst(after, outbox, |outbox|)
  {
  }

  lemma ReachedInv(w: OutboxRuns.World)
    requires Reached(w)
    ensures OutboxRuns.Inv(w)
  {
    hide OutboxRuns.CanRun, OutboxRuns.Run;
    var trace :| OutboxRuns.CanRun(OutboxRuns.START, trace) && OutboxRuns.Run(OutboxRuns.START, trace) == w;
    OutboxRuns.StartIsInv();
    hide OutboxRuns.Inv;
    OutboxRuns.RunKeepsInv(OutboxRuns.START, trace);
  }

  lemma TransportKeepsInv(j: Joint, step: JointStep)
    requires Inv(j) && step.Transport? && Enabled(j, step)
    ensures Inv(Apply(j, step))
  {
    hide Lifecycle.Inv, LifecycleLaws.HoldsFirst, Reached, OutboxRuns.Enabled, OutboxRuns.Apply;
    ReachedInv(j.world);
    TransportKeepsEvents(j.world, step.step);
    HoldsSameEvents(j.world.rows, OutboxRuns.Apply(j.world, step.step).rows, j.db.outbox);
    ReachedOneMore(j.world, step.step);
  }

  lemma {:induction false} RunKeepsInv(j: Joint, steps: seq<JointStep>)
    requires Inv(j) && CanRun(j, steps)
    ensures Inv(Run(j, steps))
    decreases |steps|
  {
    hide Inv, Enabled, Apply;
    if steps != [] {
      if steps[0].Transact? {
        TransactKeepsInv(j, steps[0]);
      } else {
        TransportKeepsInv(j, steps[0]);
      }
      RunKeepsInv(Apply(j, steps[0]), steps[1..]);
    }
  }

  lemma StartIsInv(configs: Lifecycle.Configs)
    requires Lifecycle.ConfigsValid(configs)
    ensures Inv(Start(configs))
  {
    hide Lifecycle.Inv, Lifecycle.ConfigsValid, Lifecycle.Empty;
    LifecycleRuns.EmptyIsInv(configs);
    NothingEmitted(configs);
    assert OutboxRuns.CanRun(OutboxRuns.START, []) && OutboxRuns.Run(OutboxRuns.START, []) == OutboxRuns.START;
  }

  lemma NothingEmitted(configs: Lifecycle.Configs)
    ensures Lifecycle.Empty(configs).outbox == []
  {
  }

  // ---------------------------------------------------------------------
  // One aggregate
  // ---------------------------------------------------------------------

  /** The events of one aggregate, in their order. */
  ghost function Of(events: seq<Event>, aggregate: Event): seq<Event> {
    if events == [] then []
    else
      var last := events[|events| - 1];
      Of(events[..|events| - 1], aggregate) + if last.SameAggregate(aggregate) then [last] else []
  }

  lemma {:induction false} OfMembers(events: seq<Event>, aggregate: Event, e: Event)
    ensures e in Of(events, aggregate) <==> e in events && e.SameAggregate(aggregate)
  {
    if events != [] {
      OfMembers(events[..|events| - 1], aggregate, e);
      assert events == events[..|events| - 1] + [events[|events| - 1]];
    }
  }

  ghost predicate VersionsGrow(events: seq<Event>, aggregate: Event) {
    forall i, j :: 0 <= i < j < |events| && events[i].SameAggregate(aggregate) && events[j].SameAggregate(aggregate) ==>
      events[i].version < events[j].version
  }

  ghost predicate Increasing(events: seq<Event>) {
    forall i, j :: 0 <= i < j < |events| ==> events[i].version < events[j].version
  }

  lemma {:induction false} OfIncreasing(events: seq<Event>, aggregate: Event)
    requires VersionsGrow(events, aggregate)
    ensures Increasing(Of(events, aggregate))
  {
    if events != [] {
      var before, last := events[..|events| - 1], events[|events| - 1];
      OfIncreasing(before, aggregate);
      if last.SameAggregate(aggregate) {
        var kept := Of(before, aggregate);
        forall i | 0 <= i < |kept| ensures kept[i].version < last.version {
          OfMembers(before, aggregate, kept[i]);
          var at :| 0 <= at < |before| && before[at] == kept[i];
          assert events[at] == kept[i];
        }
      }
    }
  }

  /** All of `part` is in `whole`, and nothing that comes before it is left out. */
  ghost predicate Closed(part: seq<Event>, whole: seq<Event>) {
    && (forall e :: e in part ==> e in whole)
    && (forall e, f :: e in whole && f in part && e.version < f.version ==> e in part)
  }

  ghost predicate Agree(part: seq<Event>, whole: seq<Event>, k: nat)
    requires k <= |part|
  {
    k <= |whole| && forall i :: 0 <= i < k ==> part[i] == whole[i]
  }

  lemma NotSkipped(part: seq<Event>, whole: seq<Event>, k: nat, m: nat)
    requires Increasing(part) && Increasing(whole)
    requires k < |part| && k < m < |whole| && whole[m] == part[k] && Agree(part, whole, k)
    ensures whole[k] in whole && part[k] in part && whole[k].version < part[k].version && whole[k] !in part
  {
    forall l | 0 <= l < |part| ensures part[l] != whole[k] {
      if l < k {
        assert part[l] == whole[l];
      }
    }
  }

  lemma NotRepeated(part: seq<Event>, whole: seq<Event>, k: nat, m: nat)
    requires Increasing(part) && k < |part| && Agree(part, whole, k) && m < k
    ensures whole[m] != part[k]
  {
    assert part[m].version < part[k].version;
  }

  lemma FoundIn(part: seq<Event>, whole: seq<Event>, k: nat) returns (m: nat)
    requires Closed(part, whole) && k < |part|
    ensures m < |whole| && whole[m] == part[k]
  {
    assert part[k] in part;
    m :| 0 <= m < |whole| && whole[m] == part[k];
  }

  lemma NothingBefore(part: seq<Event>, whole: seq<Event>, e: Event, f: Event)
    requires Closed(part, whole) && e in whole && f in part && e.version < f.version
    ensures e in part
  {
  }

  lemma NextAgrees(part: seq<Event>, whole: seq<Event>, k: nat)
    requires Increasing(part) && Increasing(whole) && Closed(part, whole)
    requires k < |part| && Agree(part, whole, k)
    ensures Agree(part, whole, k + 1)
  {
    hide Increasing, Closed;
    var m := FoundIn(part, whole, k);
    if m < k {
      NotRepeated(part, whole, k, m);
    } else if m > k {
      NotSkipped(part, whole, k, m);
      NothingBefore(part, whole, whole[k], part[k]);
    }
  }

  /** An increasing list that skips nothing is a prefix. */
  lemma {:induction false} ClosedIsPrefix(part: seq<Event>, whole: seq<Event>, k: nat)
    requires Increasing(part) && Increasing(whole) && Closed(part, whole) && k <= |part|
    ensures Agree(part, whole, k)
  {
    hide Increasing, Closed;
    if k > 0 {
      ClosedIsPrefix(part, whole, k - 1);
      hide Agree;
      NextAgrees(part, whole, k - 1);
    }
  }

  lemma AgreeIsPrefix(part: seq<Event>, whole: seq<Event>)
    requires Agree(part, whole, |part|)
    ensures part <= whole
  {
  }

  // ---------------------------------------------------------------------
  // The consumer follows the lifecycle
  // ---------------------------------------------------------------------

  lemma EmittedGrow(db: Db, aggregate: Event)
    requires Lifecycle.Inv(db)
    ensures VersionsGrow(db.outbox, aggregate)
    ensures forall i, j :: 0 <= i < j < |db.outbox| ==> db.outbox[i].eventId != db.outbox[j].eventId
  {
    hide Lifecycle.TicketsOk, Lifecycle.SeatedOk, Lifecycle.SessionsOk, Lifecycle.AssignmentsOk, Lifecycle.RoomsOk;
    hide Lifecycle.ResultsOk, Lifecycle.TerminalOk, Lifecycle.ShadowOk, Lifecycle.ConfigsValid, Lifecycle.PartitionOk;
    hide Lifecycle.CurrentVersion;
  }

  /** What the consumer has applied is stored, comes in the order of the versions,
      and has nothing before it that was not applied. */
  lemma AppliedIsClosed(w: OutboxRuns.World)
    requires OutboxRuns.Inv(w)
    ensures forall e :: e in w.consumer.log ==> e.eventId in w.rows && w.rows[e.eventId].event == e
    ensures forall i, j :: 0 <= i < j < |w.consumer.log| && w.consumer.log[i].SameAggregate(w.consumer.log[j]) ==>
      w.consumer.log[i].Precedes(w.consumer.log[j])
    ensures forall p, e :: p in w.rows && e in w.consumer.log && w.rows[p].event.Precedes(e) ==>
      w.rows[p].event in w.consumer.log
    ensures forall p :: p in w.rows && w.rows[p].deliveredAt.Some? ==> w.rows[p].event in w.consumer.log
  {
    forall e | e in w.consumer.log ensures OutboxRuns.HandedOut(w.rows, e) {
      assert w.consumer.byId[e.eventId] == e;
    }
    forall p | OutboxRuns.IsDelivered(w.rows, p) ensures w.rows[p].event in w.consumer.log {
      assert OutboxRuns.HandedOut(w.rows, w.consumer.byId[p]);
    }
  }

  lemma LogFromOutbox(j: Joint, e: Event)
    requires Inv(j) && OutboxRuns.Inv(j.world) && e in j.world.consumer.log
    ensures e in j.db.outbox
  {
    hide Lifecycle.Inv, Reached;
    AppliedIsClosed(j.world);
    hide OutboxRuns.Inv;
    var i :| 0 <= i < |j.db.outbox| && j.db.outbox[i] == e;
  }

  lemma PrecedingIsSmaller(outbox: seq<Event>, aggregate: Event, a: Event, b: Event)
    requires VersionsGrow(outbox, aggregate) && a in outbox && b in outbox && a.Precedes(b)
      && b.SameAggregate(aggregate)
    ensures a.version < b.version
  {
    var p :| 0 <= p < |outbox| && outbox[p] == a;
    var q :| 0 <= q < |outbox| && outbox[q] == b;
    assert a.SameAggregate(aggregate) && p != q;
  }

  lemma LogVersionsGrow(j: Joint, aggregate: Event)
    requires Inv(j) && OutboxRuns.Inv(j.world)
    ensures VersionsGrow(j.world.consumer.log, aggregate)
  {
    AppliedIsClosed(j.world);
    EmittedGrow(j.db, aggregate);
    hide Lifecycle.Inv, Reached, OutboxRuns.Inv, LifecycleLaws.HoldsFirst;
    var log := j.world.consumer.log;
    forall a, b | 0 <= a < b < |log| && log[a].SameAggregate(aggregate) && log[b].SameAggregate(aggregate)
      ensures log[a].version < log[b].version
    {
      assert log[a].Precedes(log[b]);
      LogFromOutbox(j, log[a]);
      LogFromOutbox(j, log[b]);
      PrecedingIsSmaller(j.db.outbox, aggregate, log[a], log[b]);
    }
  }

  lemma LogSkipsNothing(j: Joint, aggregate: Event, e: Event, f: Event)
    requires Inv(j) && OutboxRuns.Inv(j.world)
    requires e in j.db.outbox && e.SameAggregate(aggregate)
    requires f in j.world.consumer.log && f.SameAggregate(aggregate) && e.version < f.version
    ensures e in j.world.consumer.log
  {
    hide Lifecycle.Inv, Reached;
    AppliedIsClosed(j.world);
    hide OutboxRuns.Inv;
    var i :| 0 <= i < |j.db.outbox| && j.db.outbox[i] == e;
    assert e.Precedes(f);
  }

  ghost predicate AllDelivered(rows: Table, aggregate: Event) {
    forall id :: id in rows && rows[id].event.SameAggregate(aggregate) ==> rows[id].deliveredAt.Some?
  }

  /** In every run of transactions, workers, lost replies and repeated deliveries,
      and for every ticket and every room, what the consumer has applied is a
      prefix of what the transactions emitted: nothing invented, repeated, skipped
      or reordered. Once all of its events are delivered, it is all of them. */
  lemma ConsumerFollowsLifecycle(configs: Lifecycle.Configs, steps: seq<JointStep>, aggregate: Event)
    requires Lifecycle.ConfigsValid(configs) && CanRun(Start(configs), steps)
    ensures var j := Run(Start(configs), steps);
      Of(j.world.consumer.log, aggregate) <= Of(j.db.outbox, aggregate)
    ensures var j := Run(Start(configs), steps);
      AllDelivered(j.world.rows, aggregate) ==> Of(j.world.consumer.log, aggregate) == Of(j.db.outbox, aggregate)
  {
    StartIsInv(configs);
    hide Lifecycle.ConfigsValid, Start;
    RunKeepsInv(Start(configs), steps);
    hide *;
    FollowsFromInv(Run(Start(configs), steps), aggregate);
  }

  lemma AppliedClosed(j: Joint, aggregate: Event)
    requires Inv(j) && OutboxRuns.Inv(j.world)
    ensures Closed(Of(j.world.consumer.log, aggregate), Of(j.db.outbox, aggregate))
  {
    hide Inv, OutboxRuns.Inv, Of;
    var part, whole := Of(j.world.consumer.log, aggregate), Of(j.db.outbox, aggregate);
    forall e | e in part ensures e in whole {
      OfMembers(j.world.consumer.log, aggregate, e);
      LogFromOutbox(j, e);
      OfMembers(j.db.outbox, aggregate, e);
    }
    forall e, f | e in whole && f in part && e.version < f.version ensures e in part {
      OfMembers(j.db.outbox, aggregate, e);
      OfMembers(j.world.consumer.log, aggregate, f);
      LogSkipsNothing(j, aggregate, e, f);
      OfMembers(j.world.consumer.log, aggregate, e);
    }
  }

  lemma FollowsFromInv(j: Joint, aggregate: Event)
    requires Inv(j)
    ensures Of(j.world.consumer.log, aggregate) <= Of(j.db.outbox, aggregate)
    ensures AllDelivered(j.world.rows, aggregate) ==>
      Of(j.world.consumer.log, aggregate) == Of(j.db.outbox, aggregate)
  {
    InvParts(j);
    EmittedGrow(j.db, aggregate);
    LogVersionsGrow(j, aggregate);
    hide *;
    var part, whole := Of(j.world.consumer.log, aggregate), Of(j.db.outbox, aggregate);
    OfIncreasing(j.world.consumer.log, aggregate);
    OfIncreasing(j.db.outbox, aggregate);
    AppliedClosed(j, aggregate);
    ClosedIsPrefix(part, whole, |part|);
    AgreeIsPrefix(part, whole);
    if AllDelivered(j.world.rows, aggregate) {
      WholeIsApplied(j, aggregate);
      WholePrefix(part, whole);
    }
  }

  lemma WholeIsApplied(j: Joint, aggregate: Event)
    requires Inv(j) && OutboxRuns.Inv(j.world) && AllDelivered(j.world.rows, aggregate)
    ensures forall e :: e in Of(j.db.outbox, aggregate) ==> e in Of(j.world.consumer.log, aggregate)
  {
    hide Inv, OutboxRuns.Inv, Of;
    forall e | e in Of(j.db.outbox, aggregate) ensures e in Of(j.world.consumer.log, aggregate) {
      OfMembers(j.db.outbox, aggregate, e);
      DeliveredIsApplied(j, e);
      OfMembers(j.world.consumer.log, aggregate, e);
    }
  }

  lemma InvParts(j: Joint)
    requires Inv(j)
    ensures Lifecycle.Inv(j.db) && OutboxRuns.Inv(j.world)
  {
    hide Lifecycle.Inv, OutboxRuns.Inv, Reached;
    ReachedInv(j.world);
  }

  lemma DeliveredIsApplied(j: Joint, e: Event)
    requires Inv(j) && OutboxRuns.Inv(j.world) && e in j.db.outbox
    ensures e.eventId in j.world.rows && j.world.rows[e.eventId].event == e
    ensures j.world.rows[e.eventId].deliveredAt.Some? ==> e in j.world.consumer.log
  {
    hide Lifecycle.Inv, Reached;
    AppliedIsClosed(j.world);
    hide OutboxRuns.Inv;
    var i :| 0 <= i < |j.db.outbox| && j.db.outbox[i] == e;
  }

  lemma NotYetApplied(part: seq<Event>, whole: seq<Event>)
    requires part <= whole && Increasing(whole) && |part| < |whole|
    ensures exists e :: e in whole && e !in part
  {
    var e := whole[|part|];
    assert e in whole;
    forall i | 0 <= i < |part| ensures part[i] != e {
      assert whole[i].version < whole[|part|].version;
    }
  }

  lemma WholePrefix(part: seq<Event>, whole: seq<Event>)
    requires part <= whole && Increasing(whole) && forall e :: e in whole ==> e in part
    ensures part == whole
  {
    if |part| < |whole| {
      NotYetApplied(part, whole);
      assert false;
    }
  }
}
