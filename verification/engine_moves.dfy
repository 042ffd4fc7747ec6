/** Single events on a world, and runs taken one event at a time. */
module EngineMoves {
  import opened Model
  import opened Commands
  import opened Engine
  import Intake

  // ------------------------------------------------------------------ runs

  lemma RunThen(h: Hashing, w: World, events: seq<Event>, e: Event)
    ensures Run(h, w, events + [e]) == Step(h, Run(h, w, events), e)
  {
    hide Step;
    assert (events + [e])[..|events|] == events;
  }

  /** The first event of a run can be taken first. */
  lemma {:induction false} RunFrom(h: Hashing, w: World, e: Event, rest: seq<Event>)
    ensures Run(h, w, [e] + rest) == Run(h, Step(h, w, e), rest)
  {
    hide Step;
    if rest == [] {
      assert [e] + rest == [e] && [e][..0] == [];
      assert Run(h, w, [e]) == Step(h, Run(h, w, []), e);
    } else {
      RunFrom(h, w, e, rest[..|rest| - 1]);
      assert ([e] + rest)[..|rest|] == [e] + rest[..|rest| - 1];
    }
  }

  lemma {:induction false} RunConcat(h: Hashing, w: World, a: seq<Event>, b: seq<Event>)
    ensures Run(h, w, a + b) == Run(h, Run(h, w, a), b)
  {
    hide Step;
    if b == [] {
      assert a + b == a;
    } else {
      RunConcat(h, w, a, b[..|b| - 1]);
      assert (a + b)[..|a + b| - 1] == a + b[..|b| - 1];
    }
  }

  lemma TwoSteps(h: Hashing, w: World, e: Event)
    ensures Run(h, w, [e] + [e]) == Step(h, Step(h, w, e), e)
  {
    hide Step;
    RunFrom(h, w, e, [e]);
    RunThen(h, Step(h, w, e), [], e);
    assert [] + [e] == [e];
  }

  lemma ThreeSteps(h: Hashing, w: World, e: Event)
    ensures Run(h, w, [e] + ([e] + [e])) == Step(h, Step(h, Step(h, w, e), e), e)
  {
    hide Step;
    RunFrom(h, w, e, [e] + [e]);
    TwoSteps(h, Step(h, w, e), e);
  }

  // ------------------------------------------------------------------ one event

  /** A statement inside a transaction changes the process alone. */
  lemma MoveInside(h: Hashing, w: World, pid: nat, ids: Ids, intakeIds: Intake.IntakeIds, token: Option<string>,
                   q: Process)
    requires pid in w.processes && !w.processes[pid].pc.Delivering? && EntryOf(h, w.processes[pid]).None?
    requires q == StepProcess(h, w.db, Taken(w, pid), w.processes[pid], ids, intakeIds, token)
    ensures Step(h, w, Advance(pid, ids, intakeIds, token)) == w.(processes := w.processes[pid := q])
  {
    hide StepProcess, EntryOf, EffectsOf, Apply;
  }

  /** The end of a transaction makes its writes visible and leaves the reply to deliver. */
  lemma MoveEnd(h: Hashing, w: World, pid: nat, ids: Ids, intakeIds: Intake.IntakeIds, token: Option<string>,
                entry: Entry)
    requires pid in w.processes && !w.processes[pid].pc.Delivering? && EntryOf(h, w.processes[pid]) == Some(entry)
    ensures Step(h, w, Advance(pid, ids, intakeIds, token)) ==
              w.(db := Apply(w.db, EffectsOf(h, w.processes[pid])), log := w.log + [entry],
                 processes := w.processes[pid := Ended(w.processes[pid], |w.log|)])
  {
    hide StepProcess, EntryOf, EffectsOf, Apply;
  }

  lemma MoveDeliver(h: Hashing, w: World, pid: nat, ids: Ids, intakeIds: Intake.IntakeIds, token: Option<string>)
    requires pid in w.processes && w.processes[pid].pc.Delivering?
    ensures Step(h, w, Advance(pid, ids, intakeIds, token)) ==
              w.(processes := w.processes - {pid}, received := w.received + [w.processes[pid].pc.position])
  {
    hide StepProcess, EntryOf, EffectsOf, Apply;
  }

  /** Ending and delivering together: the call is gone, its outcome logged and received. */
  lemma MoveEndAndDeliver(h: Hashing, w: World, pid: nat, ids: Ids, intakeIds: Intake.IntakeIds,
                          token: Option<string>, entry: Entry)
    requires pid in w.processes && !w.processes[pid].pc.Delivering? && EntryOf(h, w.processes[pid]) == Some(entry)
    ensures
      var go := Advance(pid, ids, intakeIds, token);
      Step(h, Step(h, w, go), go) ==
        World(Apply(w.db, EffectsOf(h, w.processes[pid])), w.processes - {pid}, w.log + [entry], w.received + [|w.log|])
  {
    hide Step, EntryOf, EffectsOf, Apply;
    MoveEnd(h, w, pid, ids, intakeIds, token, entry);
    var ended := w.(db := Apply(w.db, EffectsOf(h, w.processes[pid])), log := w.log + [entry],
                    processes := w.processes[pid := Ended(w.processes[pid], |w.log|)]);
    MoveDeliver(h, ended, pid, ids, intakeIds, token);
    assert ended.processes - {pid} == w.processes - {pid};
  }

  lemma MoveBegin(h: Hashing, w: World, pid: nat, call: Call, now: Time)
    requires pid !in w.processes
    ensures Step(h, w, Begin(pid, call, now)) == w.(processes := w.processes[pid := Process(call, now, {}, Opened)])
    ensures w.processes[pid := Process(call, now, {}, Opened)] - {pid} == w.processes
  {
  }

  // ------------------------------------------------------------------ what the others hold

  lemma TakenByOthers(w: World, v: World, pid: nat)
    requires v.processes - {pid} == w.processes - {pid}
    ensures Taken(v, pid) == Taken(w, pid)
  {
    forall q | q != pid
      ensures q in w.processes <==> q in v.processes
      ensures q in w.processes ==> w.processes[q] == v.processes[q]
    {
      assert q in w.processes <==> q in w.processes - {pid};
      assert q in v.processes <==> q in v.processes - {pid};
    }
  }

  lemma ApplyNothing(db: Db)
    ensures Apply(db, NoEffects) == db
  {
  }

  // ------------------------------------------------------------------ one or two open calls

  function Alone(db: Db, log: seq<Entry>, received: seq<nat>, p: Process): World {
    World(db, map[0 := p], log, received)
  }

  lemma StepAlone(h: Hashing, db: Db, log: seq<Entry>, received: seq<nat>, p: Process, ids: Ids,
                  intakeIds: Intake.IntakeIds, token: Option<string>)
    requires !p.pc.Delivering?
    ensures Step(h, Alone(db, log, received, p), Advance(0, ids, intakeIds, token)) ==
              if EntryOf(h, p).Some? then
                Alone(Apply(db, EffectsOf(h, p)), log + [EntryOf(h, p).value], received, Ended(p, |log|))
              else Alone(db, log, received, StepProcess(h, db, {}, p, ids, intakeIds, token))
  {
    hide StepProcess, EntryOf, EffectsOf, Apply;
    assert Taken(Alone(db, log, received, p), 0) == {};
  }

  function Pair(db: Db, log: seq<Entry>, p: Process, q: Process): World {
    World(db, map[0 := p, 1 := q], log, [])
  }

  /** A statement of the second of two calls, against the locks of the first. */
  lemma StepSecond(h: Hashing, db: Db, log: seq<Entry>, p: Process, q: Process, ids: Ids,
                   intakeIds: Intake.IntakeIds, token: Option<string>)
    requires !q.pc.Delivering?
    ensures Step(h, Pair(db, log, p, q), Advance(1, ids, intakeIds, token)) ==
              if EntryOf(h, q).Some? then
                Pair(Apply(db, EffectsOf(h, q)), log + [EntryOf(h, q).value], p, Ended(q, |log|))
              else Pair(db, log, p, StepProcess(h, db, p.held, q, ids, intakeIds, token))
  {
    hide StepProcess, EntryOf, EffectsOf, Apply;
    var w := Pair(db, log, p, q);
    forall r | r in p.held ensures r in Taken(w, 1) {
      assert 0 in w.processes && r in w.processes[0].held;
    }
    assert Taken(w, 1) == p.held;
  }
}
