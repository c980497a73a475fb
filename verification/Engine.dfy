/**
 One load run (`run_pipeline` in rust/bench/src/engine.rs) as a state machine:
 funding calls and settlements answer in any order, and any save may fail.
 */
module Engine {
  import opened Common
  import opened RunJournal

  /** The most results that may wait for one journal write. */
  const CHECKPOINT_USERS: nat := 1024

  datatype Config = Config(users: nat, shardCount: nat, shardIndex: nat, noChain: bool, tolerant: bool)

  /** The user indices this process drives. */
  predicate InShard(c: Config, i: nat) {
    i < c.users && c.shardCount > 0 && i % c.shardCount == c.shardIndex
  }

  /** A user owed a sweep. `funded` is history: whether its funding call succeeded. */
  datatype Owed = Owed(index: nat, setup: Option<nat>, funded: bool)

  datatype Outcome =
    | Opened(setup: nat)
    | OpenFailed(ambiguous: Option<nat>)
    | FundingFailed

  /** Why the pipeline returned early. */
  datatype Stop = SaveFailed | StrictFailure | TooFew | SourceFailed | SweepFailed | MissingUser

  datatype Phase =
    | Starting | Announced | Collecting | Driving | Closing | Finished | Stopped(why: Stop)

  /**
   `mem` is the journal in memory and `file` what is saved. `asked` holds the
   users whose funding call was issued, `answered` those whose outcome arrived;
   `closed` and `empty` say what happened on chain, `broken` which settlements
   failed and `reported` whose settlement result arrived.
   */
  datatype Run = Run(
    phase: Phase,
    intents: bool,
    mem: Users,
    file: Saved,
    asked: set<nat>,
    answered: set<nat>,
    checkpoint: seq<Record>,
    cleanup: seq<Owed>,
    closed: set<nat>,
    empty: set<nat>,
    broken: set<nat>,
    reported: set<nat>,
    sweptCheckpoint: seq<nat>,
    failures: nat)

  datatype Action =
    | Announce(ok: bool)
    | SaveIntents(ok: bool)
    | Fund(i: nat)
    | Answer(i: nat, outcome: Outcome, ok1: bool, ok2: bool)
    | FinishProvisioning(enough: bool, ok1: bool, ok2: bool)
    | Drive(sourcesOk: bool, ok1: bool, ok2: bool, ok3: bool)
    | Close(k: nat, done: bool)
    | Reclaim(k: nat, done: bool)
    | Collect(k: nat, ok: bool)
    | FinishSettlement(ok1: bool, ok2: bool, ok3: bool)

  function Start(): Run {
    Run(Starting, false, map[], Saved(map[], Planning), {}, {}, [], [], {}, {}, {}, {}, [], 0)
  }

  function UserRecord(i: nat, setup: Option<nat>, funded: bool): Record {
    Record(i, setup, true, funded, false)
  }

  // ---- Journal calls -----------------------------------------------------

  /** Save `mem` and `status`; on failure the pipeline returns. */
  function Save(s: Run, status: Status, ok: bool): Run {
    if s.phase.Stopped? then s
    else if ok then s.(file := Saved(s.mem, status))
    else s.(phase := Stopped(SaveFailed))
  }

  function UpsertAndSave(s: Run, rs: seq<Record>, ok: bool): Run {
    if s.phase.Stopped? then s
    else Save(s.(mem := Upsert(s.mem, rs)), s.file.status, ok)
  }

  /** Write out the provisioning checkpoint unless it is empty. */
  function Flush(s: Run, ok: bool): Run {
    if s.phase.Stopped? || s.checkpoint == [] then s
    else UpsertAndSave(s, s.checkpoint, ok).(checkpoint := [])
  }

  function FlushSwept(s: Run, ok: bool): Run {
    if s.phase.Stopped? || s.sweptCheckpoint == [] then s
    else
      match Sweep(s.mem, s.sweptCheckpoint)
      case None => s.(phase := Stopped(MissingUser))
      case Some(mem) => Save(s.(mem := mem), s.file.status, ok).(sweptCheckpoint := [])
  }

  // ---- The steps ---------------------------------------------------------

  /** The intent records of the shard's users below `n`, in increasing order. */
  function Intents(c: Config, n: nat): seq<Record> {
    if n == 0 then []
    else if InShard(c, n - 1) then Intents(c, n - 1) + [UserRecord(n - 1, None, false)]
    else Intents(c, n - 1)
  }

  function StepAnswer(c: Config, s: Run, i: nat, outcome: Outcome, ok1: bool, ok2: bool): Run {
    var t := s.(answered := s.answered + {i});
    match outcome
    case Opened(setup) =>
      var owed := t.(cleanup := t.cleanup + [Owed(i, Some(setup), true)]);
      if c.noChain then owed
      else
        var pushed := owed.(checkpoint := owed.checkpoint + [UserRecord(i, Some(setup), true)]);
        if |pushed.checkpoint| == CHECKPOINT_USERS then Flush(pushed, ok1) else pushed
    case OpenFailed(setup) =>
      var flushed := Flush(t, ok1);
      var saved := if c.noChain then flushed else UpsertAndSave(flushed, [UserRecord(i, setup, true)], ok2);
      var owed := saved.(cleanup := saved.cleanup + [Owed(i, setup, true)]);
      if owed.phase.Stopped? || c.tolerant then owed else owed.(phase := Stopped(StrictFailure))
    case FundingFailed =>
      var flushed := Flush(t, ok1);
      var owed := flushed.(cleanup := flushed.cleanup + [Owed(i, None, false)]);
      if owed.phase.Stopped? || c.tolerant then owed else owed.(phase := Stopped(StrictFailure))
  }

  function StepFinishProvisioning(c: Config, s: Run, enough: bool, ok1: bool, ok2: bool): Run {
    var flushed := Flush(s, ok1);
    if flushed.phase.Stopped? then flushed
    else if c.tolerant && !enough then flushed.(phase := Stopped(TooFew))
    else
      var saved := Save(flushed, Provisioned, ok2);
      if saved.phase.Stopped? then saved else saved.(phase := Driving)
  }

  /** Prepare the sources, run the load, and begin settling. */
  function StepDrive(s: Run, sourcesOk: bool, ok1: bool, ok2: bool, ok3: bool): Run {
    if !sourcesOk then s.(phase := Stopped(SourceFailed))
    else
      var saved := Save(Save(Save(s, Prepared, ok1), Unleashing, ok2), Settling, ok3);
      if saved.phase.Stopped? then saved else saved.(phase := Closing)
  }

  function StepCollect(s: Run, i: nat, ok: bool): Run {
    var t := s.(reported := s.reported + {i});
    if i in s.empty then
      var pushed := t.(sweptCheckpoint := t.sweptCheckpoint + [i]);
      if |pushed.sweptCheckpoint| == CHECKPOINT_USERS then FlushSwept(pushed, ok) else pushed
    else t.(failures := t.failures + 1)
  }

  function StepFinishSettlement(s: Run, ok1: bool, ok2: bool, ok3: bool): Run {
    var flushed := FlushSwept(s, ok1);
    if flushed.phase.Stopped? then flushed
    else if flushed.failures > 0 then flushed.(phase := Stopped(SweepFailed))
    else
      var saved := Save(Save(flushed, Swept, ok2), Complete, ok3);
      if saved.phase.Stopped? then saved else saved.(phase := Finished)
  }

  predicate InSettlement(c: Config, s: Run, k: nat) {
    s.phase == Closing && !c.noChain && k < |s.cleanup| && s.cleanup[k].index !in s.broken
  }

  ghost function Step(c: Config, s: Run, a: Action): Run {
    match a
    case Announce(ok) =>
      if s.phase != Starting then s
      else
        var saved := Save(s, Provisioning, ok);
        if saved.phase.Stopped? then saved else saved.(phase := Announced)
    case SaveIntents(ok) =>
      if s.phase != Announced then s
      else
        var saved := if c.noChain then s
                     else UpsertAndSave(s, Intents(c, c.users), ok);
        if saved.phase.Stopped? then saved else saved.(phase := Collecting, intents := true)
    case Fund(i) =>
      if s.phase == Collecting && InShard(c, i) then s.(asked := s.asked + {i}) else s
    case Answer(i, outcome, ok1, ok2) =>
      if s.phase == Collecting && i in s.asked && i !in s.answered
      then StepAnswer(c, s, i, outcome, ok1, ok2) else s
    case FinishProvisioning(enough, ok1, ok2) =>
      if s.phase == Collecting && (forall i :: InShard(c, i) ==> i in s.answered)
      then StepFinishProvisioning(c, s, enough, ok1, ok2) else s
    case Drive(sourcesOk, ok1, ok2, ok3) =>
      if s.phase == Driving then StepDrive(s, sourcesOk, ok1, ok2, ok3) else s
    case Close(k, done) =>
      if InSettlement(c, s, k) && s.cleanup[k].setup.Some? && s.cleanup[k].index !in s.closed then
        if done then s.(closed := s.closed + {s.cleanup[k].index})
        else s.(broken := s.broken + {s.cleanup[k].index})
      else s
    case Reclaim(k, done) =>
      if InSettlement(c, s, k) && (s.cleanup[k].setup.Some? ==> s.cleanup[k].index in s.closed)
         && s.cleanup[k].index !in s.empty then
        if done then s.(empty := s.empty + {s.cleanup[k].index})
        else s.(broken := s.broken + {s.cleanup[k].index})
      else s
    case Collect(k, ok) =>
      if s.phase == Closing && !c.noChain && k < |s.cleanup| && s.cleanup[k].index !in s.reported
         && (s.cleanup[k].index in s.broken || s.cleanup[k].index in s.empty)
      then StepCollect(s, s.cleanup[k].index, ok) else s
    case FinishSettlement(ok1, ok2, ok3) =>
      if s.phase == Closing && (c.noChain || forall k :: 0 <= k < |s.cleanup| ==> s.cleanup[k].index in s.reported)
      then StepFinishSettlement(s, ok1, ok2, ok3) else s
  }

  ghost function After(c: Config, actions: seq<Action>): Run {
    if actions == [] then Start()
    else Step(c, After(c, actions[..|actions| - 1]), actions[|actions| - 1])
  }

  // ---- The provisioning loop over the journal ----------------------------

  datatype Arrival = Arrival(i: nat, outcome: Outcome, ok1: bool, ok2: bool)

  function Answers(c: Config, s: Run, arrivals: seq<Arrival>): Run {
    if arrivals == [] then s
    else
      var before := Answers(c, s, arrivals[..|arrivals| - 1]);
      var a := arrivals[|arrivals| - 1];
      if before.phase.Stopped? then before else StepAnswer(c, before, a.i, a.outcome, a.ok1, a.ok2)
  }

  /** The loop's locals and the journal stand for `s`. */
  ghost predicate Stands(j: Journal, checkpoint: seq<Record>, cleanup: seq<Owed>, phase: Phase, s: Run)
    reads j
  {
    && j.Valid() && j.View() == s.mem && j.file == s.file && j.status == s.file.status
    && checkpoint == s.checkpoint && cleanup == s.cleanup && phase == s.phase
  }

  method WriteOut(j: Journal, checkpoint: seq<Record>, ok: bool, ghost s: Run) returns (stopped: bool)
    requires Stands(j, checkpoint, s.cleanup, s.phase, s) && !s.phase.Stopped?
    modifies j
    ensures Stands(j, [], s.cleanup, if stopped then Stopped(SaveFailed) else s.phase, Flush(s, ok))
  {
    stopped := false;
    if checkpoint != [] {
      j.UpsertUsers(checkpoint, ok);
      stopped := !ok;
    }
  }

  method ReceiveOne(c: Config, j: Journal, checkpoint: seq<Record>, cleanup: seq<Owed>, a: Arrival, ghost s: Run)
    returns (checkpoint': seq<Record>, cleanup': seq<Owed>, phase: Phase)
    requires Stands(j, checkpoint, cleanup, Collecting, s)
    modifies j
    ensures Stands(j, checkpoint', cleanup', phase, StepAnswer(c, s, a.i, a.outcome, a.ok1, a.ok2))
  {
    checkpoint', cleanup', phase := checkpoint, cleanup, Collecting;
    ghost var t := s.(answered := s.answered + {a.i});
    match a.outcome {
      case Opened(setup) =>
        cleanup' := cleanup + [Owed(a.i, Some(setup), true)];
        if !c.noChain {
          checkpoint' := checkpoint + [UserRecord(a.i, Some(setup), true)];
          if |checkpoint'| == CHECKPOINT_USERS {
            var stopped := WriteOut(j, checkpoint', a.ok1, t.(cleanup := cleanup', checkpoint := checkpoint'));
            checkpoint' := [];
            phase := if stopped then Stopped(SaveFailed) else Collecting;
          }
        }
      case OpenFailed(setup) =>
        cleanup' := cleanup + [Owed(a.i, setup, true)];
        var stopped := WriteOut(j, checkpoint, a.ok1, t);
        checkpoint' := [];
        if !stopped && !c.noChain {
          j.UpsertUsers([UserRecord(a.i, setup, true)], a.ok2);
          stopped := !a.ok2;
        }
        phase := if stopped then Stopped(SaveFailed) else if c.tolerant then Collecting else Stopped(StrictFailure);
      case FundingFailed =>
        cleanup' := cleanup + [Owed(a.i, None, false)];
        var stopped := WriteOut(j, checkpoint, a.ok1, t);
        checkpoint' := [];
        phase := if stopped then Stopped(SaveFailed) else if c.tolerant then Collecting else Stopped(StrictFailure);
    }
  }

  /** Receives outcomes until they run out or the pipeline must return. */
  method Receive(c: Config, j: Journal, arrivals: seq<Arrival>, ghost s: Run)
    returns (checkpoint: seq<Record>, cleanup: seq<Owed>, phase: Phase)
    requires Stands(j, [], [], Collecting, s)
    modifies j
    ensures Stands(j, checkpoint, cleanup, phase, Answers(c, s, arrivals))
  {
    checkpoint, cleanup, phase := [], [], Collecting;
    assert arrivals[..0] == [];
    for n := 0 to |arrivals|
      invariant Stands(j, checkpoint, cleanup, phase, Answers(c, s, arrivals[..n]))
      invariant phase == Collecting || phase.Stopped?
    {
      assert arrivals[..n + 1][..n] == arrivals[..n];
      if phase == Collecting {
        checkpoint, cleanup, phase :=
          ReceiveOne(c, j, checkpoint, cleanup, arrivals[n], Answers(c, s, arrivals[..n]));
      }
    }
    assert arrivals[..|arrivals|] == arrivals;
  }
}
