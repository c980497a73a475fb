/** What every run of the load pipeline keeps, whatever order results arrive in and whichever save fails. */
module EngineSafety {
  import opened Common
  import opened RunJournal
  import opened Engine

  predicate Owes(owed: seq<Owed>, i: nat) {
    exists k :: 0 <= k < |owed| && owed[k].index == i
  }

  predicate DistinctOwed(owed: seq<Owed>) {
    forall i, j :: 0 <= i < j < |owed| ==> owed[i].index != owed[j].index
  }

  ghost predicate AllIn(c: Config, answered: set<nat>) {
    forall i: nat :: InShard(c, i) ==> i in answered
  }

  /** The cleanup list holds each answered user exactly once. */
  ghost predicate OwedOk(answered: set<nat>, owed: seq<Owed>) {
    && (forall k :: 0 <= k < |owed| ==> owed[k].index in answered)
    && (forall i :: i in answered ==> Owes(owed, i))
    && DistinctOwed(owed)
  }

  /** No funding call precedes the saved intents; each answer follows its call. */
  ghost predicate AskedOk(c: Config, phase: Phase, intents: bool, asked: set<nat>, answered: set<nat>) {
    && (forall i :: i in asked ==> InShard(c, i) && intents)
    && answered <= asked
    && (phase == Starting || phase == Announced ==> !intents)
    && (phase in {Collecting, Driving, Closing, Finished} ==> intents)
    && (phase in {Driving, Closing, Finished} ==> AllIn(c, answered))
  }

  ghost predicate IntentsOk(c: Config, users: Users) {
    forall i: nat :: InShard(c, i) ==> i in users && users[i].index == i && users[i].fundingStarted
  }

  /** The saved file is the journal in memory unless a save has failed. */
  ghost predicate FileOk(c: Config, phase: Phase, intents: bool, mem: Users, users: Users, checkpoint: seq<Record>) {
    && phase != Stopped(MissingUser)
    && (phase != Stopped(SaveFailed) ==> mem == users)
    && (c.noChain ==> mem == map[] && users == map[] && checkpoint == [])
    && (!c.noChain && intents ==> IntentsOk(c, users))
  }

  function Expected(o: Owed): Record {
    UserRecord(o.index, o.setup, o.funded)
  }

  /** A received result is saved, or waits in the checkpoint. */
  predicate Kept(users: Users, checkpoint: seq<Record>, o: Owed) {
    || Expected(o) in checkpoint
    || (o.index in users && users[o.index].(swept := false) == Expected(o))
  }

  predicate AllKept(users: Users, checkpoint: seq<Record>, owed: seq<Owed>) {
    forall k :: 0 <= k < |owed| ==> Kept(users, checkpoint, owed[k])
  }

  predicate Waiting(r: Record, owed: seq<Owed>) {
    exists k :: 0 <= k < |owed| && Expected(owed[k]) == r
  }

  predicate CheckpointOk(phase: Phase, answered: set<nat>, checkpoint: seq<Record>, owed: seq<Owed>) {
    && |checkpoint| < CHECKPOINT_USERS
    && DistinctIndices(checkpoint)
    && (forall k :: 0 <= k < |checkpoint| ==> checkpoint[k].index in answered && !checkpoint[k].swept
                                              && checkpoint[k].fundingStarted && Waiting(checkpoint[k], owed))
    && (phase != Collecting ==> checkpoint == [])
  }

  /** A user not yet answered still has its intent record. */
  ghost predicate UnansweredOk(c: Config, users: Users, answered: set<nat>) {
    forall i: nat :: InShard(c, i) && i !in answered ==> i in users && users[i] == UserRecord(i, None, false)
  }

  ghost predicate ResultsOk(c: Config, phase: Phase, intents: bool, users: Users,
                            answered: set<nat>, checkpoint: seq<Record>, owed: seq<Owed>) {
    && (phase != Stopped(SaveFailed) && !c.noChain ==> AllKept(users, checkpoint, owed))
    && (!c.noChain && intents ==> UnansweredOk(c, users, answered))
  }

  /** A user is marked only when its wallet is empty, and emptied only after its channel closed. */
  predicate MarksOk(users: Users, mem: Users, empty: set<nat>) {
    && (forall i :: i in users && users[i].swept ==> i in empty)
    && (forall i :: i in mem && mem[i].swept ==> i in empty)
  }

  ghost predicate ChainOk(answered: set<nat>, owed: seq<Owed>, closed: set<nat>, empty: set<nat>) {
    && (forall k :: 0 <= k < |owed| && owed[k].index in empty && owed[k].setup.Some? ==> owed[k].index in closed)
    && empty <= answered
  }

  predicate Noted(users: Users, swept: seq<nat>, i: nat) {
    i in swept || (i in users && users[i].swept)
  }

  ghost predicate ReportsOk(phase: Phase, users: Users, empty: set<nat>, broken: set<nat>, reported: set<nat>,
                            swept: seq<nat>, failures: nat) {
    && |swept| < CHECKPOINT_USERS
    && (forall k :: 0 <= k < |swept| ==> swept[k] in empty)
    && (forall i :: i in reported && i !in empty ==> i in broken && failures > 0)
    && (phase != Stopped(SaveFailed) ==> forall i :: i in reported && i in empty ==> Noted(users, swept, i))
  }

  predicate QuietOk(c: Config, phase: Phase, empty: set<nat>, reported: set<nat>, swept: seq<nat>) {
    c.noChain || phase in {Starting, Announced, Collecting, Driving, Stopped(StrictFailure)} ==>
      reported == {} && empty == {} && swept == []
  }

  ghost predicate AllSwept(c: Config, users: Users) {
    forall i: nat :: InShard(c, i) ==> i in users && users[i].swept
  }

  ghost predicate CompleteOk(c: Config, phase: Phase, file: Saved) {
    file.status == Complete ==> phase == Finished && (c.noChain || AllSwept(c, file.users))
  }

  ghost predicate Provisions(c: Config, s: Run) {
    && OwedOk(s.answered, s.cleanup)
    && AskedOk(c, s.phase, s.intents, s.asked, s.answered)
    && FileOk(c, s.phase, s.intents, s.mem, s.file.users, s.checkpoint)
    && CheckpointOk(s.phase, s.answered, s.checkpoint, s.cleanup)
    && ResultsOk(c, s.phase, s.intents, s.file.users, s.answered, s.checkpoint, s.cleanup)
  }

  ghost predicate Settles(c: Config, s: Run) {
    && MarksOk(s.file.users, s.mem, s.empty)
    && ChainOk(s.answered, s.cleanup, s.closed, s.empty)
    && ReportsOk(s.phase, s.file.users, s.empty, s.broken, s.reported, s.sweptCheckpoint, s.failures)
    && QuietOk(c, s.phase, s.empty, s.reported, s.sweptCheckpoint)
    && CompleteOk(c, s.phase, s.file)
  }

  ghost predicate Inv(c: Config, s: Run) {
    Provisions(c, s) && Settles(c, s)
  }

  lemma InitInv(c: Config)
    ensures Inv(c, Start())
  {
  }

  // ---- Intents and funding -----------------------------------------------

  lemma {:induction false} IntentsAre(c: Config, n: nat)
    ensures DistinctIndices(Intents(c, n))
    ensures forall k :: 0 <= k < |Intents(c, n)| ==>
              Intents(c, n)[k].index < n && !Intents(c, n)[k].swept
    ensures forall i: nat :: InShard(c, i) && i < n ==> UserRecord(i, None, false) in Intents(c, n)
  {
    if n > 0 {
      IntentsAre(c, n - 1);
    }
  }

  lemma IntentsSaved(c: Config, m: Users, i: nat)
    requires InShard(c, i)
    ensures var u := Upsert(m, Intents(c, c.users)); i in u && u[i] == UserRecord(i, None, false)
  {
    var rs := Intents(c, c.users);
    IntentsAre(c, c.users);
    var k :| 0 <= k < |rs| && rs[k] == UserRecord(i, None, false);
    UpsertStores(m, rs, k);
  }

  lemma {:induction false} UpsertFrom(m: Users, rs: seq<Record>, i: nat)
    requires i in Upsert(m, rs)
    ensures (i in m && Upsert(m, rs)[i] == m[i]) || Upsert(m, rs)[i] in rs
  {
    if rs != [] && rs[|rs| - 1].index != i { UpsertFrom(m, rs[..|rs| - 1], i); }
  }

  /** Records without a mark mark nobody. */
  lemma UpsertMarks(m: Users, rs: seq<Record>, empty: set<nat>)
    requires forall i :: i in m && m[i].swept ==> i in empty
    requires forall k :: 0 <= k < |rs| ==> !rs[k].swept
    ensures var u := Upsert(m, rs); forall i :: i in u && u[i].swept ==> i in empty
  {
    var u := Upsert(m, rs);
    forall i | i in u && u[i].swept ensures i in empty {
      UpsertFrom(m, rs, i);
    }
  }

  lemma KeepAnnounce(c: Config, s: Run, ok: bool)
    requires Inv(c, s)
    ensures Inv(c, Step(c, s, Announce(ok)))
  {
  }

  lemma KeepSaveIntents(c: Config, s: Run, ok: bool)
    requires Inv(c, s) && s.phase == Announced && !c.noChain
    ensures Inv(c, Step(c, s, SaveIntents(ok)))
  {
    var u := Upsert(s.mem, Intents(c, c.users));
    IntentsAre(c, c.users);
    UpsertMarks(s.mem, Intents(c, c.users), s.empty);
    forall i: nat | InShard(c, i) ensures i in u && u[i] == UserRecord(i, None, false) {
      IntentsSaved(c, s.mem, i);
    }
  }

  lemma KeepFund(c: Config, s: Run, i: nat)
    requires Inv(c, s)
    ensures Inv(c, Step(c, s, Fund(i)))
  {
  }

  // ---- Answers -----------------------------------------------------------

  lemma OwedPush(answered: set<nat>, owed: seq<Owed>, o: Owed)
    requires OwedOk(answered, owed) && o.index !in answered
    ensures OwedOk(answered + {o.index}, owed + [o])
  {
    forall i | i in answered + {o.index} ensures Owes(owed + [o], i) {
      if i == o.index {
        assert (owed + [o])[|owed|].index == i;
      } else {
        var k :| 0 <= k < |owed| && owed[k].index == i;
        assert (owed + [o])[k].index == i;
      }
    }
  }

  /** Writing the checkpoint out leaves every received result in the file. */
  lemma FlushedKept(users: Users, checkpoint: seq<Record>, owed: seq<Owed>)
    requires DistinctIndices(checkpoint) && DistinctOwed(owed) && AllKept(users, checkpoint, owed)
    requires forall k :: 0 <= k < |checkpoint| ==> Waiting(checkpoint[k], owed)
    ensures AllKept(Upsert(users, checkpoint), [], owed)
  {
    var u := Upsert(users, checkpoint);
    forall k | 0 <= k < |owed| ensures Kept(u, [], owed[k]) {
      var o := owed[k];
      if Mentions(checkpoint, o.index) {
        var j :| 0 <= j < |checkpoint| && checkpoint[j].index == o.index;
        assert Waiting(checkpoint[j], owed);
        var m :| 0 <= m < |owed| && Expected(owed[m]) == checkpoint[j];
        assert m == k;
        UpsertStores(users, checkpoint, j);
      } else {
        assert Kept(users, checkpoint, o);
        UpsertKeeps(users, checkpoint, o.index);
      }
    }
  }

  lemma WaitingPush(checkpoint: seq<Record>, owed: seq<Owed>, o: Owed)
    requires forall k :: 0 <= k < |checkpoint| ==> Waiting(checkpoint[k], owed)
    ensures forall k :: 0 <= k < |checkpoint| ==> Waiting(checkpoint[k], owed + [o])
  {
    forall k | 0 <= k < |checkpoint| ensures Waiting(checkpoint[k], owed + [o]) {
      var j :| 0 <= j < |owed| && Expected(owed[j]) == checkpoint[k];
      assert Expected((owed + [o])[j]) == checkpoint[k];
    }
  }

  lemma FlushedRest(c: Config, users: Users, checkpoint: seq<Record>, answered: set<nat>)
    requires IntentsOk(c, users) && UnansweredOk(c, users, answered) && DistinctIndices(checkpoint)
    requires forall k :: 0 <= k < |checkpoint| ==> checkpoint[k].index in answered && checkpoint[k].fundingStarted
    ensures IntentsOk(c, Upsert(users, checkpoint)) && UnansweredOk(c, Upsert(users, checkpoint), answered)
  {
    var u := Upsert(users, checkpoint);
    forall i: nat | InShard(c, i)
      ensures i in u && u[i].index == i && u[i].fundingStarted
      ensures i !in answered ==> u[i] == UserRecord(i, None, false)
    {
      if Mentions(checkpoint, i) {
        var j :| 0 <= j < |checkpoint| && checkpoint[j].index == i;
        UpsertStores(users, checkpoint, j);
      } else {
        UpsertKeeps(users, checkpoint, i);
      }
    }
  }

  /** Saving one more result over a fully saved state. */
  lemma ResultSaved(c: Config, users: Users, answered: set<nat>, owed: seq<Owed>, o: Owed)
    requires IntentsOk(c, users) && UnansweredOk(c, users, answered)
    requires AllKept(users, [], owed) && OwedOk(answered, owed) && o.index !in answered
    ensures var v := users[o.index := Expected(o)];
            && IntentsOk(c, v) && UnansweredOk(c, v, answered + {o.index})
            && AllKept(v, [], owed + [o])
  {
    var v := users[o.index := Expected(o)];
    forall k | 0 <= k <= |owed| ensures Kept(v, [], (owed + [o])[k]) {
      if k < |owed| {
        assert Kept(users, [], owed[k]) && owed[k].index in answered;
      }
    }
  }

  lemma AnsweredBooks(c: Config, s: Run, o: Owed)
    requires Inv(c, s) && s.phase == Collecting && o.index in s.asked && o.index !in s.answered
    ensures OwedOk(s.answered + {o.index}, s.cleanup + [o])
    ensures ChainOk(s.answered + {o.index}, s.cleanup + [o], s.closed, s.empty)
    ensures forall p :: p == Collecting || p.Stopped? ==> AskedOk(c, p, s.intents, s.asked, s.answered + {o.index})
  {
    OwedPush(s.answered, s.cleanup, o);
  }

  /** A result that only joins the checkpoint. */
  lemma KeepQueued(c: Config, s: Run, o: Owed)
    requires Inv(c, s) && s.phase == Collecting && o.index in s.asked && o.index !in s.answered
    requires !c.noChain && o.funded && |s.checkpoint| + 1 < CHECKPOINT_USERS
    ensures Inv(c, s.(answered := s.answered + {o.index}, cleanup := s.cleanup + [o],
                      checkpoint := s.checkpoint + [Expected(o)]))
  {
    var owed, checkpoint := s.cleanup + [o], s.checkpoint + [Expected(o)];
    AnsweredBooks(c, s, o);
    WaitingPush(s.checkpoint, s.cleanup, o);
    assert Expected(owed[|s.cleanup|]) == Expected(o);
    assert Waiting(Expected(o), owed);
    assert checkpoint[|s.checkpoint|] == Expected(o);
    forall k | 0 <= k < |owed| ensures Kept(s.file.users, checkpoint, owed[k]) {
      if k < |s.cleanup| {
        assert Kept(s.file.users, s.checkpoint, owed[k]);
      }
    }
  }

  lemma NoChainMarks(c: Config, s: Run, o: Owed)
    requires Inv(c, s) && s.phase == Collecting && o.index in s.asked && o.index !in s.answered && c.noChain
    ensures Inv(c, s.(answered := s.answered + {o.index}, cleanup := s.cleanup + [o]))
    ensures Inv(c, s.(answered := s.answered + {o.index}, cleanup := s.cleanup + [o], phase := Stopped(StrictFailure)))
  {
    AnsweredBooks(c, s, o);
  }

  /** The users in the file once the checkpoint is written out. */
  function Written(s: Run): Users {
    Upsert(s.mem, s.checkpoint)
  }

  lemma WrittenOk(c: Config, s: Run)
    requires Inv(c, s) && s.phase == Collecting && !c.noChain
    ensures IntentsOk(c, Written(s)) && UnansweredOk(c, Written(s), s.answered)
    ensures AllKept(Written(s), [], s.cleanup)
    ensures MarksOk(s.file.users, Written(s), s.empty) && MarksOk(Written(s), Written(s), s.empty)
  {
    FlushedKept(s.mem, s.checkpoint, s.cleanup);
    FlushedRest(c, s.mem, s.checkpoint, s.answered);
    UpsertMarks(s.mem, s.checkpoint, s.empty);
  }

  /** A state reached from `s` by receiving `o` and writing everything out. */
  function Persisted(s: Run, o: Owed, users: Users, phase: Phase): Run {
    s.(phase := phase, answered := s.answered + {o.index}, cleanup := s.cleanup + [o], checkpoint := [],
       mem := users, file := Saved(users, s.file.status))
  }

  lemma KeepPersisted(c: Config, s: Run, o: Owed, phase: Phase)
    requires Inv(c, s) && s.phase == Collecting && o.index in s.asked && o.index !in s.answered && !c.noChain
    requires phase == Collecting || phase == Stopped(StrictFailure)
    ensures Inv(c, Persisted(s, o, Written(s)[o.index := Expected(o)], phase))
  {
    AnsweredBooks(c, s, o);
    WrittenOk(c, s);
    ResultSaved(c, Written(s), s.answered, s.cleanup, o);
  }

  /** A failed funding call changes no record: the intent is the result. */
  lemma KeepUnfunded(c: Config, s: Run, i: nat, phase: Phase)
    requires Inv(c, s) && s.phase == Collecting && i in s.asked && i !in s.answered && !c.noChain
    requires phase == Collecting || phase == Stopped(StrictFailure)
    ensures Inv(c, Persisted(s, Owed(i, None, false), Written(s), phase))
  {
    var o := Owed(i, None, false);
    KeepPersisted(c, s, o, phase);
    WrittenOk(c, s);
    assert Written(s)[i := Expected(o)] == Written(s);
  }

  /** The first write failed, or the second did: the file still holds a state that was saved before. */
  lemma KeepSaveFailed(c: Config, s: Run, o: Owed, t: Run)
    requires Inv(c, s) && s.phase == Collecting && o.index in s.asked && o.index !in s.answered && !c.noChain
    requires t.file == s.file || t.file == Saved(Written(s), s.file.status)
    requires t.mem == Written(s) || t.mem == Written(s)[o.index := Expected(o)]
    requires t == s.(phase := Stopped(SaveFailed), answered := s.answered + {o.index}, cleanup := s.cleanup + [o],
                     checkpoint := [], mem := t.mem, file := t.file)
    ensures Inv(c, t)
  {
    AnsweredBooks(c, s, o);
    WrittenOk(c, s);
  }

  lemma Singleton(m: Users, rs: seq<Record>, r: Record)
    ensures Upsert(m, [r]) == m[r.index := r]
    ensures Upsert(m, rs + [r]) == Upsert(m, rs)[r.index := r]
  {
    assert [r][..0] == [];
    assert (rs + [r])[..|rs|] == rs;
  }

  predicate Answerable(s: Run, i: nat) {
    s.phase == Collecting && i in s.asked && i !in s.answered
  }

  lemma KeepOpened(c: Config, s: Run, i: nat, setup: nat, ok1: bool, ok2: bool)
    requires Inv(c, s) && Answerable(s, i)
    ensures Inv(c, StepAnswer(c, s, i, Opened(setup), ok1, ok2))
  {
    var o := Owed(i, Some(setup), true);
    var t := StepAnswer(c, s, i, Opened(setup), ok1, ok2);
    if c.noChain {
      NoChainMarks(c, s, o);
    } else if |s.checkpoint| + 1 < CHECKPOINT_USERS {
      KeepQueued(c, s, o);
    } else {
      Singleton(s.mem, s.checkpoint, Expected(o));
      if ok1 {
        KeepPersisted(c, s, o, Collecting);
        assert t == Persisted(s, o, Written(s)[i := Expected(o)], Collecting);
      } else {
        KeepSaveFailed(c, s, o, t);
      }
    }
  }

  lemma Flushed(s: Run, ok: bool)
    requires s.phase == Collecting && s.mem == s.file.users
    ensures Flush(s, ok).phase == Collecting ==>
              Flush(s, ok) == s.(mem := Written(s), file := Saved(Written(s), s.file.status), checkpoint := [])
    ensures Flush(s, ok).phase != Collecting ==>
              Flush(s, ok) == s.(mem := Written(s), phase := Stopped(SaveFailed), checkpoint := [])
  {
  }

  lemma KeepOpenFailed(c: Config, s: Run, i: nat, setup: Option<nat>, ok1: bool, ok2: bool)
    requires Inv(c, s) && Answerable(s, i)
    ensures Inv(c, StepAnswer(c, s, i, OpenFailed(setup), ok1, ok2))
  {
    var o := Owed(i, setup, true);
    var t := StepAnswer(c, s, i, OpenFailed(setup), ok1, ok2);
    if c.noChain {
      NoChainMarks(c, s, o);
    } else {
      var f := s.(answered := s.answered + {i});
      Flushed(f, ok1);
      Singleton(Written(s), [], Expected(o));
      if Flush(f, ok1).phase == Collecting && ok2 {
        var phase := if c.tolerant then Collecting else Stopped(StrictFailure);
        KeepPersisted(c, s, o, phase);
        assert t == Persisted(s, o, Written(s)[i := Expected(o)], phase);
      } else {
        KeepSaveFailed(c, s, o, t);
      }
    }
  }

  lemma KeepFundingFailed(c: Config, s: Run, i: nat, ok1: bool, ok2: bool)
    requires Inv(c, s) && Answerable(s, i)
    ensures Inv(c, StepAnswer(c, s, i, FundingFailed, ok1, ok2))
  {
    var o := Owed(i, None, false);
    var t := StepAnswer(c, s, i, FundingFailed, ok1, ok2);
    if c.noChain {
      NoChainMarks(c, s, o);
    } else {
      var f := s.(answered := s.answered + {i});
      Flushed(f, ok1);
      if Flush(f, ok1).phase == Collecting {
        var phase := if c.tolerant then Collecting else Stopped(StrictFailure);
        KeepUnfunded(c, s, i, phase);
        assert t == Persisted(s, o, Written(s), phase);
      } else {
        KeepSaveFailed(c, s, o, t);
      }
    }
  }

  lemma KeepFinishProvisioning(c: Config, s: Run, enough: bool, ok1: bool, ok2: bool)
    requires Inv(c, s) && s.phase == Collecting && AllIn(c, s.answered)
    ensures Inv(c, StepFinishProvisioning(c, s, enough, ok1, ok2))
  {
    Flushed(s, ok1);
    if !c.noChain {
      WrittenOk(c, s);
    }
  }

  lemma KeepDrive(c: Config, s: Run, sourcesOk: bool, ok1: bool, ok2: bool, ok3: bool)
    requires Inv(c, s) && s.phase == Driving
    ensures Inv(c, StepDrive(s, sourcesOk, ok1, ok2, ok3))
  {
  }

  // ---- Settlement --------------------------------------------------------

  lemma KeepClose(c: Config, s: Run, k: nat, done: bool)
    requires Inv(c, s)
    ensures Inv(c, Step(c, s, Close(k, done)))
  {
  }

  lemma KeepReclaim(c: Config, s: Run, k: nat, done: bool)
    requires Inv(c, s)
    ensures Inv(c, Step(c, s, Reclaim(k, done)))
  {
    if InSettlement(c, s, k) && (s.cleanup[k].setup.Some? ==> s.cleanup[k].index in s.closed) {
      var i := s.cleanup[k].index;
      forall j | 0 <= j < |s.cleanup| && s.cleanup[j].index in s.empty + {i} && s.cleanup[j].setup.Some?
        ensures s.cleanup[j].index in s.closed
      {
        assert s.cleanup[j].index == i ==> j == k;
      }
    }
  }

  /** Marking the reported users in the journal. */
  lemma SweptUsers(c: Config, s: Run, xs: seq<nat>)
    requires Inv(c, s) && s.phase == Closing && !c.noChain
    requires forall k :: 0 <= k < |xs| ==> xs[k] in s.empty
    ensures Sweep(s.mem, xs).Some?
    ensures var v := Sweep(s.mem, xs).value;
            && IntentsOk(c, v) && UnansweredOk(c, v, s.answered) && AllKept(v, [], s.cleanup)
            && MarksOk(v, v, s.empty) && MarksOk(s.file.users, v, s.empty)
            && (forall i :: i in s.mem && Noted(s.mem, xs, i) ==> Noted(v, [], i))
  {
    SweepMarks(s.mem, xs);
    forall i | i in xs ensures i in s.mem {
      assert i in s.empty && i in s.answered && i in s.asked && InShard(c, i);
    }
    var v := Sweep(s.mem, xs).value;
    forall k | 0 <= k < |s.cleanup| ensures Kept(v, [], s.cleanup[k]) {
      assert Kept(s.mem, [], s.cleanup[k]);
    }
  }

  lemma NotedInShard(c: Config, s: Run, xs: seq<nat>, i: nat)
    requires Inv(c, s) && s.phase == Closing && !c.noChain && Noted(s.mem, xs, i)
    requires forall k :: 0 <= k < |xs| ==> xs[k] in s.empty
    ensures i in s.mem
  {
    if i in xs {
      assert i in s.empty && i in s.answered && i in s.asked && InShard(c, i);
    }
  }

  /** A flush of the swept checkpoint `xs`, seen from the state before `i` was reported. */
  lemma KeepSweptFlush(c: Config, s: Run, xs: seq<nat>, reported: set<nat>, ok: bool)
    requires Inv(c, s) && s.phase == Closing && !c.noChain
    requires forall k :: 0 <= k < |xs| ==> xs[k] in s.empty
    requires forall i :: i in reported && i in s.empty ==> Noted(s.mem, xs, i)
    requires forall i :: i in reported && i !in s.empty ==> i in s.reported
    requires xs != []
    ensures Inv(c, FlushSwept(s.(reported := reported, sweptCheckpoint := xs), ok))
  {
    SweptUsers(c, s, xs);
    var v := Sweep(s.mem, xs).value;
    forall i | i in reported && i in s.empty ensures Noted(v, [], i) {
      NotedInShard(c, s, xs, i);
    }
  }

  lemma KeepCollect(c: Config, s: Run, k: nat, ok: bool)
    requires Inv(c, s) && s.phase == Closing && !c.noChain && k < |s.cleanup|
    requires s.cleanup[k].index in s.broken || s.cleanup[k].index in s.empty
    ensures Inv(c, StepCollect(s, s.cleanup[k].index, ok))
  {
    var i := s.cleanup[k].index;
    if i in s.empty {
      var xs := s.sweptCheckpoint + [i];
      assert xs[|s.sweptCheckpoint|] == i;
      forall j | j in s.reported + {i} && j in s.empty ensures Noted(s.mem, xs, j) {
        if j != i { assert Noted(s.mem, s.sweptCheckpoint, j); }
      }
      if |xs| == CHECKPOINT_USERS {
        KeepSweptFlush(c, s, xs, s.reported + {i}, ok);
      }
    }
  }

  lemma FlushedSwept(c: Config, s: Run, ok: bool)
    requires Inv(c, s) && s.phase == Closing
    ensures Inv(c, FlushSwept(s, ok))
    ensures FlushSwept(s, ok).phase == Closing ==> FlushSwept(s, ok).sweptCheckpoint == []
    ensures FlushSwept(s, ok).phase == Closing || FlushSwept(s, ok).phase == Stopped(SaveFailed)
    ensures FlushSwept(s, ok).reported == s.reported && FlushSwept(s, ok).cleanup == s.cleanup
    ensures FlushSwept(s, ok).answered == s.answered
  {
    if s.sweptCheckpoint != [] {
      KeepSweptFlush(c, s, s.sweptCheckpoint, s.reported, ok);
      SweptUsers(c, s, s.sweptCheckpoint);
      assert s == s.(reported := s.reported, sweptCheckpoint := s.sweptCheckpoint);
    }
  }

  lemma KeepFinishSettlement(c: Config, s: Run, ok1: bool, ok2: bool, ok3: bool)
    requires Inv(c, s) && s.phase == Closing
    requires c.noChain || forall k :: 0 <= k < |s.cleanup| ==> s.cleanup[k].index in s.reported
    ensures Inv(c, StepFinishSettlement(s, ok1, ok2, ok3))
  {
    FlushedSwept(c, s, ok1);
    var f := FlushSwept(s, ok1);
    if !c.noChain && f.phase == Closing && f.failures == 0 {
      forall i: nat | InShard(c, i) ensures i in f.mem && f.mem[i].swept {
        assert Owes(s.cleanup, i);
        assert Noted(f.file.users, [], i);
      }
    }
  }

  // ---- Every run ---------------------------------------------------------

  lemma KeepInv(c: Config, s: Run, a: Action)
    requires Inv(c, s)
    ensures Inv(c, Step(c, s, a))
  {
    match a
    case Announce(ok) => KeepAnnounce(c, s, ok);
    case SaveIntents(ok) => if s.phase == Announced && !c.noChain { KeepSaveIntents(c, s, ok); }
    case Fund(i) => KeepFund(c, s, i);
    case Answer(i, outcome, ok1, ok2) =>
      if Answerable(s, i) {
        match outcome
        case Opened(setup) => KeepOpened(c, s, i, setup, ok1, ok2);
        case OpenFailed(setup) => KeepOpenFailed(c, s, i, setup, ok1, ok2);
        case FundingFailed => KeepFundingFailed(c, s, i, ok1, ok2);
      }
    case FinishProvisioning(enough, ok1, ok2) =>
      if s.phase == Collecting && AllIn(c, s.answered) { KeepFinishProvisioning(c, s, enough, ok1, ok2); }
    case Drive(sourcesOk, ok1, ok2, ok3) =>
      if s.phase == Driving { KeepDrive(c, s, sourcesOk, ok1, ok2, ok3); }
    case Close(k, done) => KeepClose(c, s, k, done);
    case Reclaim(k, done) => KeepReclaim(c, s, k, done);
    case Collect(k, ok) =>
      if s.phase == Closing && !c.noChain && k < |s.cleanup|
         && (s.cleanup[k].index in s.broken || s.cleanup[k].index in s.empty)
      {
        KeepCollect(c, s, k, ok);
      }
    case FinishSettlement(ok1, ok2, ok3) =>
      if s.phase == Closing && (c.noChain || forall k :: 0 <= k < |s.cleanup| ==> s.cleanup[k].index in s.reported) {
        KeepFinishSettlement(c, s, ok1, ok2, ok3);
      }
  }

  lemma {:induction false} EveryRun(c: Config, actions: seq<Action>)
    ensures Inv(c, After(c, actions))
  {
    if actions == [] {
      InitInv(c);
    } else {
      EveryRun(c, actions[..|actions| - 1]);
      KeepInv(c, After(c, actions[..|actions| - 1]), actions[|actions| - 1]);
    }
  }

  /** A funding call is only ever issued for a user whose saved record says funding has started. */
  lemma FundedOnlyAfterIntent(c: Config, actions: seq<Action>, i: nat)
    requires !c.noChain && i in After(c, actions).asked
    ensures var users := After(c, actions).file.users;
            i in users && users[i].index == i && users[i].fundingStarted
  {
    EveryRun(c, actions);
    assert InShard(c, i);
  }

  lemma SweptFacts(c: Config, s: Run, i: nat)
    requires Inv(c, s) && i in s.file.users && s.file.users[i].swept
    ensures i in s.empty && Owes(s.cleanup, i)
    ensures forall k :: 0 <= k < |s.cleanup| && s.cleanup[k].index == i && s.cleanup[k].setup.Some? ==> i in s.closed
    ensures s.file.users[i].setup.Some? && s.phase != Stopped(SaveFailed) ==> i in s.closed
  {
    assert i in s.answered && !c.noChain;
    var k :| 0 <= k < |s.cleanup| && s.cleanup[k].index == i;
    if s.phase != Stopped(SaveFailed) {
      assert Kept(s.file.users, [], s.cleanup[k]);
    }
  }

  /** A user is saved as swept only after its known channel closed and its wallet was emptied. */
  lemma SweptOnlyAfterClose(c: Config, actions: seq<Action>, i: nat)
    requires i in After(c, actions).file.users && After(c, actions).file.users[i].swept
    ensures var s := After(c, actions);
            && i in s.empty && Owes(s.cleanup, i)
            && (forall k :: 0 <= k < |s.cleanup| && s.cleanup[k].index == i && s.cleanup[k].setup.Some? ==> i in s.closed)
            && (s.file.users[i].setup.Some? && s.phase != Stopped(SaveFailed) ==> i in s.closed)
  {
    EveryRun(c, actions);
    SweptFacts(c, After(c, actions), i);
  }

  /** `Complete` is saved only when every user of the shard is saved as swept. */
  lemma CompleteMeansSwept(c: Config, actions: seq<Action>, i: nat)
    requires !c.noChain && After(c, actions).file.status == Complete && InShard(c, i)
    ensures var users := After(c, actions).file.users; i in users && users[i].swept
  {
    EveryRun(c, actions);
  }

  lemma CleanupFacts(c: Config, s: Run, i: nat)
    requires Inv(c, s)
    ensures s.phase != Stopped(MissingUser)
    ensures i in s.answered <==> Owes(s.cleanup, i)
    ensures DistinctOwed(s.cleanup)
  {
  }

  /** No sweep ever names a user without a record, and every attempted user is owed exactly one sweep. */
  lemma CleanupIsExact(c: Config, actions: seq<Action>, i: nat)
    ensures var s := After(c, actions);
            && s.phase != Stopped(MissingUser)
            && (i in s.answered <==> Owes(s.cleanup, i)) && DistinctOwed(s.cleanup)
  {
    EveryRun(c, actions);
    CleanupFacts(c, After(c, actions), i);
  }

  lemma StrictFacts(c: Config, s: Run, k: nat)
    requires Inv(c, s) && !c.noChain && s.phase == Stopped(StrictFailure) && k < |s.cleanup|
    ensures s.cleanup[k].index in s.file.users
    ensures s.file.users[s.cleanup[k].index] == Expected(s.cleanup[k])
  {
    assert Kept(s.file.users, s.checkpoint, s.cleanup[k]);
  }

  /** When strict provisioning gives up, every result it received is in the file. */
  lemma StrictFailureLosesNothing(c: Config, actions: seq<Action>, k: nat)
    requires !c.noChain && After(c, actions).phase == Stopped(StrictFailure) && k < |After(c, actions).cleanup|
    ensures var s := After(c, actions);
            && s.cleanup[k].index in s.file.users
            && s.file.users[s.cleanup[k].index] == Expected(s.cleanup[k])
  {
    EveryRun(c, actions);
    StrictFacts(c, After(c, actions), k);
  }

  // ---- How much may be unsaved -------------------------------------------

  /** Users whose provisioning result arrived and is not in the file. */
  function Unsaved(s: Run): set<nat> {
    set k | 0 <= k < |s.cleanup| && !Kept(s.file.users, [], s.cleanup[k]) :: s.cleanup[k].index
  }

  /** Users reported swept whose mark is not in the file. */
  function Unmarked(s: Run): set<nat> {
    set i | i in s.reported && i in s.empty && !Noted(s.file.users, [], i)
  }

  function Indices(rs: seq<Record>): (xs: set<nat>)
    ensures |xs| <= |rs|
    ensures forall k :: 0 <= k < |rs| ==> rs[k].index in xs
  {
    if rs == [] then {} else Indices(rs[..|rs| - 1]) + {rs[|rs| - 1].index}
  }

  function Elements(xs: seq<nat>): (s: set<nat>)
    ensures |s| <= |xs|
    ensures forall k :: 0 <= k < |xs| ==> xs[k] in s
  {
    if xs == [] then {} else Elements(xs[..|xs| - 1]) + {xs[|xs| - 1]}
  }

  lemma UnsavedNow(c: Config, s: Run)
    requires Inv(c, s) && !c.noChain && s.phase != Stopped(SaveFailed)
    ensures |Unsaved(s)| <= |s.checkpoint| < CHECKPOINT_USERS
    ensures |Unmarked(s)| <= |s.sweptCheckpoint| < CHECKPOINT_USERS
  {
    forall i | i in Unsaved(s) ensures i in Indices(s.checkpoint) {
      var k :| 0 <= k < |s.cleanup| && !Kept(s.file.users, [], s.cleanup[k]) && i == s.cleanup[k].index;
      assert Kept(s.file.users, s.checkpoint, s.cleanup[k]);
      assert Expected(s.cleanup[k]) in s.checkpoint;
    }
    SubsetSize(Unsaved(s), Indices(s.checkpoint));
    forall i | i in Unmarked(s) ensures i in Elements(s.sweptCheckpoint) {
      assert Noted(s.file.users, s.sweptCheckpoint, i);
    }
    SubsetSize(Unmarked(s), Elements(s.sweptCheckpoint));
  }

  predicate Bounded(s: Run) {
    |Unsaved(s)| <= CHECKPOINT_USERS && |Unmarked(s)| <= CHECKPOINT_USERS
  }

  lemma OneMore(a: set<nat>, b: set<nat>, i: nat)
    requires a <= b + {i}
    ensures |a| <= |b| + 1
  {
    SubsetSize(a, b + {i});
  }

  lemma AnswerShape(c: Config, s: Run, i: nat, outcome: Outcome, ok1: bool, ok2: bool)
    requires !c.noChain && Answerable(s, i) && s.mem == s.file.users
    requires StepAnswer(c, s, i, outcome, ok1, ok2).phase == Stopped(SaveFailed)
    ensures var t := StepAnswer(c, s, i, outcome, ok1, ok2);
            && (t.file.users == s.file.users || t.file.users == Written(s))
            && |t.cleanup| == |s.cleanup| + 1 && t.cleanup[..|s.cleanup|] == s.cleanup
            && t.cleanup[|s.cleanup|].index == i
            && t.reported == s.reported
  {
    Flushed(s.(answered := s.answered + {i}), ok1);
  }

  lemma OneMoreOwed(s: Run, t: Run, i: nat)
    requires |t.cleanup| == |s.cleanup| + 1 && t.cleanup[..|s.cleanup|] == s.cleanup
    requires t.cleanup[|s.cleanup|].index == i
    requires t.file.users == s.file.users || AllKept(t.file.users, [], s.cleanup)
    ensures |Unsaved(t)| <= |Unsaved(s)| + 1
  {
    forall j | j in Unsaved(t) ensures j in Unsaved(s) + {i} {
      var k :| 0 <= k < |t.cleanup| && !Kept(t.file.users, [], t.cleanup[k]) && j == t.cleanup[k].index;
      if k < |s.cleanup| {
        assert t.cleanup[..|s.cleanup|][k] == s.cleanup[k];
        assert !Kept(t.file.users, [], s.cleanup[k]);
      }
    }
    OneMore(Unsaved(t), Unsaved(s), i);
  }

  /** A save that fails while a result is being recorded adds at most that result to the unsaved ones. */
  lemma AnswerLoses(c: Config, s: Run, i: nat, outcome: Outcome, ok1: bool, ok2: bool)
    requires Inv(c, s) && !c.noChain && Answerable(s, i)
    requires StepAnswer(c, s, i, outcome, ok1, ok2).phase == Stopped(SaveFailed)
    ensures Bounded(StepAnswer(c, s, i, outcome, ok1, ok2))
  {
    AnswerShape(c, s, i, outcome, ok1, ok2);
    WrittenOk(c, s);
    UnsavedNow(c, s);
    var t := StepAnswer(c, s, i, outcome, ok1, ok2);
    OneMoreOwed(s, t, i);
    assert Unmarked(t) == {};
  }

  /** A failed save that changes neither list nor file. */
  lemma NothingLost(c: Config, s: Run, t: Run)
    requires Inv(c, s) && !c.noChain && s.phase != Stopped(SaveFailed)
    requires t.cleanup == s.cleanup && t.file.users == s.file.users && t.reported == s.reported && t.empty == s.empty
    ensures Bounded(t)
  {
    UnsavedNow(c, s);
    assert Unsaved(t) == Unsaved(s) && Unmarked(t) == Unmarked(s);
  }

  lemma FinishProvisioningLoses(c: Config, s: Run, enough: bool, ok1: bool, ok2: bool)
    requires Inv(c, s) && !c.noChain && s.phase == Collecting
    requires StepFinishProvisioning(c, s, enough, ok1, ok2).phase == Stopped(SaveFailed)
    ensures Bounded(StepFinishProvisioning(c, s, enough, ok1, ok2))
  {
    var t := StepFinishProvisioning(c, s, enough, ok1, ok2);
    Flushed(s, ok1);
    if Flush(s, ok1).phase == Collecting {
      WrittenOk(c, s);
      assert Unsaved(t) == {} && Unmarked(t) == {};
    } else {
      NothingLost(c, s, t);
    }
  }

  lemma CollectLoses(c: Config, s: Run, k: nat, ok: bool)
    requires Inv(c, s) && !c.noChain && s.phase == Closing && k < |s.cleanup|
    requires StepCollect(s, s.cleanup[k].index, ok).phase == Stopped(SaveFailed)
    ensures Bounded(StepCollect(s, s.cleanup[k].index, ok))
  {
    var t := StepCollect(s, s.cleanup[k].index, ok);
    UnsavedNow(c, s);
    assert t.file.users == s.file.users;
    assert Unsaved(t) == Unsaved(s);
    OneMore(Unmarked(t), Unmarked(s), s.cleanup[k].index);
  }

  lemma FinishSettlementLoses(c: Config, s: Run, ok1: bool, ok2: bool, ok3: bool)
    requires Inv(c, s) && !c.noChain && s.phase == Closing
    requires StepFinishSettlement(s, ok1, ok2, ok3).phase == Stopped(SaveFailed)
    ensures Bounded(StepFinishSettlement(s, ok1, ok2, ok3))
  {
    var t := StepFinishSettlement(s, ok1, ok2, ok3);
    FlushedSwept(c, s, ok1);
    var f := FlushSwept(s, ok1);
    if f.phase == Closing {
      NothingLost(c, f, t);
    } else {
      NothingLost(c, s, t);
    }
  }

  lemma FailureLoses(c: Config, s: Run, a: Action)
    requires Inv(c, s) && !c.noChain && s.phase != Stopped(SaveFailed) && Step(c, s, a).phase == Stopped(SaveFailed)
    ensures Bounded(Step(c, s, a))
  {
    match a
    case Announce(_) => NothingLost(c, s, Step(c, s, a));
    case SaveIntents(_) => NothingLost(c, s, Step(c, s, a));
    case Fund(_) =>
    case Answer(i, outcome, ok1, ok2) => AnswerLoses(c, s, i, outcome, ok1, ok2);
    case FinishProvisioning(enough, ok1, ok2) => FinishProvisioningLoses(c, s, enough, ok1, ok2);
    case Drive(sourcesOk, ok1, ok2, ok3) => NothingLost(c, s, Step(c, s, a));
    case Close(_, _) =>
    case Reclaim(_, _) =>
    case Collect(k, ok) => CollectLoses(c, s, k, ok);
    case FinishSettlement(ok1, ok2, ok3) => FinishSettlementLoses(c, s, ok1, ok2, ok3);
  }

  /**
   At every point of every on-chain run, also one that a failed save has ended, at
   most 1024 provisioning results and at most 1024 sweeps are missing from the file.
   */
  lemma {:induction false} CrashLosesAtMostOneCheckpoint(c: Config, actions: seq<Action>)
    requires !c.noChain
    ensures Bounded(After(c, actions))
  {
    EveryRun(c, actions);
    var t := After(c, actions);
    if t.phase != Stopped(SaveFailed) {
      UnsavedNow(c, t);
    } else if actions != [] {
      var front, a := actions[..|actions| - 1], actions[|actions| - 1];
      CrashLosesAtMostOneCheckpoint(c, front);
      EveryRun(c, front);
      if After(c, front).phase != Stopped(SaveFailed) {
        FailureLoses(c, After(c, front), a);
      }
    }
  }
}
