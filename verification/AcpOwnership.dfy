/**
 Whether a response only ever ends the turn of its own prompt. It does until an
 agent answers a prompt whose frame could not be written: the clean-up of that
 prompt removes its session's turn without looking whose it is.
 */
module AcpOwnership {
  import opened Common
  import opened AcpClient

  /** Responses so far ended only their own prompts' turns. */
  predicate Owned(log: seq<Ending>) {
    forall k :: 0 <= k < |log| ==> log[k].response == log[k].turn
  }

  predicate Connected(s: Client) {
    s.reader.Idle? || s.reader.Holding?
  }

  /**
   The step that makes one prompt both answered and failed: a write reported as
   failed after its response arrived, or a response to a prompt that is giving up.
   */
  predicate Faulty(s: Client, a: Action) {
    match a
    case Write(id, ok) => !ok && At(s, id, Enlisted) && id in s.answered && Connected(s) && !s.disconnected
    case Respond(id, e) =>
      s.reader == Idle && !s.disconnected && Terminal(e) && id in s.pending && s.pending[id].ForTurn?
      && At(s, id, Failing)
    case _ => false
  }

  predicate Clean(s: Client, actions: seq<Action>)
    decreases |actions|
  {
    actions == [] || (!Faulty(s, actions[0]) && Clean(Step(s, actions[0]), actions[1..]))
  }

  // ---- Clean runs --------------------------------------------------------

  predicate Live(stage: Stage) {
    stage == Registered || stage == Enlisted || stage == Returned || stage == Failing || stage == Withdrawn
  }

  /** An unanswered live prompt holds its session's turn. */
  predicate HoldsTurn(calls: map<nat, Call>, turns: map<nat, nat>, answered: set<nat>) {
    forall i :: i in calls && Live(calls[i].stage) && i !in answered ==>
      calls[i].session in turns && turns[calls[i].session] == i
  }

  /** Exactly the enlisted, unanswered prompts are pending. */
  predicate PendingOk(calls: map<nat, Call>, pending: map<nat, Pending>, answered: set<nat>) {
    && (forall i :: i in pending && pending[i].ForTurn? ==>
          && i in calls && calls[i].session == pending[i].session && i !in answered
          && (calls[i].stage == Enlisted || calls[i].stage == Returned || calls[i].stage == Failing))
    && (forall i :: i in calls && i !in answered
                    && (calls[i].stage == Enlisted || calls[i].stage == Returned || calls[i].stage == Failing) ==>
          i in pending && pending[i] == ForTurn(calls[i].session))
  }

  /** An answered prompt's write has not failed. */
  predicate AnsweredOk(calls: map<nat, Call>, answered: set<nat>) {
    forall i :: i in answered ==> i in calls && (calls[i].stage == Enlisted || calls[i].stage == Returned)
  }

  /** An answered prompt keeps its turn only while the reader holds its response. */
  predicate HeldOk(calls: map<nat, Call>, turns: map<nat, nat>, reader: Reader, answered: set<nat>) {
    && (reader.Holding? ==>
          && reader.id in answered && reader.id in calls && calls[reader.id].session == reader.session
          && reader.session in turns && turns[reader.session] == reader.id)
    && (forall ses :: ses in turns && turns[ses] in answered ==> reader.Holding? && reader.id == turns[ses])
  }

  /** Only a prompt that has not given up has a turn. */
  predicate SeatsOk(calls: map<nat, Call>, turns: map<nat, nat>) {
    forall ses :: ses in turns ==>
      turns[ses] in calls && calls[turns[ses]].session == ses && Live(calls[turns[ses]].stage)
  }

  predicate Links(calls: map<nat, Call>, pending: map<nat, Pending>, turns: map<nat, nat>, reader: Reader, answered: set<nat>) {
    && HoldsTurn(calls, turns, answered)
    && SeatsOk(calls, turns)
    && PendingOk(calls, pending, answered)
    && AnsweredOk(calls, answered)
    && HeldOk(calls, turns, reader, answered)
  }

  predicate Linked(s: Client) {
    Links(s.calls, s.pending, s.turns, s.reader, s.answered)
  }

  predicate Own(s: Client) {
    Owned(s.log) && (Connected(s) ==> !s.disconnected && Linked(s))
  }

  ghost predicate Good(s: Client) {
    Inv(s) && Own(s)
  }

  lemma LinkedBegin(s: Client, session: nat)
    requires Linked(s) && s.nextId !in s.calls && s.nextId !in s.pending
    ensures Linked(Step(s, Begin(session)))
  {
  }

  lemma HoldsRegistered(calls: map<nat, Call>, turns: map<nat, nat>, answered: set<nat>, id: nat)
    requires HoldsTurn(calls, turns, answered) && id in calls && calls[id].session !in turns
    ensures HoldsTurn(calls[id := calls[id].(stage := Registered)], turns[calls[id].session := id], answered)
  {
  }

  lemma LinkedRegister(s: Client, id: nat)
    requires Linked(s) && At(s, id, Allocated) && s.calls[id].session !in s.turns
    ensures Linked(StepRegister(s, id))
  {
    HoldsRegistered(s.calls, s.turns, s.answered, id);
  }

  lemma LinkedRefused(s: Client, id: nat)
    requires Linked(s) && At(s, id, Allocated)
    ensures Linked(Move(s, id, Refused))
  {
  }

  lemma LinkedEnlist(s: Client, id: nat)
    requires Linked(s) && At(s, id, Registered)
    ensures Linked(StepEnlist(s, id))
  {
  }

  lemma LinkedWrite(s: Client, id: nat, stage: Stage)
    requires Linked(s) && At(s, id, Enlisted)
    requires stage == Returned || (stage == Failing && id !in s.answered)
    ensures Linked(Move(s, id, stage))
  {
  }

  lemma LinkedWithdraw(s: Client, id: nat)
    requires Linked(s) && At(s, id, Failing)
    ensures Linked(Step(s, Withdraw(id)))
  {
  }

  lemma LinkedUnregister(s: Client, id: nat)
    requires Linked(s) && At(s, id, Withdrawn)
    ensures Linked(StepUnregister(s, id))
  {
    assert id !in s.answered && s.turns[s.calls[id].session] == id;
  }

  lemma LinkedRespond(s: Client, id: nat, e: Event)
    requires Linked(s) && s.reader == Idle && id in s.pending
    requires s.pending[id].ForTurn? ==> !At(s, id, Failing)
    ensures Linked(StepRespond(s, id, e))
  {
  }

  lemma LinkedFinish(s: Client)
    requires Linked(s) && s.reader.Holding?
    ensures Linked(StepFinish(s)) && s.reader.session in s.turns && s.turns[s.reader.session] == s.reader.id
  {
  }

  lemma LinkedReplies(s: Client, a: Action)
    requires Linked(s) && (a.Ask? || a.Forget?) && s.nextId !in s.calls && s.nextId !in s.pending
    ensures Linked(Step(s, a))
  {
  }

  lemma OwnPrompt(s: Client, a: Action)
    requires Good(s) && !Faulty(s, a) && (a.Begin? || a.Register? || a.Enlist? || a.Write? || a.Withdraw? || a.Unregister?)
    ensures Own(Step(s, a))
  {
    if Connected(s) {
      match a
      case Begin(session) => LinkedBegin(s, session);
      case Register(id) =>
        if At(s, id, Allocated) {
          if s.calls[id].session in s.turns { LinkedRefused(s, id); } else { LinkedRegister(s, id); }
        }
      case Enlist(id) => if At(s, id, Registered) { LinkedEnlist(s, id); }
      case Write(id, ok) => if At(s, id, Enlisted) { LinkedWrite(s, id, if ok then Returned else Failing); }
      case Withdraw(id) => if At(s, id, Failing) { LinkedWithdraw(s, id); }
      case Unregister(id) => if At(s, id, Withdrawn) { LinkedUnregister(s, id); }
    }
  }

  lemma OwnResponse(s: Client, a: Action)
    requires Good(s) && !Faulty(s, a) && (a.Respond? || a.Finish?)
    ensures Own(Step(s, a))
  {
    if a.Respond? && s.reader == Idle && Terminal(a.event) && a.id in s.pending {
      LinkedRespond(s, a.id, a.event);
    } else if a.Finish? && s.reader.Holding? {
      LinkedFinish(s);
    }
  }

  lemma OwnReader(s: Client, a: Action)
    requires Good(s)
    requires a.Ask? || a.Forget? || a.Update? || a.Hangup? || a.TakePending? || a.FailOne? || a.ClearTurns?
    ensures Own(Step(s, a))
  {
    if Connected(s) {
      match a
      case Ask => LinkedReplies(s, a);
      case Forget(_) => LinkedReplies(s, a);
      case _ =>
    }
  }

  lemma KeepGood(s: Client, a: Action)
    requires Good(s) && !Faulty(s, a)
    ensures Good(Step(s, a))
  {
    KeepInv(s, a);
    if a.Begin? || a.Register? || a.Enlist? || a.Write? || a.Withdraw? || a.Unregister? {
      OwnPrompt(s, a);
    } else if a.Respond? || a.Finish? {
      OwnResponse(s, a);
    } else {
      OwnReader(s, a);
    }
  }

  /** In every clean run a response ends only the turn of its own prompt. */
  lemma {:induction false} CleanRunsOwn(s: Client, actions: seq<Action>)
    requires Good(s) && Clean(s, actions)
    ensures Good(Exec(s, actions))
    decreases |actions|
  {
    if actions != [] {
      KeepGood(s, actions[0]);
      CleanRunsOwn(Step(s, actions[0]), actions[1..]);
    }
  }

  /** Finishing the held response puts its event on its own prompt's channel, and closes that turn alone. */
  predicate EndsItsOwn(s: Client)
    requires s.reader.Holding?
  {
    var t, id := Step(s, Finish), s.reader.id;
    && id in s.calls && s.calls[id].session == s.reader.session && id in s.channels
    && t.channels == s.channels[id := s.channels[id] + [s.reader.event]]
    && s.reader.session in s.turns && t.turns == s.turns - {s.reader.session}
    && t.pending == s.pending && t.calls == s.calls
  }

  lemma FinishFacts(s: Client)
    requires Good(s) && s.reader.Holding?
    ensures EndsItsOwn(s)
  {
    LinkedFinish(s);
  }

  lemma CleanFromInit(actions: seq<Action>)
    requires Clean(Init(), actions)
    ensures Good(Exec(Init(), actions))
  {
    CleanRunsOwn(Init(), actions);
  }

  lemma ResponseEndsItsOwnTurn(actions: seq<Action>, s: Client)
    requires Clean(Init(), actions) && s == Exec(Init(), actions) && s.reader.Holding?
    ensures EndsItsOwn(s)
  {
    CleanFromInit(actions);
    FinishFacts(s);
  }

  // ---- After a fault -----------------------------------------------------

  /** Some clean continuation lets a response end another prompt's turn. */
  ghost predicate Spoiled(s: Client) {
    exists more :: Clean(s, more) && !Owned(Exec(s, more).log)
  }

  lemma SpoiledBefore(s: Client, a: Action)
    requires !Faulty(s, a) && Spoiled(Step(s, a))
    ensures Spoiled(s)
  {
    var more :| Clean(Step(s, a), more) && !Owned(Exec(Step(s, a), more).log);
    var all := [a] + more;
    assert all[0] == a && all[1..] == more;
    assert Clean(s, all) && Exec(s, all) == Exec(Step(s, a), more);
  }

  lemma SpoiledNow(s: Client)
    requires !Owned(s.log)
    ensures Spoiled(s)
  {
    assert Clean(s, []) && Exec(s, []) == s;
  }

  const LAST: Event := Done("end_turn")

  /** The reader holds a response to `k` while its session's turn is another prompt's. */
  lemma SpoiledByHeld(s: Client)
    requires s.reader.Holding? && s.reader.session in s.turns && s.turns[s.reader.session] != s.reader.id
    ensures Spoiled(s)
  {
    var t := Step(s, Finish);
    assert t.log[|s.log|] == Ending(s.reader.id, s.turns[s.reader.session]);
    SpoiledNow(t);
    SpoiledBefore(s, Finish);
  }

  /** Ids handed out from now on are new. */
  predicate Fresh(s: Client) {
    (forall i :: i in s.calls ==> i < s.nextId) && (forall i :: i in s.pending ==> i < s.nextId)
  }

  /** A held response to `k` whose session is free: the next prompt on it loses its turn. */
  lemma SpoiledByHeldFree(s: Client)
    requires Fresh(s) && !s.disconnected && s.reader.Holding? && s.reader.session !in s.turns && s.reader.id in s.calls
    ensures Spoiled(s)
  {
    var s1 := Step(s, Begin(s.reader.session));
    var s2 := Step(s1, Register(s.nextId));
    SpoiledByHeld(s2);
    SpoiledBefore(s1, Register(s.nextId));
    SpoiledBefore(s, Begin(s.reader.session));
  }

  predicate CanAnswer(s: Client, j: nat, ses: nat) {
    j in s.pending && s.pending[j] == ForTurn(ses) && (At(s, j, Enlisted) || At(s, j, Returned))
  }

  /** A pending prompt `j` whose turn was taken away. */
  lemma SpoiledByStripped(s: Client, j: nat, ses: nat)
    requires Fresh(s) && !s.disconnected && s.reader == Idle && ses !in s.turns && CanAnswer(s, j, ses)
    ensures Spoiled(s)
  {
    var s1 := Step(s, Respond(j, LAST));
    SpoiledByHeldFree(s1);
    SpoiledBefore(s, Respond(j, LAST));
  }

  /** Prompt `k` is giving up while `j` has the session's turn. */
  lemma SpoiledByTheft(s: Client, k: nat, j: nat, ses: nat)
    requires Fresh(s) && !s.disconnected && s.reader == Idle && k != j
    requires At(s, k, Failing) && s.calls[k].session == ses && CanAnswer(s, j, ses)
    ensures Spoiled(s)
  {
    var s1 := Step(s, Withdraw(k));
    var s2 := Step(s1, Unregister(k));
    SpoiledByStripped(s2, j, ses);
    SpoiledBefore(s1, Unregister(k));
    SpoiledBefore(s, Withdraw(k));
  }

  /** Prompt `k` is giving up and its session is free. */
  lemma SpoiledWhenFree(s: Client, k: nat, ses: nat)
    requires Fresh(s) && !s.disconnected && s.reader == Idle
    requires At(s, k, Failing) && s.calls[k].session == ses && ses !in s.turns
    ensures Spoiled(s)
  {
    var j := s.nextId;
    var s1 := Step(s, Begin(ses));
    var s2 := Step(s1, Register(j));
    var s3 := Step(s2, Enlist(j));
    SpoiledByTheft(s3, k, j, ses);
    SpoiledBefore(s2, Enlist(j));
    SpoiledBefore(s1, Register(j));
    SpoiledBefore(s, Begin(ses));
  }

  lemma SpoiledByRegistered(s: Client, k: nat, j: nat, ses: nat)
    requires Fresh(s) && !s.disconnected && s.reader == Idle && k != j
    requires At(s, k, Failing) && s.calls[k].session == ses && At(s, j, Registered) && s.calls[j].session == ses
    ensures Spoiled(s)
  {
    SpoiledByTheft(Step(s, Enlist(j)), k, j, ses);
    SpoiledBefore(s, Enlist(j));
  }

  lemma SpoiledByWithdrawn(s: Client, k: nat, j: nat, ses: nat)
    requires Fresh(s) && !s.disconnected && s.reader == Idle && k != j
    requires At(s, k, Failing) && s.calls[k].session == ses && At(s, j, Withdrawn) && s.calls[j].session == ses
    ensures Spoiled(s)
  {
    SpoiledWhenFree(Step(s, Unregister(j)), k, ses);
    SpoiledBefore(s, Unregister(j));
  }

  lemma SpoiledByFailing(s: Client, k: nat, j: nat, ses: nat)
    requires Fresh(s) && !s.disconnected && s.reader == Idle && k != j
    requires At(s, k, Failing) && s.calls[k].session == ses && At(s, j, Failing) && s.calls[j].session == ses
    ensures Spoiled(s)
  {
    SpoiledByWithdrawn(Step(s, Withdraw(j)), k, j, ses);
    SpoiledBefore(s, Withdraw(j));
  }

  /** A failed write of an answered prompt, with the reader idle. */
  lemma SpoiledByWrite(s: Client, k: nat)
    requires Good(s) && s.reader == Idle && Faulty(s, Write(k, false))
    ensures Spoiled(Step(s, Write(k, false)))
  {
    var t, ses := Step(s, Write(k, false)), s.calls[k].session;
    if ses !in s.turns {
      SpoiledWhenFree(t, k, ses);
    } else {
      var j := s.turns[ses];
      assert j != k && j !in s.answered;
      if j in s.calls && s.calls[j].stage == Registered {
        SpoiledByRegistered(t, k, j, ses);
      } else if s.calls[j].stage == Withdrawn {
        SpoiledByWithdrawn(t, k, j, ses);
      } else if s.calls[j].stage == Failing {
        SpoiledByFailing(t, k, j, ses);
      } else {
        SpoiledByTheft(t, k, j, ses);
      }
    }
  }

  lemma FinishCommutes(s: Client, k: nat)
    requires Good(s) && s.reader.Holding? && Faulty(s, Write(k, false))
    ensures Step(Step(s, Write(k, false)), Finish) == Step(Step(s, Finish), Write(k, false))
    ensures Faulty(Step(s, Finish), Write(k, false))
  {
  }

  lemma SpoiledByWriteWhileHolding(s: Client, k: nat)
    requires Good(s) && s.reader.Holding? && Faulty(s, Write(k, false))
    ensures Spoiled(Step(s, Write(k, false)))
  {
    FinishCommutes(s, k);
    KeepGood(s, Finish);
    SpoiledByWrite(Step(s, Finish), k);
    SpoiledBefore(Step(s, Write(k, false)), Finish);
  }

  lemma SpoiledByRespond(s: Client, k: nat, e: Event)
    requires Good(s) && Faulty(s, Respond(k, e))
    ensures Spoiled(Step(s, Respond(k, e)))
  {
    var s1 := Step(s, Respond(k, e));
    var s2 := Step(s1, Withdraw(k));
    var s3 := Step(s2, Unregister(k));
    SpoiledByHeldFree(s3);
    SpoiledBefore(s2, Unregister(k));
    SpoiledBefore(s1, Withdraw(k));
  }

  lemma GoodIsNotSpoiled(s: Client)
    requires Good(s)
    ensures !Spoiled(s)
  {
    forall more | Clean(s, more) ensures Owned(Exec(s, more).log) {
      CleanRunsOwn(s, more);
    }
  }

  /**
   Exactly when the property fails: after any clean run, a step is faulty if and
   only if it can be followed, without any further fault, by a response that ends
   the turn of another prompt.
   */
  lemma OwnershipLostExactlyByFault(actions: seq<Action>, a: Action)
    requires Clean(Init(), actions)
    ensures Owned(Exec(Init(), actions).log)
    ensures Faulty(Exec(Init(), actions), a) <==> Spoiled(Step(Exec(Init(), actions), a))
  {
    CleanRunsOwn(Init(), actions);
    var s := Exec(Init(), actions);
    if Faulty(s, a) {
      match a
      case Write(k, _) =>
        if s.reader == Idle { SpoiledByWrite(s, k); } else { SpoiledByWriteWhileHolding(s, k); }
      case Respond(k, e) => SpoiledByRespond(s, k, e);
    } else {
      KeepGood(s, a);
      GoodIsNotSpoiled(Step(s, a));
    }
  }

  lemma ExecCons(s: Client, a: Action, rest: seq<Action>)
    ensures Exec(s, [a] + rest) == Exec(Step(s, a), rest)
  {
    assert ([a] + rest)[1..] == rest;
  }

  /** Prompt 0 of session 7 is about to write its frame. */
  const OFFERED := Client(false, 1, map[0 := Call(7, Enlisted)], map[0 := ForTurn(7)], map[7 := 0], map[0 := []],
                          Idle, {}, [])

  /** The write failed, and the response is being handled. */
  const HALFWAY := Client(false, 1, map[0 := Call(7, Failing)], map[], map[7 := 0], map[0 := []],
                          Holding(0, 7, LAST), {0}, [])

  lemma ToOffered(rest: seq<Action>)
    ensures Exec(Init(), [Begin(7)] + ([Register(0)] + ([Enlist(0)] + rest))) == Exec(OFFERED, rest)
  {
    var s1 := Step(Init(), Begin(7));
    var s2 := Step(s1, Register(0));
    var s3 := Step(s2, Enlist(0));
    ExecCons(s2, Enlist(0), rest);
    ExecCons(s1, Register(0), [Enlist(0)] + rest);
    ExecCons(Init(), Begin(7), [Register(0)] + ([Enlist(0)] + rest));
    assert s1.calls == map[0 := Call(7, Allocated)];
    assert s3 == OFFERED;
  }

  lemma HalfwayState()
    ensures Step(Step(OFFERED, Write(0, false)), Respond(0, LAST)) == HALFWAY
  {
    var s1 := Step(OFFERED, Write(0, false));
    assert s1 == OFFERED.(calls := map[0 := Call(7, Failing)]);
    assert s1.pending - {0} == map[];
  }

  lemma ToHalfway(rest: seq<Action>)
    ensures Exec(OFFERED, [Write(0, false)] + ([Respond(0, LAST)] + rest)) == Exec(HALFWAY, rest)
  {
    var s1 := Step(OFFERED, Write(0, false));
    HalfwayState();
    ExecCons(s1, Respond(0, LAST), rest);
    ExecCons(OFFERED, Write(0, false), [Respond(0, LAST)] + rest);
  }

  /** Prompt 0 has given up; its response is still being handled. */
  const FREED := Client(false, 1, map[0 := Call(7, GaveUp)], map[], map[], map[0 := []],
                        Holding(0, 7, LAST), {0}, [])

  lemma ToFreed(rest: seq<Action>)
    ensures Exec(HALFWAY, [Withdraw(0)] + ([Unregister(0)] + rest)) == Exec(FREED, rest)
  {
    var s1 := Step(HALFWAY, Withdraw(0));
    var s2 := Step(s1, Unregister(0));
    ExecCons(s1, Unregister(0), rest);
    ExecCons(HALFWAY, Withdraw(0), [Unregister(0)] + rest);
    assert s1 == HALFWAY.(calls := map[0 := Call(7, Withdrawn)]);
    assert s2 == FREED;
  }

  lemma FromFreed()
    ensures Exec(FREED, [Begin(7)] + ([Register(1)] + ([Finish] + []))).log == [Ending(0, 1)]
  {
    var s1 := Step(FREED, Begin(7));
    var s2 := Step(s1, Register(1));
    ExecCons(s2, Finish, []);
    ExecCons(s1, Register(1), [Finish] + []);
    ExecCons(FREED, Begin(7), [Register(1)] + ([Finish] + []));
    assert s2.turns == map[7 := 1];
  }

  /** One such run: prompt 0 fails to write but is answered, and its response ends the turn of prompt 1. */
  lemma AnsweredFailedPrompt()
    ensures exists actions :: Exec(Init(), actions).log == [Ending(0, 1)]
  {
    var last := [Begin(7)] + ([Register(1)] + ([Finish] + []));
    var rest := [Withdraw(0)] + ([Unregister(0)] + last);
    var fail := [Write(0, false)] + ([Respond(0, LAST)] + rest);
    var all := [Begin(7)] + ([Register(0)] + ([Enlist(0)] + fail));
    assert Exec(Init(), all).log == [Ending(0, 1)] by {
      FromFreed();
      ToFreed(last);
      ToHalfway(rest);
      ToOffered(fail);
    }
  }
}
