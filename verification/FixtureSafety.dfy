/**
 Safety of the fixture commands over every schedule of steps, crashes, restarts
 and cluster behaviour.
 */
module FixtureSafety {
  import opened Common
  import opened FixtureLedger
  import opened FixturePacking
  import opened FixtureStore
  import opened FixtureProtocol

  // ---- Steps of the process that touch neither the cluster nor a signature

  /** The process moved, and at most the pending list and the checkpoint changed. */
  lemma CoreFrame(c: Config, init: Ledger, s: State, t: State)
    requires LedgerOk(c, init) && Core(c, init, s)
    requires t.ledger == s.ledger && t.height == s.height && t.skipped == s.skipped
    requires t.signed == s.signed && t.landed == s.landed && t.failed == s.failed
    requires Side(t.journal.phase) == Side(s.journal.phase) && t.journal.nextUser <= c.users
    requires forall p :: p in t.journal.pending ==> p in s.journal.pending
    requires forall tx :: tx in Signatures(s.journal.pending) && Live(s, tx) ==> tx in Signatures(t.journal.pending)
    ensures Core(c, init, t)
  {
    assert forall tx :: Live(t, tx) <==> Live(s, tx);
  }

  lemma ProgressFrame(c: Config, s: State, t: State)
    requires Shape(c, s) && Progress(c, s) && Shape(c, t)
    requires t.ledger == s.ledger && t.skipped == s.skipped
    requires t.journal.phase == s.journal.phase && t.journal.nextUser == s.journal.nextUser
    requires !s.proc.Opened? && !t.proc.Opened?
    ensures Progress(c, t)
  {
  }

  lemma KeepStart(c: Config, init: Ledger, s: State, op: Op)
    requires LedgerOk(c, init) && Inv(c, init, s)
    ensures Inv(c, init, Step(c, s, Start(op)))
  {
    CoreFrame(c, init, s, Step(c, s, Start(op)));
  }

  /** Dropping an entry is only ever dropping one that can no longer land. */
  lemma ResolveDrops(s: State, height: bool)
    requires s.proc.Resolving? && s.proc.todo != []
    requires forall q :: q in s.proc.todo ==> q.lastValid == q.signature.lastValid
    ensures var t := StepResolve(s, height);
            t.journal != s.journal ==> !Live(s, s.proc.todo[0].signature)
  {
    assert s.proc.todo[0] in s.proc.todo;
  }

  lemma ResolveProc(c: Config, s: State, height: bool)
    requires Shape(c, s) && s.proc.Resolving? && ProcOk(c, s)
    ensures var t := StepResolve(s, height); Shape(c, t) && ProcOk(c, t)
  {
    var todo := s.proc.todo;
    if todo != [] {
      WithoutRemovesExactly(s.journal.pending, todo[0].signature);
      WithoutMembers(s.journal.pending, todo[0].signature);
      assert todo == [todo[0]] + todo[1..];
      assert Signatures(todo) == Signatures(todo[1..]) + {todo[0].signature} by {
        assert forall q :: q in todo <==> q == todo[0] || q in todo[1..];
      }
    } else {
      assert Signatures(todo) == {};
    }
  }

  lemma ResolveCore(c: Config, init: Ledger, s: State, height: bool)
    requires LedgerOk(c, init) && Core(c, init, s) && s.proc.Resolving?
    requires forall q :: q in s.proc.todo ==> q.lastValid == q.signature.lastValid
    ensures Core(c, init, StepResolve(s, height))
  {
    if s.proc.todo != [] {
      ResolveDrops(s, height);
      WithoutRemovesExactly(s.journal.pending, s.proc.todo[0].signature);
      WithoutMembers(s.journal.pending, s.proc.todo[0].signature);
    }
    CoreFrame(c, init, s, StepResolve(s, height));
  }

  lemma KeepResolve(c: Config, init: Ledger, s: State, height: bool)
    requires LedgerOk(c, init) && Inv(c, init, s) && s.proc.Resolving?
    ensures Inv(c, init, StepResolve(s, height))
  {
    ResolveProc(c, s, height);
    ResolveCore(c, init, s, height);
    ProgressFrame(c, s, StepResolve(s, height));
  }

  lemma KeepSavePhase(c: Config, init: Ledger, s: State)
    requires LedgerOk(c, init) && Inv(c, init, s) && s.proc.Opening?
    ensures Inv(c, init, StepSavePhase(c, s))
  {
    var t := StepSavePhase(c, s);
    assert forall tx :: !Live(s, tx) && !Live(t, tx);
    if Side(t.journal.phase) == Side(s.journal.phase) {
      CoreFrame(c, init, s, t);
    }
  }

  lemma KeepSaveStart(c: Config, init: Ledger, s: State)
    requires LedgerOk(c, init) && Inv(c, init, s)
    ensures Inv(c, init, Step(c, s, SaveStart))
  {
    CoreFrame(c, init, s, Step(c, s, SaveStart));
  }

  lemma KeepOpenWindow(c: Config, init: Ledger, s: State)
    requires LedgerOk(c, init) && Inv(c, init, s)
    ensures Inv(c, init, Step(c, s, OpenWindow))
  {
    CoreFrame(c, init, s, Step(c, s, OpenWindow));
  }

  lemma ReadSlotOk(c: Config, s: State)
    requires LedgerOk(c, s.ledger) && s.proc.Reading? && ReadingOk(c, s)
    ensures var t := StepReadSlot(c, s); t.proc.Reading? ==> ReadingOk(c, t)
  {
    var p := s.proc;
    var u := p.from + |p.done|;
    if u < p.to && p.slot == |c.targets| + 1 {
      var done := p.done + [PreparedUser(u, p.sofar)];
      forall i | 0 <= i < |done|
        ensures done[i].index == p.from + i
        ensures AllInstrs(c, p.op, s.ledger.wallets[p.from + i], p.from + i) == Some(done[i].instrs)
      {
        if i < |p.done| { assert done[i] == p.done[i]; }
      }
    } else if u < p.to {
      var more := Slot(c, p.op, s.ledger.wallets[u], u, p.slot);
      assert more.Some? ==> Instrs(c, p.op, s.ledger.wallets[u], u, p.slot + 1) == Some(p.sofar + more.value);
    }
  }

  lemma KeepReadSlot(c: Config, init: Ledger, s: State)
    requires LedgerOk(c, init) && Inv(c, init, s) && s.proc.Reading?
    ensures Inv(c, init, StepReadSlot(c, s))
  {
    CoreFrame(c, init, s, StepReadSlot(c, s));
    ProgressFrame(c, s, StepReadSlot(c, s));
    ReadSlotOk(c, s);
  }

  lemma KeepAwait(c: Config, init: Ledger, s: State, ok: bool)
    requires LedgerOk(c, init) && Inv(c, init, s) && s.proc.Awaiting?
    ensures Inv(c, init, StepAwait(s, ok))
  {
    CoreFrame(c, init, s, StepAwait(s, ok));
    var p := s.proc;
    if p.seen < |p.txs| {
      assert p.txs[..p.seen + 1] == p.txs[..p.seen] + [p.txs[p.seen]];
    } else if !p.err {
      assert p.oks == p.txs;
    }
  }

  lemma KeepClear(c: Config, init: Ledger, s: State)
    requires LedgerOk(c, init) && Inv(c, init, s) && s.proc.Clearing?
    ensures Inv(c, init, StepClear(s))
  {
    var oks := s.proc.oks;
    if oks != [] {
      WithoutRemovesExactly(s.journal.pending, oks[0]);
      WithoutMembers(s.journal.pending, oks[0]);
      assert oks[0] in oks;
      assert forall tx :: tx in oks <==> tx == oks[0] || tx in oks[1..];
    }
    CoreFrame(c, init, s, StepClear(s));
  }

  /** A window all of whose transactions have landed is settled. */
  lemma WindowSettled(c: Config, s: State, op: Op, from: nat, to: nat, txs: seq<Tx>)
    requires Shape(c, s) && LandedSettled(c, s) && InWindow(c, s, op, from, to)
    requires Covered(c, s, op, from, to, {}, txs)
    requires forall tx :: tx in txs ==> tx.op == op && tx in s.landed
    ensures SettledTo(c, op, s.ledger, from, to)
  {
    forall u | from <= u < to ensures Settled(c, op, s.ledger.wallets[u]) {
      if exists tx :: tx in txs && u in Users(tx.items) {
        var tx :| tx in txs && u in Users(tx.items);
        var i :| 0 <= i < |tx.items| && tx.items[i].index == u;
        assert Settled(c, tx.op, s.ledger.wallets[tx.items[i].index]);
      }
    }
  }

  lemma KeepContinue(c: Config, init: Ledger, s: State)
    requires LedgerOk(c, init) && Inv(c, init, s) && s.proc.Clearing?
    ensures Inv(c, init, StepContinue(s))
  {
    var p, t := s.proc, StepContinue(s);
    CoreFrame(c, init, s, t);
    if p.oks == [] && !p.err && p.goto.Advance? {
      WindowSettled(c, s, p.op, p.goto.from, p.goto.to, p.txs);
    }
  }

  lemma KeepFinish(c: Config, init: Ledger, s: State)
    requires LedgerOk(c, init) && Inv(c, init, s)
    ensures Inv(c, init, Step(c, s, Finish))
  {
    CoreFrame(c, init, s, Step(c, s, Finish));
  }

  lemma KeepCrash(c: Config, init: Ledger, s: State)
    requires LedgerOk(c, init) && Inv(c, init, s)
    ensures Inv(c, init, StepCrash(s))
  {
    var t := StepCrash(s);
    if t.skipped == s.skipped {
      CoreFrame(c, init, s, t);
    } else {
      assert forall tx :: !Live(s, tx) && !Live(t, tx);
    }
  }

  lemma CoreTick(c: Config, init: Ledger, s: State)
    requires LedgerOk(c, init) && Core(c, init, s)
    ensures Core(c, init, s.(height := s.height + 1))
  {
    assert forall tx :: Live(s.(height := s.height + 1), tx) ==> Live(s, tx);
  }

  lemma SigningTick(c: Config, s: State)
    requires LedgerOk(c, s.ledger) && s.proc.Signing? && SigningOk(c, s)
    ensures SigningOk(c, s.(height := s.height + 1))
  {
    assert forall tx :: Live(s.(height := s.height + 1), tx) ==> Live(s, tx);
  }

  lemma ProcTick(c: Config, s: State)
    requires Shape(c, s) && ProcOk(c, s)
    ensures var t := s.(height := s.height + 1); Shape(c, t) && ProcOk(c, t)
  {
    var t := s.(height := s.height + 1);
    match s.proc
    case Signing(_, _, _, _, _) => SigningTick(c, s);
    case Awaiting(op, goto, txs, _, _, _) => assert GotoOk(c, s, op, goto, txs) ==> GotoOk(c, t, op, goto, txs);
    case Clearing(op, goto, txs, _, _) => assert GotoOk(c, s, op, goto, txs) ==> GotoOk(c, t, op, goto, txs);
    case Reading(_, _, _, _, _, _) => assert ReadingOk(c, t);
    case _ =>
  }

  lemma KeepTick(c: Config, init: Ledger, s: State)
    requires LedgerOk(c, init) && Inv(c, init, s)
    ensures Inv(c, init, Step(c, s, Tick))
  {
    CoreTick(c, init, s);
    ProcTick(c, s);
  }

  // ---- Signing -----------------------------------------------------------

  lemma {:induction false} BusyOf(done: seq<PreparedUser>, from: nat)
    requires forall i :: 0 <= i < |done| ==> done[i].index == from + i
    ensures Distinct(Busy(done))
    ensures forall x :: x in Busy(done) <==> x in done && x.instrs != []
  {
    if done != [] {
      BusyOf(done[1..], from + 1);
      assert done == [done[0]] + done[1..];
      var rest := Busy(done[1..]);
      forall i | 0 <= i < |rest| ensures rest[i].index != done[0].index {
        assert rest[i] in done[1..];
      }
    }
  }

  lemma {:induction false} SinglesConcat(items: seq<PreparedUser>)
    ensures Concat(Singles(items)) == items
    ensures forall g :: g in Singles(items) ==> g != []
  {
    if items != [] {
      SinglesConcat(items[1..]);
      ConcatCons([items[0]], Singles(items[1..]));
    }
  }

  lemma BatchesCover(c: Config, op: Op, done: seq<PreparedUser>)
    ensures var r := Batches(c, op, done);
            r.Some? ==> Concat(r.value) == Busy(done) && forall g :: g in r.value ==> g != []
  {
    match op
    case Setup =>
      PackIsLossless(c, [], done);
      PackIsTight(c, [], done);
      assert [] + Busy(done) == Busy(done);
    case Teardown => SinglesConcat(Busy(done));
  }

  lemma PlannedItem(c: Config, s: State, x: PreparedUser)
    requires LedgerOk(c, s.ledger) && s.proc.Reading? && ReadingOk(c, s)
    requires x in s.proc.done
    ensures s.proc.from <= x.index < s.proc.to
    ensures AllInstrs(c, s.proc.op, s.ledger.wallets[x.index], x.index) == Some(x.instrs)
  {
    var m :| 0 <= m < |s.proc.done| && s.proc.done[m] == x;
  }

  lemma PlannedCover(c: Config, s: State, u: nat)
    requires LedgerOk(c, s.ledger) && s.proc.Reading? && ReadingOk(c, s)
    requires s.proc.from + |s.proc.done| == s.proc.to && s.proc.from <= u < s.proc.to
    ensures Settled(c, s.proc.op, s.ledger.wallets[u]) || u in Users(Busy(s.proc.done))
  {
    var x := s.proc.done[u - s.proc.from];
    NothingToDo(c, s.proc.op, s.ledger.wallets[u], u);
    BusyOf(s.proc.done, s.proc.from);
    if x.instrs != [] {
      var rest := Busy(s.proc.done);
      assert x in rest;
      var m :| 0 <= m < |rest| && rest[m] == x;
      assert rest[m].index == u;
    }
  }

  /** The batches planned for a window hold what its wallets need, and miss none of them. */
  lemma Planned(c: Config, s: State)
    requires LedgerOk(c, s.ledger) && s.proc.Reading? && ReadingOk(c, s)
    requires s.proc.from + |s.proc.done| == s.proc.to
    ensures var p, rest := s.proc, Busy(s.proc.done);
            && Distinct(rest) && Matches(c, p.op, s.ledger, rest)
            && (forall i :: 0 <= i < |rest| ==> p.from <= rest[i].index < p.to)
            && Covered(c, s, p.op, p.from, p.to, Users(rest), [])
  {
    var p, rest := s.proc, Busy(s.proc.done);
    BusyOf(p.done, p.from);
    forall i | 0 <= i < |rest|
      ensures p.from <= rest[i].index < p.to && rest[i].instrs != []
      ensures AllInstrs(c, p.op, s.ledger.wallets[rest[i].index], rest[i].index) == Some(rest[i].instrs)
    {
      assert rest[i] in rest;
      PlannedItem(c, s, rest[i]);
    }
    forall u | p.from <= u < p.to
      ensures Settled(c, p.op, s.ledger.wallets[u]) || u in Users(rest)
    {
      PlannedCover(c, s, u);
    }
  }

  lemma PlanSigning(c: Config, s: State)
    requires Shape(c, s) && Saved(s) && s.proc.Reading? && ReadingOk(c, s)
    ensures var t := Step(c, s, Plan); t.proc.Signing? ==> SigningOk(c, t)
  {
    var p, t := s.proc, Step(c, s, Plan);
    if t.proc.Signing? {
      BatchesCover(c, p.op, p.done);
      Planned(c, s);
      forall tx ensures !Live(t, tx) {
        assert Live(t, tx) ==> Live(s, tx);
      }
    }
  }

  lemma KeepPlan(c: Config, init: Ledger, s: State)
    requires LedgerOk(c, init) && Inv(c, init, s) && s.proc.Reading?
    ensures Inv(c, init, Step(c, s, Plan))
  {
    CoreFrame(c, init, s, Step(c, s, Plan));
    ProgressFrame(c, s, Step(c, s, Plan));
    PlanSigning(c, s);
  }

  /** Splitting the first group off the rest. */
  lemma GroupSplit(groups: Groups)
    requires groups != [] && Distinct(Concat(groups))
    ensures var g, rest := groups[0], Concat(groups[1..]);
            && Concat(groups) == g + rest
            && Distinct(g) && Distinct(rest)
            && Users(g) !! Users(rest)
            && Users(Concat(groups)) == Users(g) + Users(rest)
  {
    UsersAppend(groups[0], Concat(groups[1..]));
    DistinctAppend(groups[0], Concat(groups[1..]));
  }

  /** A new transaction over wallets that no live one touches, saved as it is signed. */
  lemma CoreSign(c: Config, init: Ledger, s: State, tx: Tx, userIndex: nat)
    requires LedgerOk(c, init) && Core(c, init, s)
    requires TxOk(c, s.journal.phase, tx) && Matches(c, tx.op, s.ledger, tx.items)
    requires tx.items != [] ==> tx.op == Side(s.journal.phase)
    requires tx.op == Teardown ==> forall i :: 0 <= i < |tx.items| ==> s.skipped <= tx.items[i].index
    requires forall x :: Live(s, x) ==> Users(x.items) !! Users(tx.items)
    ensures Core(c, init, SignAndSave(s, tx, userIndex))
  {
    var t := SignAndSave(s, tx, userIndex);
    PendingIsASet(s.journal, Pending(tx, tx.op, userIndex, tx.lastValid));
    assert forall x :: Live(t, x) ==> x == tx || Live(s, x);
  }

  lemma SigningSigned(c: Config, s: State, blockhash: nat, lastValid: nat)
    requires LedgerOk(c, s.ledger) && s.proc.Signing? && SigningOk(c, s) && s.proc.groups != []
    ensures SigningOk(c, StepSign(s, blockhash, lastValid))
  {
    var p, t := s.proc, StepSign(s, blockhash, lastValid);
    assert p.groups[0] in p.groups;
    var tx := Tx(p.op, p.groups[0], blockhash, lastValid);
    GroupSplit(p.groups);
    PendingIsASet(s.journal, Pending(tx, tx.op, p.groups[0][0].index, tx.lastValid));
    var g, rest, all := p.groups[0], Concat(p.groups[1..]), Concat(p.groups);
    assert forall i :: 0 <= i < |rest| ==> all[|g| + i] == rest[i];
    assert forall x :: Live(t, x) ==> x == tx || Live(s, x);
    assert forall x :: x in p.groups[1..] ==> x in p.groups;
    assert tx in t.proc.txs && forall x :: x in p.txs ==> x in t.proc.txs;
    assert Matches(c, p.op, s.ledger, rest);
    assert Covered(c, t, p.op, p.from, p.to, Users(rest), t.proc.txs);
  }

  lemma KeepSign(c: Config, init: Ledger, s: State, blockhash: nat, lastValid: nat)
    requires LedgerOk(c, init) && Inv(c, init, s) && s.proc.Signing?
    ensures Inv(c, init, StepSign(s, blockhash, lastValid))
  {
    var p := s.proc;
    if p.groups != [] {
      assert p.groups[0] in p.groups;
      var t := StepSign(s, blockhash, lastValid);
      var tx := Tx(p.op, p.groups[0], blockhash, lastValid);
      GroupSplit(p.groups);
      var g, all := p.groups[0], Concat(p.groups);
      assert forall i :: 0 <= i < |g| ==> all[i] == g[i];
      CoreSign(c, init, s, tx, g[0].index);
      CoreFrame(c, init, SignAndSave(s, tx, g[0].index), t);
      ProgressFrame(c, s, t);
      SigningSigned(c, s, blockhash, lastValid);
    }
  }

  lemma KeepSignFunder(c: Config, init: Ledger, s: State, blockhash: nat, lastValid: nat)
    requires LedgerOk(c, init) && Inv(c, init, s) && s.proc.Resolved?
    ensures Inv(c, init, Step(c, s, SignFunderAccounts(blockhash, lastValid)))
  {
    var t := Step(c, s, SignFunderAccounts(blockhash, lastValid));
    var tx := Tx(s.proc.op, [], blockhash, lastValid);
    PendingIsASet(s.journal, Pending(tx, tx.op, U64_MAX, tx.lastValid));
    assert forall x :: Live(t, x) ==> x == tx || Live(s, x);
  }

  lemma KeepBroadcast(c: Config, init: Ledger, s: State)
    requires LedgerOk(c, init) && Inv(c, init, s)
    ensures Inv(c, init, Step(c, s, Broadcast))
  {
    CoreFrame(c, init, s, Step(c, s, Broadcast));
    if s.proc.Signing? && s.proc.groups == [] {
      assert Users(Concat([])) == {};
    }
  }

  // ---- Landing -----------------------------------------------------------

  lemma TargetIdempotent(c: Config, op: Op, w: Wallet)
    requires WalletOk(c, w)
    ensures WalletOk(c, Target(c, op, w))
    ensures Target(c, op, Target(c, op, w)) == Target(c, op, w)
  {
    assert Target(c, op, Target(c, op, w)).atas == Target(c, op, w).atas;
  }

  lemma StageMoves(c: Config, side: Op, was: Wallet, w: Wallet)
    requires WalletOk(c, was) && WalletOk(c, w) && Stage(c, side, was, w)
    ensures Stage(c, side, was, Target(c, side, w))
  {
    TargetIdempotent(c, Setup, was);
    TargetIdempotent(c, Teardown, was);
    TargetIdempotent(c, Teardown, Target(c, Setup, was));
  }

  /** A wallet whose instructions were built can be settled by carrying them out. */
  lemma MatchesAcceptable(c: Config, op: Op, l: Ledger, items: seq<PreparedUser>, u: nat)
    requires LedgerOk(c, l) && Matches(c, op, l, items) && u in Users(items)
    ensures u < c.users && Acceptable(c, op, l.wallets[u]) && !Settled(c, op, l.wallets[u])
  {
    var i :| 0 <= i < |items| && items[i].index == u;
    InstrsAccepted(c, op, l.wallets[u], u, |c.targets| + 1);
    NothingToDo(c, op, l.wallets[u], u);
  }

  /** What landing does, wallet by wallet. */
  ghost predicate LandedOn(c: Config, s: State, tx: Tx, t: State)
    requires LedgerOk(c, s.ledger)
  {
    && t == s.(ledger := t.ledger, landed := s.landed + {tx})
    && Moved(c, tx.op, s.ledger, t.ledger, Users(tx.items))
    && (forall u :: u in Users(tx.items) ==>
          u < c.users && Settled(c, tx.op, t.ledger.wallets[u]) && !Settled(c, tx.op, s.ledger.wallets[u]))
    && (forall k :: 0 <= k < |c.targets| ==> Supply(t.ledger, k) == Supply(s.ledger, k))
  }

  lemma LandingMoves(c: Config, s: State, tx: Tx, ok: bool)
    requires Shape(c, s) && Exclusive(c, s) && Live(s, tx)
    ensures var t := StepLand(c, s, tx, ok); t == s.(failed := s.failed + {tx}) || LandedOn(c, s, tx, t)
  {
    var t := StepLand(c, s, tx, ok);
    if t.landed != s.landed {
      ExecItems(c, tx.op, s.ledger, tx.items);
      forall k | 0 <= k < |c.targets| ensures Supply(t.ledger, k) == Supply(s.ledger, k) {
        ExecConserves(s.ledger, Flatten(tx.items), k);
      }
      forall u | u in Users(tx.items)
        ensures u < c.users && Settled(c, tx.op, t.ledger.wallets[u]) && !Settled(c, tx.op, s.ledger.wallets[u])
      {
        MatchesAcceptable(c, tx.op, s.ledger, tx.items, u);
        TargetSettled(c, tx.op, s.ledger.wallets[u]);
      }
    }
  }

  lemma FewerLive(s: State, t: State, tx: Tx)
    requires t.signed == s.signed && t.height == s.height
    requires s.landed <= t.landed && s.failed <= t.failed && tx in t.landed + t.failed
    ensures forall x :: Live(t, x) ==> Live(s, x) && x != tx
  {
  }

  lemma CoreFailed(c: Config, init: Ledger, s: State, tx: Tx)
    requires LedgerOk(c, init) && Core(c, init, s)
    ensures Core(c, init, s.(failed := s.failed + {tx}))
  {
    FewerLive(s, s.(failed := s.failed + {tx}), tx);
  }

  /** Items over wallets that did not move still say what those wallets need. */
  lemma MatchesElsewhere(c: Config, op: Op, l: Ledger, m: Ledger, items: seq<PreparedUser>, moved: set<nat>)
    requires LedgerOk(c, l) && LedgerOk(c, m) && Matches(c, op, l, items) && Users(items) !! moved
    requires forall u :: 0 <= u < c.users && u !in moved ==> m.wallets[u] == l.wallets[u]
    ensures Matches(c, op, m, items)
  {
    forall i | 0 <= i < |items| ensures m.wallets[items[i].index] == l.wallets[items[i].index] {
      assert items[i].index in Users(items);
    }
  }

  lemma ExclusiveLanded(c: Config, s: State, tx: Tx, t: State)
    requires Shape(c, s) && Exclusive(c, s) && Live(s, tx) && LandedOn(c, s, tx, t)
    ensures Shape(c, t) && Exclusive(c, t)
  {
    FewerLive(s, t, tx);
    forall x | Live(t, x) ensures Matches(c, x.op, t.ledger, x.items) {
      MatchesElsewhere(c, x.op, s.ledger, t.ledger, x.items, Users(tx.items));
    }
  }

  lemma SettledLanded(c: Config, s: State, tx: Tx, t: State)
    requires Shape(c, s) && LandedSettled(c, s) && tx in s.signed && LandedOn(c, s, tx, t)
    requires tx.items != [] ==> tx.op == Side(s.journal.phase)
    ensures Shape(c, t) && LandedSettled(c, t)
  {
    forall x, i | x in t.landed && x.op == Side(t.journal.phase) && 0 <= i < |x.items|
      ensures Settled(c, x.op, t.ledger.wallets[x.items[i].index])
    {
      if x == tx { assert x.items[i].index in Users(tx.items); }
    }
  }

  lemma CoreLanded(c: Config, init: Ledger, s: State, tx: Tx, t: State)
    requires LedgerOk(c, init) && Core(c, init, s) && Live(s, tx) && LandedOn(c, s, tx, t)
    ensures Core(c, init, t)
  {
    FewerLive(s, t, tx);
    ExclusiveLanded(c, s, tx, t);
    SettledLanded(c, s, tx, t);
    forall u | 0 <= u < c.users
      ensures Stage(c, Side(s.journal.phase), init.wallets[u], t.ledger.wallets[u])
    {
      if u in Users(tx.items) {
        StageMoves(c, Side(s.journal.phase), init.wallets[u], s.ledger.wallets[u]);
      }
    }
  }

  lemma ProgressLanded(c: Config, s: State, tx: Tx, t: State)
    requires Shape(c, s) && Exclusive(c, s) && Progress(c, s) && ProcOk(c, s) && Saved(s)
    requires Live(s, tx) && LandedOn(c, s, tx, t) && Shape(c, t)
    ensures Progress(c, t)
  {
    if s.proc.Opened? {
      assert false;
    } else if tx.items != [] {
      forall u | u in Users(tx.items) && Side(s.journal.phase) == Teardown ensures s.skipped <= u {
        var i :| 0 <= i < |tx.items| && tx.items[i].index == u;
      }
    }
  }

  lemma CoveredLanded(c: Config, s: State, tx: Tx, t: State, op: Op, from: nat, to: nat, rest: set<nat>, txs: seq<Tx>)
    requires Shape(c, s) && LandedOn(c, s, tx, t) && LedgerOk(c, t.ledger) && to <= c.users
    requires tx.items != [] ==> tx.op == op
    requires Covered(c, s, op, from, to, rest, txs)
    ensures Covered(c, t, op, from, to, rest, txs)
  {
    if tx.items == [] {
      assert Users(tx.items) == {};
    }
  }

  lemma SigningLanded(c: Config, s: State, tx: Tx, t: State)
    requires Shape(c, s) && Live(s, tx) && LandedOn(c, s, tx, t) && LedgerOk(c, t.ledger)
    requires s.proc.Signing? && SigningOk(c, s)
    requires tx.items != [] ==> tx.op == Side(s.journal.phase)
    ensures SigningOk(c, t)
  {
    var p := s.proc;
    var rest := Concat(p.groups);
    FewerLive(s, t, tx);
    MatchesElsewhere(c, p.op, s.ledger, t.ledger, rest, Users(tx.items));
    CoveredLanded(c, s, tx, t, p.op, p.from, p.to, Users(rest), p.txs);
  }

  lemma ProcLanded(c: Config, s: State, tx: Tx, t: State)
    requires Shape(c, s) && Saved(s) && Exclusive(c, s) && ProcOk(c, s)
    requires Live(s, tx) && LandedOn(c, s, tx, t) && Shape(c, t)
    ensures ProcOk(c, t)
  {
    match s.proc
    case Signing(_, _, _, _, _) => SigningLanded(c, s, tx, t);
    case Awaiting(op, Advance(from, to), txs, _, _, _) => CoveredLanded(c, s, tx, t, op, from, to, {}, txs);
    case Clearing(op, Advance(from, to), txs, _, _) => CoveredLanded(c, s, tx, t, op, from, to, {}, txs);
    case Reading(_, _, _, _, _, _) => assert false;
    case _ =>
  }

  lemma ProcFailed(c: Config, s: State, tx: Tx)
    requires Shape(c, s) && ProcOk(c, s)
    ensures var t := s.(failed := s.failed + {tx}); Shape(c, t) && ProcOk(c, t)
  {
    var t := s.(failed := s.failed + {tx});
    FewerLive(s, t, tx);
    match s.proc
    case Signing(_, _, _, _, _) => assert SigningOk(c, t);
    case Awaiting(op, goto, txs, _, _, _) => assert GotoOk(c, s, op, goto, txs) ==> GotoOk(c, t, op, goto, txs);
    case Clearing(op, goto, txs, _, _) => assert GotoOk(c, s, op, goto, txs) ==> GotoOk(c, t, op, goto, txs);
    case Reading(_, _, _, _, _, _) => assert ReadingOk(c, t);
    case _ =>
  }

  lemma KeepLand(c: Config, init: Ledger, s: State, tx: Tx, ok: bool)
    requires LedgerOk(c, init) && Inv(c, init, s)
    ensures Inv(c, init, StepLand(c, s, tx, ok))
  {
    if Live(s, tx) {
      var t := StepLand(c, s, tx, ok);
      LandingMoves(c, s, tx, ok);
      if t == s.(failed := s.failed + {tx}) {
        CoreFailed(c, init, s, tx);
        ProcFailed(c, s, tx);
      } else {
        CoreLanded(c, init, s, tx, t);
        ProgressLanded(c, s, tx, t);
        ProcLanded(c, s, tx, t);
      }
    }
  }

  // ---- Every run ---------------------------------------------------------

  lemma KeepOpening(c: Config, init: Ledger, s: State, a: Action)
    requires LedgerOk(c, init) && Inv(c, init, s)
    requires a.Start? || a.ReadStatus? || a.ReadHeight? || a.SignFunderAccounts? || a.SavePhase? || a.SaveStart?
    ensures Inv(c, init, Step(c, s, a))
  {
    match a
    case Start(op) => KeepStart(c, init, s, op);
    case ReadStatus => if s.proc.Resolving? { KeepResolve(c, init, s, false); }
    case ReadHeight => if s.proc.Resolving? { KeepResolve(c, init, s, true); }
    case SignFunderAccounts(b, v) => if s.proc.Resolved? { KeepSignFunder(c, init, s, b, v); }
    case SavePhase => if s.proc.Opening? { KeepSavePhase(c, init, s); }
    case SaveStart => KeepSaveStart(c, init, s);
  }

  lemma KeepWindow(c: Config, init: Ledger, s: State, a: Action)
    requires LedgerOk(c, init) && Inv(c, init, s)
    requires a.OpenWindow? || a.ReadSlot? || a.Plan? || a.Sign? || a.Broadcast? || a.Await? || a.Clear? || a.Continue?
    ensures Inv(c, init, Step(c, s, a))
  {
    match a
    case OpenWindow => KeepOpenWindow(c, init, s);
    case ReadSlot => if s.proc.Reading? { KeepReadSlot(c, init, s); }
    case Plan => if s.proc.Reading? { KeepPlan(c, init, s); }
    case Sign(b, v) => if s.proc.Signing? { KeepSign(c, init, s, b, v); }
    case Broadcast => KeepBroadcast(c, init, s);
    case Await(ok) => if s.proc.Awaiting? { KeepAwait(c, init, s, ok); }
    case Clear => if s.proc.Clearing? { KeepClear(c, init, s); }
    case Continue => if s.proc.Clearing? { KeepContinue(c, init, s); }
  }

  lemma KeepInv(c: Config, init: Ledger, s: State, a: Action)
    requires LedgerOk(c, init) && Inv(c, init, s)
    ensures Inv(c, init, Step(c, s, a))
  {
    if a.Start? || a.ReadStatus? || a.ReadHeight? || a.SignFunderAccounts? || a.SavePhase? || a.SaveStart? {
      KeepOpening(c, init, s, a);
    } else if a.Finish? {
      KeepFinish(c, init, s);
    } else if a.Crash? {
      KeepCrash(c, init, s);
    } else if a.Land? {
      KeepLand(c, init, s, a.tx, a.ok);
    } else if a.Tick? {
      KeepTick(c, init, s);
    } else {
      KeepWindow(c, init, s, a);
    }
  }

  lemma {:induction false} EveryRun(c: Config, init: Ledger, height: nat, run: seq<Action>)
    requires LedgerOk(c, init) && c.windowUsers > 0
    ensures Inv(c, init, Run(c, Initial(init, height), run))
  {
    if run == [] {
      assert forall tx :: !Live(Initial(init, height), tx);
    } else {
      EveryRun(c, init, height, run[..|run| - 1]);
      KeepInv(c, init, Run(c, Initial(init, height), run[..|run| - 1]), run[|run| - 1]);
    }
  }

  /**
   Setup is crash-safe. Whatever the schedule, each transaction that could still
   land is saved as pending, no wallet ever holds more than the larger of what it
   started with and its target, and a fixture saved as ready has every wallet
   exactly there, with every account open.
   */
  lemma SetupIsCrashSafe(c: Config, init: Ledger, height: nat, run: seq<Action>)
    requires LedgerOk(c, init) && c.windowUsers > 0
    ensures var s := Run(c, Initial(init, height), run);
            && (forall tx :: Live(s, tx) ==> tx in Signatures(s.journal.pending))
            && (forall u :: 0 <= u < c.users ==> s.ledger.wallets[u].sol <= Max(init.wallets[u].sol, c.solTarget))
            && (forall u, k :: 0 <= u < c.users && 0 <= k < |c.targets| ==>
                  Balance(s.ledger.wallets[u].atas[k]) <= Max(Balance(init.wallets[u].atas[k]), c.targets[k]))
            && (s.journal.phase == Ready ==>
                  && (forall u :: 0 <= u < c.users ==> s.ledger.wallets[u].sol == Max(init.wallets[u].sol, c.solTarget))
                  && (forall u, k :: 0 <= u < c.users && 0 <= k < |c.targets| ==>
                        && s.ledger.wallets[u].atas[k] == Some(Max(Balance(init.wallets[u].atas[k]), c.targets[k]))
                        && (!c.allowAbove ==> s.ledger.wallets[u].atas[k] == Some(c.targets[k]))))
  {
    EveryRun(c, init, height, run);
    var s := Run(c, Initial(init, height), run);
    assert Saved(s);
    if s.journal.phase == Ready {
      forall u | 0 <= u < c.users ensures s.ledger.wallets[u] == Target(c, Setup, init.wallets[u]) {
        assert Settled(c, Setup, s.ledger.wallets[u]);
        TargetIdempotent(c, Setup, init.wallets[u]);
      }
    }
  }

  /** A crash fell between the two saves that open a teardown, with the checkpoint not at zero. */
  ghost predicate SplitBy(s: State, a: Action) {
    a == Crash && s.proc.Opened? && s.proc.op == Teardown && s.journal.nextUser > 0
  }

  ghost predicate Split(c: Config, s: State, run: seq<Action>)
    requires LedgerOk(c, s.ledger)
  {
    run != [] &&
    (SplitBy(Run(c, s, run[..|run| - 1]), run[|run| - 1]) || Split(c, s, run[..|run| - 1]))
  }

  lemma SkippedStep(c: Config, s: State, a: Action)
    requires Shape(c, s) && Progress(c, s) && ProcOk(c, s)
    ensures Step(c, s, a).skipped > 0 <==> SplitBy(s, a) || s.skipped > 0
  {
  }

  lemma {:induction false} SkippedMeansSplit(c: Config, init: Ledger, height: nat, run: seq<Action>)
    requires LedgerOk(c, init) && c.windowUsers > 0
    ensures Run(c, Initial(init, height), run).skipped > 0 <==> Split(c, Initial(init, height), run)
  {
    if run != [] {
      var front := run[..|run| - 1];
      SkippedMeansSplit(c, init, height, front);
      EveryRun(c, init, height, front);
      SkippedStep(c, Run(c, Initial(init, height), front), run[|run| - 1]);
    }
  }

  predicate AllClosed(l: Ledger) {
    forall u, k :: 0 <= u < |l.wallets| && 0 <= k < |l.wallets[u].atas| ==> l.wallets[u].atas[k].None?
  }

  /** The wallets' SOL is back with the funder, if the fixture handed any out. */
  predicate SolSwept(c: Config, l: Ledger) {
    c.solTarget > 0 ==> forall u :: 0 <= u < |l.wallets| ==> l.wallets[u].sol == 0
  }

  lemma TornWithoutSplit(c: Config, init: Ledger, s: State)
    requires LedgerOk(c, init) && Inv(c, init, s) && s.journal.phase == TornDown && s.skipped == 0
    ensures AllClosed(s.ledger) && SolSwept(c, s.ledger)
  {
    forall u, k | 0 <= u < c.users && 0 <= k < |c.targets| ensures s.ledger.wallets[u].atas[k].None? {
      var w := s.ledger.wallets[u];
      assert Settled(c, Teardown, w);
      assert w.atas[k] == Target(c, Teardown, w).atas[k];
    }
    forall u | 0 <= u < c.users && c.solTarget > 0 ensures s.ledger.wallets[u].sol == 0 {
      assert Settled(c, Teardown, s.ledger.wallets[u]);
    }
  }

  lemma TornAfterSplit(c: Config, init: Ledger, s: State)
    requires LedgerOk(c, init) && Inv(c, init, s) && s.journal.phase == TornDown && s.skipped > 0
    ensures c.targets != [] ==> !AllClosed(s.ledger)
    ensures c.solTarget > 0 ==> !SolSwept(c, s.ledger)
  {
    var w := s.ledger.wallets[0];
    assert Settled(c, Setup, w);
    if c.targets != [] { assert w.atas[0] == Target(c, Setup, w).atas[0]; }
  }

  /**
   Tokens are never created or lost. Once a fixture is saved as torn down, every
   derived account is closed and the wallets' SOL swept, with every token back with
   the funder, exactly when no crash separated the two saves that opened the
   teardown, or the fixture had nothing to hand out.
   */
  lemma TeardownReturnsEverything(c: Config, init: Ledger, height: nat, run: seq<Action>)
    requires LedgerOk(c, init) && c.windowUsers > 0
    ensures var s := Run(c, Initial(init, height), run);
            var split := Split(c, Initial(init, height), run);
            && (forall k :: 0 <= k < |c.targets| ==> Supply(s.ledger, k) == Supply(init, k))
            && (s.journal.phase == TornDown ==>
                  && (AllClosed(s.ledger) && SolSwept(c, s.ledger) <==> !split || (c.targets == [] && c.solTarget == 0))
                  && (c.targets != [] ==> (AllClosed(s.ledger) <==> !split))
                  && (c.solTarget > 0 ==> (SolSwept(c, s.ledger) <==> !split))
                  && (AllClosed(s.ledger) ==> forall k :: 0 <= k < |c.targets| ==> s.ledger.funder[k] == Supply(init, k)))
  {
    EveryRun(c, init, height, run);
    SkippedMeansSplit(c, init, height, run);
    var s := Run(c, Initial(init, height), run);
    if s.journal.phase == TornDown {
      if s.skipped > 0 { TornAfterSplit(c, init, s); } else { TornWithoutSplit(c, init, s); }
      if AllClosed(s.ledger) {
        forall k | 0 <= k < |c.targets| ensures s.ledger.funder[k] == Supply(init, k) {
          ClosedHoldNothing(s.ledger.wallets, k);
        }
      }
    }
  }

  // ---- The split that strands a fixture ----------------------------------

  ghost predicate Reaches(c: Config, start: State, s: State)
    requires LedgerOk(c, start.ledger)
  {
    exists run :: Run(c, start, run) == s
  }

  /** One more step of a run under construction. */
  lemma Drive(c: Config, start: State, r: State, a: Action) returns (s: State)
    requires LedgerOk(c, start.ledger) && LedgerOk(c, r.ledger) && Reaches(c, start, r)
    ensures s == Step(c, r, a) && Reaches(c, start, s)
  {
    var run :| Run(c, start, run) == r;
    s := Step(c, r, a);
    assert (run + [a])[..|run|] == run;
    assert Run(c, start, run + [a]) == s;
  }

  /** Signing, landing and confirming the transaction that creates the funder's accounts. */
  lemma DriveFunder(c: Config, start: State, r: State, op: Op, blockhash: nat) returns (s: State)
    requires LedgerOk(c, start.ledger) && LedgerOk(c, r.ledger) && Reaches(c, start, r)
    requires r.proc == Resolved(op) && r.journal.pending == []
    requires Tx(op, [], blockhash, r.height + 1) !in r.signed + r.landed + r.failed
    ensures Reaches(c, start, s)
    ensures var tx := Tx(op, [], blockhash, r.height + 1);
            s == r.(journal := r.journal.(pending := [Pending(tx, op, U64_MAX, tx.lastValid)]),
                    signed := r.signed + {tx}, landed := r.landed + {tx},
                    proc := Awaiting(op, Begin, [tx], 1, [tx], false))
  {
    var tx := Tx(op, [], blockhash, r.height + 1);
    s := Drive(c, start, r, SignFunderAccounts(blockhash, r.height + 1));
    assert s.journal.pending == [Pending(tx, op, U64_MAX, tx.lastValid)];
    s := Drive(c, start, s, Land(tx, true));
    assert s.landed == r.landed + {tx} && s.ledger == r.ledger;
    assert [] + [tx] == [tx];
    s := Drive(c, start, s, Await(true));
  }

  /** Clearing the one confirmed transaction. */
  lemma DriveConfirm(c: Config, start: State, r: State, entry: Pending) returns (s: State)
    requires LedgerOk(c, start.ledger) && LedgerOk(c, r.ledger) && Reaches(c, start, r)
    requires r.journal.pending == [entry]
    requires r.proc == Awaiting(entry.op, Begin, [entry.signature], 1, [entry.signature], false)
    ensures Reaches(c, start, s)
    ensures s == r.(journal := r.journal.(pending := []), proc := Opening(entry.op))
  {
    var tx := entry.signature;
    s := Drive(c, start, r, Await(true));
    assert Without([entry], tx) == [] by { assert [entry][1..] == []; }
    assert [tx][1..] == [];
    s := Drive(c, start, s, Clear);
    assert s.proc == Clearing(entry.op, Begin, [tx], [], false);
    s := Drive(c, start, s, Continue);
  }

  /** Opening a command on an empty pending list: the funder's accounts, and nothing else. */
  lemma DriveOpening(c: Config, start: State, r: State, op: Op, blockhash: nat) returns (s: State)
    requires LedgerOk(c, start.ledger) && LedgerOk(c, r.ledger) && Reaches(c, start, r)
    requires r.proc.Down? && r.journal.pending == [] && MayStart(op, r.journal.phase)
    requires Tx(op, [], blockhash, r.height + 1) !in r.signed + r.landed + r.failed
    ensures Reaches(c, start, s)
    ensures var tx := Tx(op, [], blockhash, r.height + 1);
            s == r.(signed := r.signed + {tx}, landed := r.landed + {tx}, proc := Opening(op))
  {
    s := Drive(c, start, r, Start(op));
    s := Drive(c, start, s, ReadStatus);
    assert s == r.(proc := Resolved(op));
    s := DriveFunder(c, start, s, op, blockhash);
    s := DriveConfirm(c, start, s, s.journal.pending[0]);
  }

  /** One wallet, found at its target of one token. */
  function OneFunded(): (Config, Ledger) {
    (Config(1, 1, 0, [1], false, _ => true, _ => true), Ledger([0], [Wallet(0, [Some(1)])]))
  }

  /** The only window: the wallet is read and needs nothing. */
  lemma DriveRead(c: Config, init: Ledger, r: State) returns (s: State)
    requires (c, init) == OneFunded() && r.ledger == init
    requires r.proc == Windows(Setup, 0) && Reaches(c, Initial(init, 0), r)
    ensures Reaches(c, Initial(init, 0), s)
    ensures s == r.(proc := Reading(Setup, 0, 1, [PreparedUser(0, [])], 0, []))
  {
    var start := Initial(init, 0);
    s := Drive(c, start, r, OpenWindow);
    s := Drive(c, start, s, ReadSlot);
    assert s.proc.sofar == [] && s.proc.slot == 1;
    s := Drive(c, start, s, ReadSlot);
    assert s.proc.sofar == [] && s.proc.slot == 2;
    s := Drive(c, start, s, ReadSlot);
    assert s.proc.done == [PreparedUser(0, [])];
  }

  lemma DriveWindow(c: Config, init: Ledger, r: State) returns (s: State)
    requires (c, init) == OneFunded() && r.ledger == init
    requires r.proc == Windows(Setup, 0) && Reaches(c, Initial(init, 0), r)
    ensures Reaches(c, Initial(init, 0), s)
    ensures s == r.(proc := Clearing(Setup, Advance(0, 1), [], [], false))
  {
    var start := Initial(init, 0);
    s := DriveRead(c, init, r);
    s := Drive(c, start, s, Plan);
    assert s == r.(proc := Signing(Setup, 0, 1, [], []));
    s := Drive(c, start, s, Broadcast);
    s := Drive(c, start, s, Await(true));
  }

  lemma DriveReady(c: Config, init: Ledger) returns (s: State)
    requires (c, init) == OneFunded()
    ensures LedgerOk(c, init) && Reaches(c, Initial(init, 0), s)
    ensures s.journal == Journal(Ready, 1, []) && s.proc.Down? && s.ledger == init && s.height == 0
    ensures forall tx :: tx in s.signed + s.landed + s.failed ==> tx.op == Setup
  {
    var start := Initial(init, 0);
    assert Run(c, start, []) == start;
    s := DriveOpening(c, start, start, Setup, 0);
    s := Drive(c, start, s, SavePhase);
    s := Drive(c, start, s, SaveStart);
    s := DriveWindow(c, init, s);
    s := Drive(c, start, s, Continue);
    s := Drive(c, start, s, Finish);
  }

  /**
   A fixture saved as ready, whose teardown is then cut between its two opening
   saves: the resumed teardown reports success and leaves the account open.
   */
  lemma SplitTeardownStrands(c: Config, init: Ledger)
    requires (c, init) == OneFunded()
    ensures LedgerOk(c, init)
    ensures exists run :: var s := Run(c, Initial(init, 0), run);
                          s.journal.phase == TornDown && !AllClosed(s.ledger)
  {
    var start := Initial(init, 0);
    var s := DriveReady(c, init);
    s := DriveOpening(c, start, s, Teardown, 0);
    s := Drive(c, start, s, SavePhase);
    s := Drive(c, start, s, Crash);
    assert s.journal == Journal(TearingDown, 1, []);
    s := DriveOpening(c, start, s, Teardown, 1);
    s := Drive(c, start, s, SavePhase);
    s := Drive(c, start, s, Finish);
    assert s.ledger.wallets[0].atas[0] == Some(1);
    var run :| Run(c, start, run) == s;
  }
}
