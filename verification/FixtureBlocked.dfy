/**
 A pending transaction that the cluster executed with an error is never cleared
 (`resolve_pending` in rust/bench/src/fixtures.rs): as long as the cluster reports
 it, no command gets past the pending list again.
 */
module FixtureBlocked {
  import opened Common
  import opened FixtureLedger
  import opened FixtureStore
  import opened FixtureProtocol
  import opened FixtureSafety

  predicate Lists(pending: seq<Pending>, tx: Tx) {
    exists p :: p in pending && p.signature == tx
  }

  /** The process has not got past `tx`: it is down, still to ask about it, or bound to fail on it. */
  predicate Held(p: Proc, tx: Tx) {
    match p
    case Down => true
    case Resolving(_, todo, asked) => Lists(todo, tx) && (todo[0].signature == tx ==> !asked)
    case Signing(_, _, _, _, txs) => tx in txs
    case Awaiting(_, _, txs, seen, oks, err) => tx !in oks && (err || exists i :: seen <= i < |txs| && txs[i] == tx)
    case Clearing(_, _, _, oks, err) => tx !in oks && err
    case _ => false
  }

  /** `tx` failed on the cluster, is in the saved pending list, and holds the process. */
  predicate Blocked(s: State, tx: Tx) {
    tx in s.failed && tx !in s.landed && Lists(s.journal.pending, tx) && Held(s.proc, tx)
  }

  lemma WithoutLists(pending: seq<Pending>, sig: Tx, tx: Tx)
    requires Lists(pending, tx) && sig != tx
    ensures Lists(Without(pending, sig), tx)
  {
    var p :| p in pending && p.signature == tx;
    WithoutMembers(pending, sig);
    assert p in Without(pending, sig);
  }

  lemma AddedLists(j: Journal, p: Pending, tx: Tx)
    requires Lists(j.pending, tx)
    ensures Lists(AddPending(j, p).pending, tx)
  {
    if p.signature == tx {
      assert p in AddPending(j, p).pending;
    } else {
      WithoutLists(j.pending, p.signature, tx);
      var q :| q in Without(j.pending, p.signature) && q.signature == tx;
      assert q in AddPending(j, p).pending;
    }
  }

  lemma RestLists(todo: seq<Pending>, tx: Tx)
    requires Lists(todo, tx) && todo[0].signature != tx
    ensures Lists(todo[1..], tx)
  {
    var p :| p in todo && p.signature == tx;
    var i :| 0 <= i < |todo| && todo[i] == p;
    assert todo[1..][i - 1] == p;
  }

  lemma KeepResolving(s: State, tx: Tx, height: bool)
    requires Blocked(s, tx) && s.proc.Resolving?
    ensures Blocked(StepResolve(s, height), tx) && StepResolve(s, height).journal.phase == s.journal.phase
  {
    var sig := s.proc.todo[0].signature;
    if sig != tx {
      WithoutLists(s.journal.pending, sig, tx);
      RestLists(s.proc.todo, tx);
    }
  }

  lemma KeepSigning(s: State, tx: Tx, blockhash: nat, lastValid: nat)
    requires Blocked(s, tx) && s.proc.Signing?
    ensures Blocked(StepSign(s, blockhash, lastValid), tx)
    ensures StepSign(s, blockhash, lastValid).journal.phase == s.journal.phase
  {
    var p := s.proc;
    if p.groups != [] && p.groups[0] != [] {
      var other := Tx(p.op, p.groups[0], blockhash, lastValid);
      AddedLists(s.journal, Pending(other, other.op, p.groups[0][0].index, other.lastValid), tx);
    }
  }

  lemma KeepClearing(s: State, tx: Tx)
    requires Blocked(s, tx) && s.proc.Clearing?
    ensures Blocked(StepClear(s), tx) && StepClear(s).journal.phase == s.journal.phase
  {
    if s.proc.oks != [] { WithoutLists(s.journal.pending, s.proc.oks[0], tx); }
  }

  lemma KeepBlocked(c: Config, s: State, tx: Tx, a: Action)
    requires LedgerOk(c, s.ledger) && Blocked(s, tx)
    ensures Blocked(Step(c, s, a), tx) && Step(c, s, a).journal.phase == s.journal.phase
  {
    match a
    case ReadStatus => if s.proc.Resolving? { KeepResolving(s, tx, false); }
    case ReadHeight => if s.proc.Resolving? { KeepResolving(s, tx, true); }
    case Sign(blockhash, lastValid) => if s.proc.Signing? { KeepSigning(s, tx, blockhash, lastValid); }
    case Clear => if s.proc.Clearing? { KeepClearing(s, tx); }
    case Broadcast =>
      if s.proc.Signing? && s.proc.groups == [] {
        var i :| 0 <= i < |s.proc.txs| && s.proc.txs[i] == tx;
      }
    case _ =>
  }

  /**
   Whatever happens afterwards, restarts included, the transaction stays pending, no
   command opens a window or completes, and the saved phase never changes again.
   */
  lemma {:induction false} BlockedForGood(c: Config, s: State, tx: Tx, run: seq<Action>)
    requires LedgerOk(c, s.ledger) && Blocked(s, tx)
    ensures var t := Run(c, s, run);
            Blocked(t, tx) && t.journal.phase == s.journal.phase && !t.proc.Windows? && !t.proc.Opening?
  {
    if run != [] {
      BlockedForGood(c, s, tx, run[..|run| - 1]);
      KeepBlocked(c, Run(c, s, run[..|run| - 1]), tx, run[|run| - 1]);
    }
  }

  // ---- Every run ---------------------------------------------------------

  lemma {:induction false} NeverBoth(c: Config, s: State, run: seq<Action>)
    requires LedgerOk(c, s.ledger) && s.landed !! s.failed
    ensures Run(c, s, run).landed !! Run(c, s, run).failed
  {
    if run != [] { NeverBoth(c, s, run[..|run| - 1]); }
  }

  /**
   The one way past: the status was read before the transaction failed, so only the
   block height is still to be asked for.
   */
  predicate AskedTooEarly(p: Proc, tx: Tx) {
    p.Resolving? && p.asked && p.todo != [] && p.todo[0].signature == tx
  }

  lemma HeldByInvariant(c: Config, s: State, tx: Tx)
    requires Shape(c, s) && ProcOk(c, s) && tx !in s.landed && tx in Signatures(s.journal.pending)
    ensures Held(s.proc, tx) || AskedTooEarly(s.proc, tx)
  {
    match s.proc
    case Resolving(_, todo, _) =>
      assert tx in Signatures(todo);
      var p :| p in todo && p.signature == tx;
    case Awaiting(_, _, txs, seen, oks, err) =>
      assert tx in txs;
      if !err {
        assert forall j :: 0 <= j < seen ==> txs[j] == oks[j];
        var i :| 0 <= i < |txs| && txs[i] == tx;
      }
    case _ =>
  }

  /**
   At every point of every run: a failed transaction in the saved pending list blocks
   the fixture for good. However it goes on, the transaction stays pending, and the
   saved phase stays what it is, so the fixture neither becomes ready nor is torn
   down, and no window is opened. The one exception is a resolving pass that read the
   status just before the failure.
   */
  lemma FailedPendingBlocks(c: Config, init: Ledger, height: nat, run: seq<Action>, tx: Tx, more: seq<Action>)
    requires LedgerOk(c, init) && c.windowUsers > 0
    requires var s := Run(c, Initial(init, height), run);
             tx in s.failed && tx in Signatures(s.journal.pending) && !AskedTooEarly(s.proc, tx)
    ensures var s := Run(c, Initial(init, height), run);
            var t := Run(c, s, more);
            && tx in Signatures(t.journal.pending) && t.journal.phase == s.journal.phase
            && !t.proc.Windows? && !t.proc.Opening? && (s.proc.Down? ==> t.proc.Down? || t.proc.Resolving?)
  {
    var s := Run(c, Initial(init, height), run);
    EveryRun(c, init, height, run);
    NeverBoth(c, Initial(init, height), run);
    HeldByInvariant(c, s, tx);
    var p :| p in s.journal.pending && p.signature == tx;
    BlockedForGood(c, s, tx, more);
    if s.proc.Down? { StaysAtPending(c, s, tx, more); }
    var q :| q in Run(c, s, more).journal.pending && q.signature == tx;
  }

  lemma {:induction false} StaysAtPending(c: Config, s: State, tx: Tx, run: seq<Action>)
    requires LedgerOk(c, s.ledger) && Blocked(s, tx) && s.proc.Down?
    ensures var t := Run(c, s, run);
            Blocked(t, tx) && t.journal.phase == s.journal.phase && (t.proc.Down? || t.proc.Resolving?)
  {
    if run != [] {
      StaysAtPending(c, s, tx, run[..|run| - 1]);
      KeepBlocked(c, Run(c, s, run[..|run| - 1]), tx, run[|run| - 1]);
    }
  }

  /** The first command signs the transaction that creates the funder's accounts. */
  lemma DriveSigned(c: Config, init: Ledger, tx: Tx) returns (s: State)
    requires (c, init) == OneFunded() && tx == Tx(Setup, [], 0, 1)
    ensures LedgerOk(c, init) && Reaches(c, Initial(init, 0), s)
    ensures s.journal.pending == [Pending(tx, Setup, U64_MAX, 1)] && s.ledger == init && Live(s, tx)
    ensures s.journal.phase == SettingUp
  {
    var start := Initial(init, 0);
    assert Run(c, start, []) == start;
    s := Drive(c, start, start, Start(Setup));
    s := Drive(c, start, s, ReadStatus);
    s := Drive(c, start, s, SignFunderAccounts(0, 1));
  }

  /** A run that gets there: that transaction fails on the cluster, and the process dies. */
  lemma FailureCanBlock(c: Config, init: Ledger)
    requires (c, init) == OneFunded()
    ensures LedgerOk(c, init)
    ensures exists run, tx :: var s := Run(c, Initial(init, 0), run);
              s.proc.Down? && tx in s.failed && tx in Signatures(s.journal.pending)
  {
    var start, tx := Initial(init, 0), Tx(Setup, [], 0, 1);
    var s := DriveSigned(c, init, tx);
    var entry := s.journal.pending[0];
    s := Drive(c, start, s, Land(tx, false));
    s := Drive(c, start, s, Crash);
    assert entry in s.journal.pending && tx in Signatures(s.journal.pending);
    var run :| Run(c, start, run) == s;
  }
}
