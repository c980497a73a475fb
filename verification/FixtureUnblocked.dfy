/**
 The other half: without a failed transaction in the saved pending list, some
 continuation gets past the list, so exactly those transactions block a fixture.
 */
module FixtureUnblocked {
  import opened Common
  import opened FixtureLedger
  import opened FixtureStore
  import opened FixtureProtocol
  import opened FixtureSafety
  import opened FixtureBlocked

  /** Some continuation of `s` opens the command `op`. */
  ghost predicate CanOpen(c: Config, s: State, op: Op)
    requires LedgerOk(c, s.ledger)
  {
    exists more :: Run(c, s, more).proc == Opening(op)
  }

  /** No saved pending transaction failed on the cluster. */
  ghost predicate NoneFailed(s: State) {
    forall tx :: tx in Signatures(s.journal.pending) ==> tx !in s.failed
  }

  // ---- Waiting -----------------------------------------------------------

  lemma {:induction false} DriveTicks(c: Config, start: State, r: State, height: nat) returns (s: State)
    requires LedgerOk(c, start.ledger) && LedgerOk(c, r.ledger) && Reaches(c, start, r)
    ensures Reaches(c, start, s) && s == r.(height := Max(r.height, height))
    decreases height - r.height
  {
    s := r;
    if r.height < height {
      s := Drive(c, start, r, Tick);
      s := DriveTicks(c, start, s, height);
    }
  }

  function LastExpiry(pending: seq<Pending>): (h: nat)
    ensures forall i :: 0 <= i < |pending| ==> pending[i].lastValid <= h
  {
    if pending == [] then 0
    else Max(LastExpiry(pending[..|pending| - 1]), pending[|pending| - 1].lastValid)
  }

  /** A blockhash used by none of these transactions. */
  ghost function FreshHash(txs: set<Tx>): (b: nat)
    ensures forall tx :: tx in txs ==> tx.blockhash < b
  {
    if txs == {} then 0
    else
      var tx :| tx in txs;
      var rest := FreshHash(txs - {tx});
      assert forall t :: t in txs ==> t == tx || t in txs - {tx};
      Max(tx.blockhash + 1, rest)
  }

  // ---- Resolving the whole list ------------------------------------------

  /** What is left of the pass: every saved signature is still to come, and each entry landed or expired. */
  ghost predicate Passable(s: State, op: Op, todo: seq<Pending>) {
    && s.proc == Resolving(op, todo, false)
    && (forall tx :: tx in Signatures(s.journal.pending) ==> tx in Signatures(todo))
    && (forall i :: 0 <= i < |todo| ==> todo[i].signature !in s.failed && todo[i].lastValid <= s.height)
  }

  lemma DropFirst(s: State, op: Op, todo: seq<Pending>)
    requires Passable(s, op, todo) && todo != []
    ensures Passable(s.(journal := ClearPending(s.journal, todo[0].signature), proc := Resolving(op, todo[1..], false)),
                     op, todo[1..])
  {
    var sig := todo[0].signature;
    WithoutRemovesExactly(s.journal.pending, sig);
    forall tx | tx in Signatures(s.journal.pending) && tx != sig ensures tx in Signatures(todo[1..]) {
      var p :| p in todo && p.signature == tx;
      assert p in todo[1..];
    }
  }

  lemma DriveEntry(c: Config, start: State, r: State, op: Op, todo: seq<Pending>) returns (s: State)
    requires LedgerOk(c, start.ledger) && LedgerOk(c, r.ledger) && Reaches(c, start, r)
    requires Passable(r, op, todo) && todo != []
    ensures Reaches(c, start, s)
    ensures s == r.(journal := ClearPending(r.journal, todo[0].signature), proc := Resolving(op, todo[1..], false))
  {
    s := Drive(c, start, r, ReadStatus);
    if todo[0].signature !in r.landed {
      s := Drive(c, start, s, ReadHeight);
    }
  }

  /** The pass goes through to an empty pending list. */
  lemma {:induction false} DriveList(c: Config, start: State, r: State, op: Op, todo: seq<Pending>) returns (s: State)
    requires LedgerOk(c, start.ledger) && LedgerOk(c, r.ledger) && Reaches(c, start, r)
    requires Passable(r, op, todo)
    ensures Reaches(c, start, s)
    ensures s == r.(journal := r.journal.(pending := []), proc := Resolved(op))
    decreases |todo|
  {
    if todo == [] {
      s := Drive(c, start, r, ReadStatus);
      ListedIsSaved(r.journal.pending);
    } else {
      DropFirst(r, op, todo);
      s := DriveEntry(c, start, r, op, todo);
      s := DriveList(c, start, s, op, todo[1..]);
    }
  }

  lemma ListedIsSaved(pending: seq<Pending>)
    ensures pending != [] ==> pending[0].signature in Signatures(pending)
  {
  }

  /** A stopped process whose pending transactions all landed or may expire opens any command it may start. */
  lemma DownCanOpen(c: Config, start: State, r: State, op: Op)
    requires LedgerOk(c, start.ledger) && LedgerOk(c, r.ledger) && Reaches(c, start, r)
    requires r.proc.Down? && MayStart(op, r.journal.phase) && NoneFailed(r)
    ensures CanOpen(c, start, op)
  {
    var pending := r.journal.pending;
    var s := DriveTicks(c, start, r, LastExpiry(pending));
    s := Drive(c, start, s, Start(op));
    assert Passable(s, op, pending) by {
      assert forall i :: 0 <= i < |pending| ==> pending[i].signature in Signatures(pending);
    }
    s := DriveList(c, start, s, op, pending);
    var hash := FreshHash(s.signed + s.landed + s.failed);
    s := DriveFunder(c, start, s, op, hash);
    s := DriveConfirm(c, start, s, s.journal.pending[0]);
    var more :| Run(c, start, more) == s;
  }

  // ---- Stopping the process ----------------------------------------------

  lemma SelfReaches(c: Config, s: State)
    requires LedgerOk(c, s.ledger)
    ensures Reaches(c, s, s)
  {
    assert Run(c, s, []) == s;
  }

  /** The exception is real: the height is read once the entry has expired, and the entry is dropped. */
  lemma AskedTooEarlyGetsPast(c: Config, s: State, tx: Tx) returns (t: State)
    requires LedgerOk(c, s.ledger) && AskedTooEarly(s.proc, tx)
    ensures LedgerOk(c, t.ledger) && Reaches(c, s, t) && t.proc.Down? && t.journal == ClearPending(s.journal, tx)
    ensures t.failed == s.failed
  {
    SelfReaches(c, s);
    t := DriveTicks(c, s, s, s.proc.todo[0].lastValid);
    t := Drive(c, s, t, ReadHeight);
    t := Drive(c, s, t, Crash);
  }

  /** A command restarted on the signed transaction has read its status, and not yet the height. */
  lemma DriveAsked(c: Config, init: Ledger, tx: Tx) returns (s: State)
    requires (c, init) == OneFunded() && tx == Tx(Setup, [], 0, 1)
    ensures LedgerOk(c, init) && LedgerOk(c, s.ledger) && Reaches(c, Initial(init, 0), s)
    ensures AskedTooEarly(s.proc, tx) && Live(s, tx) && tx in Signatures(s.journal.pending)
  {
    var start := Initial(init, 0);
    s := DriveSigned(c, init, tx);
    ListedIsSaved(s.journal.pending);
    s := Drive(c, start, s, Crash);
    s := Drive(c, start, s, Start(Setup));
    s := Drive(c, start, s, ReadStatus);
  }

  /** And it comes up: only then does the transaction fail. */
  lemma AskedTooEarlyHappens(c: Config, init: Ledger)
    requires (c, init) == OneFunded()
    ensures LedgerOk(c, init)
    ensures exists run, tx :: var s := Run(c, Initial(init, 0), run);
              tx in s.failed && tx in Signatures(s.journal.pending) && AskedTooEarly(s.proc, tx)
  {
    var start, tx := Initial(init, 0), Tx(Setup, [], 0, 1);
    var s := DriveAsked(c, init, tx);
    s := Drive(c, start, s, Land(tx, false));
    var run :| Run(c, start, run) == s;
  }

  /** If every failed pending transaction was asked about too early, the process can be stopped with none left. */
  lemma StopWithNoneFailed(c: Config, s: State) returns (t: State)
    requires LedgerOk(c, s.ledger) && AllAskedTooEarly(s)
    ensures LedgerOk(c, t.ledger) && Reaches(c, s, t)
    ensures t.proc.Down? && NoneFailed(t) && t.journal.phase == s.journal.phase
  {
    if tx :| tx in Signatures(s.journal.pending) && tx in s.failed {
      t := AskedTooEarlyGetsPast(c, s, tx);
      WithoutRemovesExactly(s.journal.pending, tx);
    } else {
      SelfReaches(c, s);
      t := Drive(c, s, s, Crash);
    }
  }

  // ---- Exactly -----------------------------------------------------------

  /** Every failed pending transaction had its status read just before it failed. */
  ghost predicate AllAskedTooEarly(s: State) {
    forall tx :: tx in Signatures(s.journal.pending) && tx in s.failed ==> AskedTooEarly(s.proc, tx)
  }

  ghost predicate GetsPast(c: Config, s: State)
    requires LedgerOk(c, s.ledger)
  {
    exists more :: Run(c, s, more).proc.Opening?
  }

  lemma OpensMeansPast(c: Config, s: State, op: Op)
    requires LedgerOk(c, s.ledger) && CanOpen(c, s, op)
    ensures GetsPast(c, s)
  {
    var more :| Run(c, s, more).proc == Opening(op);
    assert Run(c, s, more).proc.Opening?;
  }

  lemma Unblocked(c: Config, s: State)
    requires LedgerOk(c, s.ledger) && s.journal.phase != TornDown && AllAskedTooEarly(s)
    ensures GetsPast(c, s)
  {
    var t := StopWithNoneFailed(c, s);
    DownCanOpen(c, s, t, Teardown);
    OpensMeansPast(c, s, Teardown);
  }

  /**
   At every point of every run of a fixture that is not torn down: some continuation
   gets a command past the pending list if and only if every failed transaction in
   that list had its status read just before it failed.
   */
  lemma BlockedExactly(c: Config, init: Ledger, height: nat, run: seq<Action>)
    requires LedgerOk(c, init) && c.windowUsers > 0
    requires Run(c, Initial(init, height), run).journal.phase != TornDown
    ensures var s := Run(c, Initial(init, height), run); GetsPast(c, s) <==> AllAskedTooEarly(s)
  {
    var s := Run(c, Initial(init, height), run);
    if AllAskedTooEarly(s) {
      Unblocked(c, s);
    } else {
      var tx :| tx in Signatures(s.journal.pending) && tx in s.failed && !AskedTooEarly(s.proc, tx);
      forall more ensures !Run(c, s, more).proc.Opening? {
        FailedPendingBlocks(c, init, height, run, tx, more);
      }
    }
  }

  /** A stopped process can open a command it may start if and only if no pending transaction failed. */
  lemma DownOpensExactly(c: Config, init: Ledger, height: nat, run: seq<Action>, op: Op)
    requires LedgerOk(c, init) && c.windowUsers > 0
    requires var s := Run(c, Initial(init, height), run); s.proc.Down? && MayStart(op, s.journal.phase)
    ensures var s := Run(c, Initial(init, height), run); CanOpen(c, s, op) <==> NoneFailed(s)
  {
    var s := Run(c, Initial(init, height), run);
    if NoneFailed(s) {
      SelfReaches(c, s);
      DownCanOpen(c, s, s, op);
    } else {
      var tx :| tx in Signatures(s.journal.pending) && tx in s.failed;
      forall more ensures Run(c, s, more).proc != Opening(op) {
        FailedPendingBlocks(c, init, height, run, tx, more);
      }
    }
  }
}
