/**
 The durable fixture journal (`FixtureJournal` in rust/bench/src/journal.rs) and
 the pass over its pending list that every command starts with.
 */
module FixtureStore {
  import opened Common
  import opened FixtureLedger

  datatype Phase = SettingUp | Ready | TearingDown | TornDown

  /** A signature stands for the signed transaction: equal bytes sign alike. */
  datatype Pending = Pending(signature: Tx, op: Op, userIndex: nat, lastValid: nat)

  datatype Journal = Journal(phase: Phase, nextUser: nat, pending: seq<Pending>)

  // ---- The journal as a value -------------------------------------------

  function Without(pending: seq<Pending>, sig: Tx): seq<Pending> {
    if pending == [] then []
    else (if pending[0].signature == sig then [] else [pending[0]]) + Without(pending[1..], sig)
  }

  ghost function Signatures(pending: seq<Pending>): set<Tx> {
    set p | p in pending :: p.signature
  }

  ghost predicate Unique(pending: seq<Pending>) {
    forall i, j :: 0 <= i < j < |pending| ==> pending[i].signature != pending[j].signature
  }

  function AddPending(j: Journal, p: Pending): Journal {
    j.(pending := Without(j.pending, p.signature) + [p])
  }

  function ClearPending(j: Journal, sig: Tx): Journal {
    j.(pending := Without(j.pending, sig))
  }

  lemma {:induction false} WithoutMembers(pending: seq<Pending>, sig: Tx)
    ensures forall p :: p in Without(pending, sig) <==> p in pending && p.signature != sig
  {
    if pending != [] {
      WithoutMembers(pending[1..], sig);
      assert pending == [pending[0]] + pending[1..];
    }
  }

  lemma {:induction false} WithoutStaysUnique(pending: seq<Pending>, sig: Tx)
    requires Unique(pending)
    ensures Unique(Without(pending, sig))
  {
    if pending != [] {
      var rest := Without(pending[1..], sig);
      WithoutStaysUnique(pending[1..], sig);
      WithoutMembers(pending[1..], sig);
      forall i | 0 <= i < |rest| ensures rest[i].signature != pending[0].signature {
        assert rest[i] in rest;
        var m :| 0 <= m < |pending[1..]| && pending[1..][m] == rest[i];
        assert pending[m + 1] == rest[i];
      }
    }
  }

  lemma WithoutRemovesExactly(pending: seq<Pending>, sig: Tx)
    ensures Signatures(Without(pending, sig)) == Signatures(pending) - {sig}
    ensures Unique(pending) ==> Unique(Without(pending, sig))
  {
    WithoutMembers(pending, sig);
    if Unique(pending) { WithoutStaysUnique(pending, sig); }
    forall x | x in Signatures(pending) - {sig} ensures x in Signatures(Without(pending, sig)) {
      var p :| p in pending && p.signature == x;
      assert p in Without(pending, sig);
    }
  }

  /** A saved signature is there once, however often it is saved; clearing takes away it alone. */
  lemma PendingIsASet(j: Journal, p: Pending)
    ensures Signatures(AddPending(j, p).pending) == Signatures(j.pending) + {p.signature}
    ensures Signatures(ClearPending(j, p.signature).pending) == Signatures(j.pending) - {p.signature}
    ensures Unique(j.pending) ==>
              Unique(AddPending(j, p).pending) && Unique(ClearPending(j, p.signature).pending)
    ensures forall q :: q in AddPending(j, p).pending ==> q == p || q in j.pending
    ensures forall q :: q in ClearPending(j, p.signature).pending ==> q in j.pending
  {
    WithoutRemovesExactly(j.pending, p.signature);
    WithoutMembers(j.pending, p.signature);
    var w := Without(j.pending, p.signature);
    var all := AddPending(j, p).pending;
    assert forall q :: q in all <==> q in w || q == p;
    forall x | x in Signatures(j.pending) + {p.signature} ensures x in Signatures(all) {
      if x == p.signature {
        assert p in all;
      } else {
        var q :| q in w && q.signature == x;
        assert q in all;
      }
    }
    forall i | 0 <= i < |w| ensures w[i].signature != p.signature {
      assert w[i] in w;
    }
  }

  /** A finished fixture is reconciled from the first wallet again. */
  function SetupResumeIndex(phase: Phase, nextUser: nat): nat {
    if phase == Ready then 0 else nextUser
  }

  // ---- Resolving the pending list ---------------------------------------

  datatype Status = Unknown | Landed | Failed

  /**
   What the cluster says of one signature, the block height read if it says
   nothing, and whether the save that clears the entry goes through.
   */
  datatype Answer = Answer(status: Status, height: nat, written: bool)

  predicate Resolves(p: Pending, a: Answer) {
    a.status.Landed? || (a.status.Unknown? && a.height >= p.lastValid)
  }

  /** The first entry that neither landed nor expired, or whose clearing is not saved. */
  function FirstStop(pending: seq<Pending>, answers: seq<Answer>): (k: nat)
    requires |answers| == |pending|
    ensures k <= |pending|
    ensures forall i :: 0 <= i < k ==> Resolves(pending[i], answers[i]) && answers[i].written
    ensures k < |pending| ==> !Resolves(pending[k], answers[k]) || !answers[k].written
  {
    if pending == [] || !Resolves(pending[0], answers[0]) || !answers[0].written then 0
    else 1 + FirstStop(pending[1..], answers[1..])
  }

  /** The journal once the first `n` entries of `pending` are cleared. */
  function Cleared(j: Journal, pending: seq<Pending>, n: nat): Journal
    requires n <= |pending|
  {
    if n == 0 then j else ClearPending(Cleared(j, pending, n - 1), pending[n - 1].signature)
  }

  lemma {:induction false} WithoutAbsent(pending: seq<Pending>, sig: Tx)
    requires forall i :: 0 <= i < |pending| ==> pending[i].signature != sig
    ensures Without(pending, sig) == pending
  {
    if pending != [] { WithoutAbsent(pending[1..], sig); }
  }

  /** Clearing the first `n` entries leaves none of their signatures and all the others. */
  lemma {:induction false} ClearedRemoves(j: Journal, pending: seq<Pending>, n: nat)
    requires n <= |pending|
    ensures Cleared(j, pending, n) == j.(pending := Cleared(j, pending, n).pending)
    ensures forall p :: p in Cleared(j, pending, n).pending <==>
              p in j.pending && forall i :: 0 <= i < n ==> pending[i].signature != p.signature
  {
    if n > 0 {
      ClearedRemoves(j, pending, n - 1);
      WithoutMembers(Cleared(j, pending, n - 1).pending, pending[n - 1].signature);
    }
  }

  /** Without duplicates, that is dropping the first `n` entries. */
  lemma {:induction false} ClearedDrops(j: Journal, n: nat)
    requires Unique(j.pending) && n <= |j.pending|
    ensures Cleared(j, j.pending, n) == j.(pending := j.pending[n..])
  {
    if n > 0 {
      ClearedDrops(j, n - 1);
      var rest := j.pending[n..];
      assert j.pending[n - 1..] == [j.pending[n - 1]] + rest;
      forall m | 0 <= m < |rest| ensures rest[m].signature != j.pending[n - 1].signature {
        assert rest[m] == j.pending[n + m];
      }
      WithoutAbsent(rest, j.pending[n - 1].signature);
    } else {
      assert j.pending[0..] == j.pending;
    }
  }

  /** Clearing every entry of its own list empties a journal, duplicates or not. */
  lemma ClearedAll(j: Journal)
    ensures Cleared(j, j.pending, |j.pending|).pending == []
  {
    var rest := Cleared(j, j.pending, |j.pending|).pending;
    ClearedRemoves(j, j.pending, |j.pending|);
    assert forall p :: p !in rest;
  }

  /**
   The journal object: `state` in memory, `disk` what a crash leaves behind. Each
   operation changes memory and then replaces the file; `written` says whether
   that replacement went through.
   */
  class FixtureJournal {
    var state: Journal
    var disk: Journal

    constructor Create(initial: Journal)
      ensures state == disk == initial
    {
      state, disk := initial, initial;
    }

    /** What a process started after a crash sees. */
    constructor Load(saved: Journal)
      ensures state == disk == saved
    {
      state, disk := saved, saved;
    }

    method Save(written: bool) returns (ok: bool)
      modifies this`disk
      ensures ok == written
      ensures disk == if written then state else old(disk)
    {
      if written { disk := state; }
      ok := written;
    }

    method SetPhase(phase: Phase, written: bool) returns (ok: bool)
      modifies this
      ensures state == old(state).(phase := phase) && ok == written
      ensures disk == if written then state else old(disk)
    {
      state := state.(phase := phase);
      ok := Save(written);
    }

    method Checkpoint(nextUser: nat, written: bool) returns (ok: bool)
      modifies this
      ensures state == old(state).(nextUser := nextUser) && ok == written
      ensures disk == if written then state else old(disk)
    {
      state := state.(nextUser := nextUser);
      ok := Save(written);
    }

    /** `retain`: keep the entries whose signature differs. */
    method Retain(sig: Tx)
      modifies this`state
      ensures state == ClearPending(old(state), sig)
    {
      var kept: seq<Pending> := [];
      var pending := state.pending;
      assert pending[0..] == pending;
      for i := 0 to |pending|
        invariant state == old(state)
        invariant kept + Without(pending[i..], sig) == Without(pending, sig)
      {
        assert pending[i..][1..] == pending[i + 1..];
        if pending[i].signature != sig {
          kept := kept + [pending[i]];
        }
      }
      assert pending[|pending|..] == [];
      state := state.(pending := kept);
    }

    method AddPendingTransaction(p: Pending, written: bool) returns (ok: bool)
      modifies this
      ensures state == AddPending(old(state), p) && ok == written
      ensures Signatures(state.pending) == Signatures(old(state.pending)) + {p.signature}
      ensures old(Unique(state.pending)) ==> Unique(state.pending)
      ensures disk == if written then state else old(disk)
    {
      PendingIsASet(state, p);
      Retain(p.signature);
      state := state.(pending := state.pending + [p]);
      ok := Save(written);
    }

    method ClearPendingTransaction(sig: Tx, written: bool) returns (ok: bool)
      modifies this
      ensures state == ClearPending(old(state), sig) && ok == written
      ensures Signatures(state.pending) == Signatures(old(state.pending)) - {sig}
      ensures old(Unique(state.pending)) ==> Unique(state.pending)
      ensures disk == if written then state else old(disk)
    {
      WithoutRemovesExactly(state.pending, sig);
      Retain(sig);
      ok := Save(written);
    }

    /**
     Succeeds exactly when every saved transaction has landed or can no longer
     land and every clearing is saved, and then leaves none. Otherwise it stops at
     the first entry that is not resolved or not saved: memory has cleared those
     before it, and that one too if only its save failed; the file holds the last
     clearing that was saved.
     */
    method ResolvePending(answers: seq<Answer>) returns (ok: bool)
      requires |answers| == |state.pending|
      modifies this
      ensures ok <==> forall i :: 0 <= i < |answers| ==> Resolves(old(state.pending)[i], answers[i]) && answers[i].written
      ensures var k := FirstStop(old(state.pending), answers);
              var unsaved := k < |answers| && Resolves(old(state.pending)[k], answers[k]);
              && state == Cleared(old(state), old(state.pending), if unsaved then k + 1 else k)
              && disk == if k == 0 then old(disk) else Cleared(old(state), old(state.pending), k)
      ensures ok ==> state.pending == []
    {
      var pending := state.pending;
      ghost var k := FirstStop(pending, answers);
      for i := 0 to |pending|
        invariant i <= k
        invariant state == Cleared(old(state), pending, i)
        invariant disk == if i == 0 then old(disk) else state
      {
        if answers[i].status.Failed? {
          return false;
        }
        if answers[i].status.Unknown? && answers[i].height < pending[i].lastValid {
          return false;
        }
        assert Resolves(pending[i], answers[i]);
        var written := ClearPendingTransaction(pending[i].signature, answers[i].written);
        if !written {
          return false;
        }
      }
      ClearedAll(old(state));
      ok := true;
    }
  }
}
