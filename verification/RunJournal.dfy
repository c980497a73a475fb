/**
 The durable journal of a load run (`Journal` in rust/bench/src/journal.rs): a
 vector of user records, an index into it, and a file replaced as a whole.
 */
module RunJournal {
  import opened Common

  datatype Status =
    | Planning | Provisioning | Provisioned | Prepared | Unleashing | Settling | Swept | Complete | Failed

  /** What recovery needs to know of one user; `setup` stands for the channel and its opening. */
  datatype Record = Record(index: nat, setup: Option<nat>, fundingStarted: bool, funded: bool, swept: bool)

  type Users = map<nat, Record>

  // ---- The journal as a finite map ---------------------------------------

  function Upsert(m: Users, rs: seq<Record>): Users {
    if rs == [] then m
    else Upsert(m, rs[..|rs| - 1])[rs[|rs| - 1].index := rs[|rs| - 1]]
  }

  function SweepOne(m: Users, i: nat): Users
    requires i in m
  {
    m[i := m[i].(swept := true)]
  }

  /** Mark in order; `None` as soon as an index has no record. */
  function Sweep(m: Users, indices: seq<nat>): Option<Users> {
    if indices == [] then Some(m)
    else
      var before := Sweep(m, indices[..|indices| - 1]);
      if before.Some? && indices[|indices| - 1] in before.value
      then Some(SweepOne(before.value, indices[|indices| - 1]))
      else None
  }

  /** How many of the indices come before the first without a record. */
  function Known(m: Users, indices: seq<nat>): (k: nat)
    ensures k <= |indices|
    ensures forall i :: 0 <= i < k ==> indices[i] in m
    ensures k < |indices| ==> indices[k] !in m
  {
    if indices == [] || indices[0] !in m then 0 else 1 + Known(m, indices[1..])
  }

  predicate DistinctIndices(rs: seq<Record>) {
    forall i, j :: 0 <= i < j < |rs| ==> rs[i].index != rs[j].index
  }

  predicate Mentions(rs: seq<Record>, i: nat) {
    exists k :: 0 <= k < |rs| && rs[k].index == i
  }

  /** Untouched users keep their record. */
  lemma {:induction false} UpsertKeeps(m: Users, rs: seq<Record>, i: nat)
    requires !Mentions(rs, i)
    ensures i in Upsert(m, rs) <==> i in m
    ensures i in m ==> Upsert(m, rs)[i] == m[i]
  {
    if rs != [] {
      var front := rs[..|rs| - 1];
      assert rs[|rs| - 1].index != i;
      assert forall k :: 0 <= k < |front| ==> front[k] == rs[k];
      UpsertKeeps(m, front, i);
    }
  }

  /** Each record of a duplicate-free checkpoint is stored. */
  lemma {:induction false} UpsertStores(m: Users, rs: seq<Record>, k: nat)
    requires DistinctIndices(rs) && k < |rs|
    ensures rs[k].index in Upsert(m, rs) && Upsert(m, rs)[rs[k].index] == rs[k]
  {
    var last := |rs| - 1;
    if k < last {
      assert rs[k].index != rs[last].index;
      UpsertStores(m, rs[..last], k);
    }
  }

  /** Marking succeeds exactly when every index has a record, and then changes only their marks. */
  lemma {:induction false} SweepMarks(m: Users, indices: seq<nat>)
    ensures Sweep(m, indices).Some? <==> forall i :: i in indices ==> i in m
    ensures var r := Sweep(m, indices);
            r.Some? ==>
              && r.value.Keys == m.Keys
              && forall i :: i in m ==> r.value[i] == m[i].(swept := m[i].swept || i in indices)
  {
    if indices != [] {
      var last := |indices| - 1;
      var front := indices[..last];
      SweepMarks(m, front);
      assert indices == front + [indices[last]];
    }
  }

  // ---- The vector and its index ------------------------------------------

  function Index(users: seq<Record>, n: nat): map<nat, nat>
    requires n <= |users|
  {
    if n == 0 then map[] else Index(users, n - 1)[users[n - 1].index := n - 1]
  }

  function AsMap(users: seq<Record>): Users {
    Upsert(map[], users)
  }

  /** `positions` is the exact inverse of the duplicate-free `users`. */
  predicate Inverse(users: seq<Record>, positions: map<nat, nat>) {
    && (forall i :: i in positions ==> positions[i] < |users| && users[positions[i]].index == i)
    && (forall k :: 0 <= k < |users| ==> users[k].index in positions && positions[users[k].index] == k)
  }

  lemma InverseMeansDistinct(users: seq<Record>, positions: map<nat, nat>)
    requires Inverse(users, positions)
    ensures DistinctIndices(users)
  {
    forall i, j | 0 <= i < j < |users| ensures users[i].index != users[j].index {
      assert positions[users[i].index] == i && positions[users[j].index] == j;
    }
  }

  lemma {:induction false} IndexSound(users: seq<Record>, n: nat, i: nat)
    requires n <= |users| && i in Index(users, n)
    ensures Index(users, n)[i] < n && users[Index(users, n)[i]].index == i
  {
    if users[n - 1].index != i { IndexSound(users, n - 1, i); }
  }

  lemma {:induction false} IndexComplete(users: seq<Record>, n: nat, k: nat)
    requires n <= |users| && k < n
    ensures users[k].index in Index(users, n) && k <= Index(users, n)[users[k].index]
  {
    if k < n - 1 { IndexComplete(users, n - 1, k); }
  }

  /** Rebuilding the index of a loaded file gives the inverse exactly when the file has no duplicates. */
  lemma LoadedIndex(users: seq<Record>)
    ensures Inverse(users, Index(users, |users|)) <==> DistinctIndices(users)
  {
    var positions := Index(users, |users|);
    if Inverse(users, positions) {
      InverseMeansDistinct(users, positions);
    }
    if DistinctIndices(users) {
      forall i | i in positions ensures positions[i] < |users| && users[positions[i]].index == i {
        IndexSound(users, |users|, i);
      }
      forall k | 0 <= k < |users| ensures users[k].index in positions && positions[users[k].index] == k {
        IndexComplete(users, |users|, k);
        IndexSound(users, |users|, users[k].index);
      }
    }
  }

  lemma AsMapPush(users: seq<Record>, r: Record)
    ensures AsMap(users + [r]) == AsMap(users)[r.index := r]
  {
    assert (users + [r])[..|users|] == users;
  }

  lemma AsMapDomain(users: seq<Record>, positions: map<nat, nat>, i: nat)
    requires Inverse(users, positions)
    ensures i in AsMap(users) <==> i in positions
    ensures i in positions ==> AsMap(users)[i] == users[positions[i]]
  {
    InverseMeansDistinct(users, positions);
    if i in positions {
      UpsertStores(map[], users, positions[i]);
    } else {
      UpsertKeeps(map[], users, i);
    }
  }

  /** Replacing a record in place is replacing it in the map. */
  lemma AsMapReplace(users: seq<Record>, positions: map<nat, nat>, r: Record)
    requires Inverse(users, positions) && r.index in positions
    ensures Inverse(users[positions[r.index] := r], positions)
    ensures AsMap(users[positions[r.index] := r]) == AsMap(users)[r.index := r]
  {
    var after := users[positions[r.index] := r];
    assert Inverse(after, positions);
    var a, b := AsMap(after), AsMap(users)[r.index := r];
    forall i ensures i in a <==> i in b {
      AsMapDomain(users, positions, i);
      AsMapDomain(after, positions, i);
    }
    forall i | i in a ensures a[i] == b[i] {
      AsMapDomain(users, positions, i);
      AsMapDomain(after, positions, i);
    }
  }

  lemma InversePush(users: seq<Record>, positions: map<nat, nat>, r: Record)
    requires Inverse(users, positions) && r.index !in positions
    ensures Inverse(users + [r], positions[r.index := |users|])
  {
    var after := positions[r.index := |users|];
    forall k | 0 <= k <= |users| ensures (users + [r])[k].index in after && after[(users + [r])[k].index] == k {
      if k < |users| { assert users[k].index in positions; }
    }
  }

  datatype Saved = Saved(users: Users, status: Status)

  class Journal {
    var users: seq<Record>
    var positions: map<nat, nat>
    var status: Status
    /** The contents of the file, which a save replaces as a whole. */
    var file: Saved

    ghost predicate Valid()
      reads this
    {
      Inverse(users, positions)
    }

    function View(): Users
      reads this
    {
      AsMap(users)
    }

    constructor ()
      ensures Valid() && View() == map[] && status == Planning
      ensures file == Saved(map[], Planning)
    {
      users, positions, status := [], map[], Planning;
      file := Saved(map[], Planning);
    }

    /** Reads a file back; `stored` is its vector of records. */
    constructor Load(stored: seq<Record>, storedStatus: Status)
      ensures users == stored && status == storedStatus
      ensures file == Saved(AsMap(stored), storedStatus)
      ensures Valid() <==> DistinctIndices(stored)
    {
      users, status := stored, storedStatus;
      file := Saved(AsMap(stored), storedStatus);
      positions := map[];
      new;
      for n := 0 to |stored|
        modifies this`positions
        invariant users == stored && positions == Index(stored, n)
      {
        positions := positions[stored[n].index := n];
      }
      LoadedIndex(stored);
    }

    /** `ok` says whether the write and rename went through. */
    method Save(ok: bool)
      modifies this`file
      ensures file == if ok then Saved(View(), status) else old(file)
    {
      if ok {
        file := Saved(AsMap(users), status);
      }
    }

    method SetStatus(s: Status, ok: bool)
      modifies this`status, this`file
      ensures status == s
      ensures file == if ok then Saved(View(), s) else old(file)
    {
      status := s;
      Save(ok);
    }

    method UpdateUsers(records: seq<Record>)
      requires Valid()
      modifies this`users, this`positions
      ensures Valid() && View() == Upsert(old(View()), records)
      ensures |old(users)| <= |users|
      ensures forall k :: 0 <= k < |old(users)| ==> users[k].index == old(users)[k].index
    {
      ghost var before := View();
      assert records[..0] == [];
      for n := 0 to |records|
        invariant Valid() && View() == Upsert(before, records[..n])
        invariant |old(users)| <= |users|
        invariant forall k :: 0 <= k < |old(users)| ==> users[k].index == old(users)[k].index
      {
        var r := records[n];
        assert records[..n + 1][..n] == records[..n];
        if r.index in positions {
          AsMapReplace(users, positions, r);
          users := users[positions[r.index] := r];
        } else {
          AsMapPush(users, r);
          InversePush(users, positions, r);
          positions := positions[r.index := |users|];
          users := users + [r];
        }
      }
      assert records[..|records|] == records;
    }

    method UpsertUsers(records: seq<Record>, ok: bool)
      requires Valid()
      modifies this`users, this`positions, this`file
      ensures Valid() && View() == Upsert(old(View()), records)
      ensures file == if ok then Saved(View(), status) else old(file)
    {
      UpdateUsers(records);
      Save(ok);
    }

    /** Fails, without saving, at the first index that has no record; those before it stay marked in memory. */
    method MarkUsersSwept(indices: seq<nat>, ok: bool) returns (found: bool)
      requires Valid()
      modifies this`users, this`file
      ensures Valid()
      ensures found <==> Sweep(old(View()), indices).Some?
      ensures Sweep(old(View()), indices[..Known(old(View()), indices)]) == Some(View())
      ensures found ==> View() == Sweep(old(View()), indices).value
      ensures file == if found && ok then Saved(View(), status) else old(file)
    {
      ghost var before := View();
      assert indices[..0] == [];
      for n := 0 to |indices|
        invariant Valid() && file == old(file)
        invariant Sweep(before, indices[..n]) == Some(View())
      {
        assert indices[..n + 1][..n] == indices[..n];
        AsMapDomain(users, positions, indices[n]);
        if indices[n] !in positions {
          SweepStaysNone(before, indices, n + 1, |indices|);
          assert indices[..|indices|] == indices;
          SweepMarks(before, indices[..n]);
          FirstUnknown(before, indices, n);
          return false;
        }
        var r := users[positions[indices[n]]].(swept := true);
        AsMapReplace(users, positions, r);
        users := users[positions[indices[n]] := r];
      }
      assert indices[..|indices|] == indices;
      SweepMarks(before, indices);
      FirstUnknown(before, indices, |indices|);
      Save(ok);
      found := true;
    }
  }

  lemma FirstUnknown(m: Users, indices: seq<nat>, n: nat)
    requires n <= |indices| && (forall i :: i in indices[..n] ==> i in m) && (n < |indices| ==> indices[n] !in m)
    ensures Known(m, indices) == n
  {
    assert forall i :: 0 <= i < n ==> indices[..n][i] == indices[i] && indices[i] in m;
  }

  lemma {:induction false} SweepStaysNone(m: Users, indices: seq<nat>, j: nat, n: nat)
    requires j <= n <= |indices| && Sweep(m, indices[..j]).None?
    ensures Sweep(m, indices[..n]).None?
  {
    if j < n {
      SweepStaysNone(m, indices, j, n - 1);
      assert indices[..n][..n - 1] == indices[..n - 1];
    }
  }
}
