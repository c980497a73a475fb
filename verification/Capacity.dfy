/**
 Admission to a bounded table (`admit` in rust/crates/connect/src/capacity.rs).
 Rows created at the same instant are picked in no fixed order, so the rows a call
 removes are a `Choice`, constrained only to be oldest ones.
 */
module Capacity {
  import opened Common

  datatype Row = Row(owner: Option<nat>, created: nat)

  type Table = map<nat, Row>

  datatype Anonymous = Keep | EvictOldest

  datatype Limits = Limits(rows: nat, perOwner: nat, anonymous: Anonymous)

  datatype Choice = Choice(doomed: set<nat>, victim: Option<nat>)

  /** `expired` names the rows the caller judges expired. */
  datatype Request = Request(key: nat, row: Row, expired: set<nat>)

  function Unexpired(t: Table, expired: set<nat>): Table {
    t - expired
  }

  function Own(t: Table, owner: Option<nat>): set<nat> {
    set k | k in t && t[k].owner == owner
  }

  predicate AreOldest(t: Table, chosen: set<nat>, among: set<nat>)
    requires among <= t.Keys
  {
    chosen <= among && forall c, a :: c in chosen && a in among - chosen ==> t[c].created <= t[a].created
  }

  function Surplus(own: nat, perOwner: nat): nat {
    if own + 1 > perOwner then own + 1 - perOwner else 0
  }

  predicate DoomedOk(t: Table, row: Row, limits: Limits, doomed: set<nat>) {
    if row.owner.None? then doomed == {}
    else
      && AreOldest(t, doomed, Own(t, row.owner))
      && |doomed| == Min(Surplus(|Own(t, row.owner)|, limits.perOwner), |Own(t, row.owner)|)
  }

  predicate VictimOk(t: Table, limits: Limits, victim: Option<nat>) {
    if |t| >= limits.rows && limits.anonymous == EvictOldest && Own(t, None) != {}
    then victim.Some? && victim.value in Own(t, None) && AreOldest(t, {victim.value}, Own(t, None))
    else victim.None?
  }

  predicate ChoiceOk(t: Table, r: Request, limits: Limits, c: Choice) {
    var live := Unexpired(t, r.expired);
    DoomedOk(live, r.row, limits, c.doomed) && VictimOk(live - c.doomed, limits, c.victim)
  }

  predicate Admitted(t: Table, r: Request, limits: Limits, c: Choice) {
    |Unexpired(t, r.expired) - c.doomed| < limits.rows || c.victim.Some?
  }

  function Admit(t: Table, r: Request, limits: Limits, c: Choice): Table {
    var rest := Unexpired(t, r.expired) - c.doomed;
    if !Admitted(t, r, limits, c) then rest
    else (if c.victim.Some? then rest - {c.victim.value} else rest)[r.key := r.row]
  }

  // ---- What each admission keeps -----------------------------------------

  /** The table is within its rows and every owner within its quota. */
  ghost predicate Within(t: Table, limits: Limits) {
    && |t| <= limits.rows
    && forall o: nat :: |Own(t, Some(o))| <= limits.perOwner
  }

  lemma RemovedSize(t: Table, gone: set<nat>)
    requires gone <= t.Keys
    ensures |t - gone| == |t| - |gone|
  {
    assert (t - gone).Keys == t.Keys - gone;
  }

  lemma UnexpiredWithin(t: Table, expired: set<nat>, limits: Limits)
    requires Within(t, limits)
    ensures Within(Unexpired(t, expired), limits)
  {
    var live := Unexpired(t, expired);
    SubsetSize(live.Keys, t.Keys);
    forall o: nat ensures |Own(live, Some(o))| <= limits.perOwner {
      SubsetSize(Own(live, Some(o)), Own(t, Some(o)));
    }
  }

  /** With a quota of at least one, an owner at its quota loses exactly one row. */
  lemma DoomedAtMostOne(t: Table, row: Row, limits: Limits, doomed: set<nat>)
    requires Within(t, limits) && limits.perOwner >= 1 && DoomedOk(t, row, limits, doomed)
    ensures |doomed| <= 1
    ensures doomed != {} <==> row.owner.Some? && |Own(t, row.owner)| == limits.perOwner
  {
    if row.owner.Some? {
      assert |Own(t, Some(row.owner.value))| <= limits.perOwner;
      if doomed != {} {
        var d :| d in doomed;
        SubsetSize({d}, doomed);
      }
    }
  }

  lemma InsertedSize(t: Table, key: nat, row: Row)
    ensures |t[key := row]| <= |t| + 1
  {
    assert t[key := row].Keys == t.Keys + {key};
    SubsetSize(t.Keys + {key}, t.Keys + {key});
  }

  lemma InsertedOwn(t: Table, key: nat, row: Row, o: nat)
    ensures |Own(t[key := row], Some(o))| <= |Own(t, Some(o))| + if row.owner == Some(o) then 1 else 0
  {
    if row.owner == Some(o) {
      SubsetSize(Own(t[key := row], Some(o)), Own(t, Some(o)) + {key});
    } else {
      SubsetSize(Own(t[key := row], Some(o)), Own(t, Some(o)));
    }
  }

  lemma RemovedOwn(t: Table, gone: set<nat>, o: nat)
    ensures |Own(t - gone, Some(o))| <= |Own(t, Some(o))|
    ensures gone <= Own(t, Some(o)) ==> |Own(t - gone, Some(o))| == |Own(t, Some(o))| - |gone|
  {
    assert Own(t - gone, Some(o)) == Own(t, Some(o)) - gone;
    SubsetSize(Own(t - gone, Some(o)), Own(t, Some(o)));
  }

  /** The table just before the newcomer goes in. */
  function Cleared(t: Table, r: Request, c: Choice): Table {
    var rest := Unexpired(t, r.expired) - c.doomed;
    if c.victim.Some? then rest - {c.victim.value} else rest
  }

  lemma RowsKept(t: Table, r: Request, limits: Limits, c: Choice)
    requires Within(t, limits) && ChoiceOk(t, r, limits, c)
    ensures |Admit(t, r, limits, c)| <= limits.rows
  {
    UnexpiredWithin(t, r.expired, limits);
    var live := Unexpired(t, r.expired);
    var rest := live - c.doomed;
    SubsetSize(rest.Keys, live.Keys);
    if c.victim.Some? { RemovedSize(rest, {c.victim.value}); }
    InsertedSize(Cleared(t, r, c), r.key, r.row);
  }

  lemma QuotaKept(t: Table, r: Request, limits: Limits, c: Choice, o: nat)
    requires Within(t, limits) && ChoiceOk(t, r, limits, c) && limits.perOwner >= 1
    ensures |Own(Admit(t, r, limits, c), Some(o))| <= limits.perOwner
  {
    UnexpiredWithin(t, r.expired, limits);
    var live := Unexpired(t, r.expired);
    DoomedAtMostOne(live, r.row, limits, c.doomed);
    RemovedOwn(live, c.doomed, o);
    if c.victim.Some? { RemovedOwn(live - c.doomed, {c.victim.value}, o); }
    InsertedOwn(Cleared(t, r, c), r.key, r.row, o);
  }

  /** Over every admission, refused or not, the table stays within its limits. */
  lemma AdmitKeepsWithin(t: Table, r: Request, limits: Limits, c: Choice)
    requires Within(t, limits) && ChoiceOk(t, r, limits, c) && limits.perOwner >= 1
    ensures Within(Admit(t, r, limits, c), limits)
  {
    RowsKept(t, r, limits, c);
    forall o: nat ensures |Own(Admit(t, r, limits, c), Some(o))| <= limits.perOwner {
      QuotaKept(t, r, limits, c, o);
    }
  }

  // ---- What a caller loses -----------------------------------------------

  /** A refusal removes expired rows and nothing else. */
  lemma RefusalRemovesNothing(t: Table, r: Request, limits: Limits, c: Choice)
    requires Within(t, limits) && ChoiceOk(t, r, limits, c) && limits.perOwner >= 1
    requires !Admitted(t, r, limits, c)
    ensures Admit(t, r, limits, c) == Unexpired(t, r.expired)
  {
    UnexpiredWithin(t, r.expired, limits);
    var live := Unexpired(t, r.expired);
    assert c.doomed <= live.Keys;
    RemovedSize(live, c.doomed);
    assert live - {} == live;
  }

  /** The unexpired rows fill the table, the newcomer's owner is below its quota, and no anonymous row may make room. */
  predicate NoRoom(t: Table, r: Request, limits: Limits) {
    var live := Unexpired(t, r.expired);
    && |live| == limits.rows
    && (r.row.owner.Some? ==> |Own(live, r.row.owner)| < limits.perOwner)
    && (limits.anonymous == Keep || Own(live, None) == {})
  }

  /** The owner's rows that go leave that much room and no fewer anonymous rows. */
  lemma AfterQuota(live: Table, row: Row, limits: Limits, doomed: set<nat>)
    requires Within(live, limits) && limits.perOwner >= 1 && DoomedOk(live, row, limits, doomed)
    ensures |live - doomed| == |live| - |doomed| && Own(live - doomed, None) == Own(live, None)
    ensures |doomed| == 0 <==> row.owner.Some? ==> |Own(live, row.owner)| < limits.perOwner
  {
    DoomedAtMostOne(live, row, limits, doomed);
    assert doomed <= live.Keys;
    RemovedSize(live, doomed);
    assert row.owner.Some? ==> |Own(live, Some(row.owner.value))| <= limits.perOwner;
  }

  /** A newcomer is refused exactly when there is no room for it. */
  lemma RefusedExactly(t: Table, r: Request, limits: Limits, c: Choice)
    requires Within(t, limits) && ChoiceOk(t, r, limits, c) && limits.perOwner >= 1
    ensures !Admitted(t, r, limits, c) <==> NoRoom(t, r, limits)
  {
    UnexpiredWithin(t, r.expired, limits);
    AfterQuota(Unexpired(t, r.expired), r.row, limits, c.doomed);
  }

  /**
   An unexpired owned row disappears only if its own owner was at its quota and was
   admitted, it is that owner's oldest row and the only one to go, or the newcomer
   took over its very key.
   */
  lemma OnlyOwnOldestEvicted(t: Table, r: Request, limits: Limits, c: Choice, k: nat)
    requires Within(t, limits) && ChoiceOk(t, r, limits, c) && limits.perOwner >= 1
    requires k in Unexpired(t, r.expired) && t[k].owner.Some? && k !in Admit(t, r, limits, c)
    ensures var live := Unexpired(t, r.expired);
            && Admitted(t, r, limits, c)
            && r.row.owner == t[k].owner && |Own(live, t[k].owner)| == limits.perOwner
            && (forall j :: j in Own(live, t[k].owner) ==> t[k].created <= t[j].created)
            && (forall j :: j in Own(live, t[k].owner) && j != k && j != r.key ==> j in Admit(t, r, limits, c))
  {
    var live := Unexpired(t, r.expired);
    UnexpiredWithin(t, r.expired, limits);
    DoomedAtMostOne(live, r.row, limits, c.doomed);
    if !Admitted(t, r, limits, c) {
      RefusalRemovesNothing(t, r, limits, c);
    }
    assert k in c.doomed;
    assert c.doomed == {k} by { SubsetSize({k}, c.doomed); }
  }

  /** Another owner's unexpired row survives exactly when its key is not the newcomer's, or there is no room. */
  lemma FreshKeySparesOthers(t: Table, r: Request, limits: Limits, c: Choice, k: nat)
    requires Within(t, limits) && ChoiceOk(t, r, limits, c) && limits.perOwner >= 1
    requires k in Unexpired(t, r.expired) && t[k].owner.Some? && t[k].owner != r.row.owner
    ensures var after := Admit(t, r, limits, c);
            (k in after && after[k] == t[k]) <==> r.key != k || NoRoom(t, r, limits)
  {
    RefusedExactly(t, r, limits, c);
    if !Admitted(t, r, limits, c) {
      RefusalRemovesNothing(t, r, limits, c);
    }
    if k !in Admit(t, r, limits, c) {
      OnlyOwnOldestEvicted(t, r, limits, c, k);
      assert false;
    }
  }

  /** An admitted newcomer is in the table under its key. */
  lemma AdmittedIsStored(t: Table, r: Request, limits: Limits, c: Choice)
    requires ChoiceOk(t, r, limits, c)
    ensures var after := Admit(t, r, limits, c);
            Admitted(t, r, limits, c) ==> r.key in after && after[r.key] == r.row
    ensures forall k :: k in Admit(t, r, limits, c) && k != r.key ==>
              k in Unexpired(t, r.expired) && Admit(t, r, limits, c)[k] == t[k]
  {
  }

  /**
   An unexpired row nobody owns disappears only from a full table that may drop
   one, as its oldest such row and alone, or because the newcomer took its key.
   */
  lemma OnlyOldestAnonymousEvicted(t: Table, r: Request, limits: Limits, c: Choice, k: nat)
    requires Within(t, limits) && ChoiceOk(t, r, limits, c) && limits.perOwner >= 1
    requires k in Unexpired(t, r.expired) && t[k].owner.None? && k !in Admit(t, r, limits, c)
    ensures var live := Unexpired(t, r.expired);
            && Admitted(t, r, limits, c) && limits.anonymous == EvictOldest && |live| == limits.rows
            && (forall j :: j in Own(live, None) ==> t[k].created <= t[j].created)
            && (forall j :: j in Own(live, None) && j != k ==> j in Admit(t, r, limits, c))
  {
    var live := Unexpired(t, r.expired);
    UnexpiredWithin(t, r.expired, limits);
    if !Admitted(t, r, limits, c) {
      RefusalRemovesNothing(t, r, limits, c);
    }
    assert k !in c.doomed;
    assert k in live - c.doomed && c.victim == Some(k);
    assert Own(live - c.doomed, None) == Own(live, None);
    assert c.doomed <= live.Keys;
    RemovedSize(live, c.doomed);
  }

  /** A newcomer whose key is taken replaces another owner's row in a table that has room. */
  lemma TakenKeyOverwrites()
    ensures var t := map[1 := Row(Some(10), 0)];
            var r := Request(1, Row(Some(20), 5), {});
            var limits := Limits(4, 2, Keep);
            var c := Choice({}, None);
            && ChoiceOk(t, r, limits, c) && Admitted(t, r, limits, c)
            && Admit(t, r, limits, c) == map[1 := Row(Some(20), 5)]
  {
    var t := map[1 := Row(Some(10), 0)];
    assert t - {} == t;
    assert Own(t, Some(20)) == {};
    assert |t| == 1 by { assert t.Keys == {1}; }
  }

  // ---- Whole runs --------------------------------------------------------

  datatype Call = Call(request: Request, choice: Choice)

  function Run(calls: seq<Call>, limits: Limits): Table {
    if calls == [] then map[]
    else Admit(Run(calls[..|calls| - 1], limits), calls[|calls| - 1].request, limits, calls[|calls| - 1].choice)
  }

  predicate Legal(calls: seq<Call>, limits: Limits) {
    calls != [] ==>
      && Legal(calls[..|calls| - 1], limits)
      && ChoiceOk(Run(calls[..|calls| - 1], limits), calls[|calls| - 1].request, limits, calls[|calls| - 1].choice)
  }

  lemma {:induction false} EveryTableWithin(calls: seq<Call>, limits: Limits)
    requires Legal(calls, limits) && limits.perOwner >= 1
    ensures Within(Run(calls, limits), limits)
  {
    if calls == [] {
      forall o: nat ensures |Own(map[], Some(o))| <= limits.perOwner {
        assert Own(map[], Some(o)) == {};
      }
    } else {
      var last := |calls| - 1;
      EveryTableWithin(calls[..last], limits);
      AdmitKeepsWithin(Run(calls[..last], limits), calls[last].request, limits, calls[last].choice);
    }
  }

  /** A quota of zero is not enforced: an admitted row of an owner leaves the owner with one. */
  lemma ZeroQuotaIsExceeded(t: Table, r: Request, limits: Limits, c: Choice)
    requires ChoiceOk(t, r, limits, c) && limits.perOwner == 0 && r.row.owner.Some? && Admitted(t, r, limits, c)
    ensures |Own(Admit(t, r, limits, c), r.row.owner)| > limits.perOwner
  {
    assert r.key in Own(Admit(t, r, limits, c), r.row.owner);
  }

  // ---- The procedure -----------------------------------------------------

  /** The key of an oldest row among `among`. */
  method OldestOf(t: Table, among: set<nat>) returns (k: nat)
    requires among != {} && among <= t.Keys
    ensures k in among && forall a :: a in among ==> t[k].created <= t[a].created
  {
    k :| k in among;
    var rest := among - {k};
    while rest != {}
      invariant rest <= among && k in among
      invariant forall a :: a in among - rest ==> t[k].created <= t[a].created
    {
      var a :| a in rest;
      rest := rest - {a};
      if t[a].created < t[k].created {
        k := a;
      }
    }
  }

  /** The `n` oldest rows among `among`, or all of them. */
  method OldestRows(t: Table, among: set<nat>, n: nat) returns (chosen: set<nat>)
    requires among <= t.Keys
    ensures AreOldest(t, chosen, among) && |chosen| == Min(n, |among|)
  {
    chosen := {};
    while |chosen| < n && chosen != among
      invariant AreOldest(t, chosen, among) && |chosen| <= n
      decreases |among - chosen|
    {
      assert among - chosen != {};
      var k := OldestOf(t, among - chosen);
      chosen := chosen + {k};
    }
    SubsetSize(chosen, among);
  }

  /** The newcomer's owner's oldest rows, as many as would exceed its quota. */
  method OverQuota(live: Table, row: Row, limits: Limits) returns (doomed: set<nat>)
    ensures DoomedOk(live, row, limits, doomed)
  {
    doomed := {};
    if row.owner.Some? {
      var own := Own(live, row.owner);
      doomed := OldestRows(live, own, Surplus(|own|, limits.perOwner));
    }
  }

  /** The oldest anonymous row of a full table that may drop one. */
  method Displaced(rest: Table, limits: Limits) returns (victim: Option<nat>)
    ensures VictimOk(rest, limits, victim)
  {
    victim := None;
    if |rest| >= limits.rows {
      var anonymous := Own(rest, None);
      if limits.anonymous == EvictOldest && anonymous != {} {
        var k := OldestOf(rest, anonymous);
        victim := Some(k);
      }
    }
  }

  /** Admission as the source performs it; the choice it made is returned beside the table. */
  method AdmitRow(t: Table, r: Request, limits: Limits) returns (after: Table, ok: bool, c: Choice)
    ensures ChoiceOk(t, r, limits, c)
    ensures after == Admit(t, r, limits, c) && ok == Admitted(t, r, limits, c)
  {
    var live := Unexpired(t, r.expired);
    var doomed := OverQuota(live, r.row, limits);
    var rest := live - doomed;
    var victim := Displaced(rest, limits);
    c := Choice(doomed, victim);
    assert ChoiceOk(t, r, limits, c);
    ok := |rest| < limits.rows || victim.Some?;
    if !ok {
      after := rest;
    } else if victim.Some? {
      after := (rest - {victim.value})[r.key := r.row];
    } else {
      after := rest[r.key := r.row];
    }
  }
}
