/**
 Derived wallets, the token ledger they live on, and the instructions that the
 fixture commands build from what they read there (rust/bench/src/fixtures.rs).
 */
module FixtureLedger {
  import opened Common

  datatype Op = Setup | Teardown

  /** `measured` is the size estimate used when packing, `sendable` the check of a packet's limit. */
  datatype Config = Config(
    users: nat,
    windowUsers: nat,
    solTarget: nat,
    targets: seq<nat>,
    allowAbove: bool,
    measured: seq<Instr> -> bool,
    sendable: seq<Instr> -> bool)

  /** A derived wallet: lamports, and one token account per configured asset. */
  datatype Wallet = Wallet(sol: nat, atas: seq<Option<nat>>)

  /** `funder[k]` is the funder's balance of asset k. */
  datatype Ledger = Ledger(funder: seq<nat>, wallets: seq<Wallet>)

  datatype Instr =
    | SolIn(user: nat, amount: nat)
    | CreateAta(user: nat, asset: nat)
    | TokenIn(user: nat, asset: nat, amount: nat)
    | TokenOut(user: nat, asset: nat, amount: nat)
    | CloseAta(user: nat, asset: nat)
    | SolOut(user: nat, amount: nat)

  datatype PreparedUser = PreparedUser(index: nat, instrs: seq<Instr>)

  /** A signed transaction; it can only land in a block of height at most `lastValid`. */
  datatype Tx = Tx(op: Op, items: seq<PreparedUser>, blockhash: nat, lastValid: nat)

  function Balance(ata: Option<nat>): nat {
    if ata.Some? then ata.value else 0
  }

  predicate WalletOk(c: Config, w: Wallet) {
    |w.atas| == |c.targets|
  }

  predicate LedgerOk(c: Config, l: Ledger) {
    && |l.funder| == |c.targets|
    && |l.wallets| == c.users
    && forall u :: 0 <= u < c.users ==> WalletOk(c, l.wallets[u])
  }

  // ---- What the commands want -------------------------------------------

  /** `None` is the refusal to mix funds. */
  function BalanceDeficit(current: nat, target: nat, allowAbove: bool): (r: Option<nat>)
    ensures r.None? <==> current > target && !allowAbove
    ensures r.Some? ==> current + r.value == Max(current, target)
  {
    if current > target then
      if allowAbove then Some(0) else None
    else
      Some(target - current)
  }

  /** Slot 0 is the wallet's SOL, slot k + 1 its account for asset k. */
  function SetupSlot(c: Config, w: Wallet, u: nat, slot: nat): Option<seq<Instr>>
    requires WalletOk(c, w) && slot <= |c.targets|
  {
    if slot == 0 then
      if c.solTarget > 0 && w.sol < c.solTarget then Some([SolIn(u, c.solTarget - w.sol)]) else Some([])
    else
      var k := slot - 1;
      match BalanceDeficit(Balance(w.atas[k]), c.targets[k], c.allowAbove)
      case None => None
      case Some(deficit) =>
        var create := if w.atas[k].None? || deficit > 0 then [CreateAta(u, k)] else [];
        var transfer := if deficit > 0 then [TokenIn(u, k, deficit)] else [];
        Some(create + transfer)
  }

  /** Assets come first; the last slot is the SOL sweep. */
  function TeardownSlot(c: Config, w: Wallet, u: nat, slot: nat): seq<Instr>
    requires WalletOk(c, w) && slot <= |c.targets|
  {
    if slot == |c.targets| then
      if c.solTarget > 0 && w.sol > 0 then [SolOut(u, w.sol)] else []
    else
      match w.atas[slot]
      case None => []
      case Some(balance) => (if balance > 0 then [TokenOut(u, slot, balance)] else []) + [CloseAta(u, slot)]
  }

  function Slot(c: Config, op: Op, w: Wallet, u: nat, slot: nat): Option<seq<Instr>>
    requires WalletOk(c, w) && slot <= |c.targets|
  {
    match op
    case Setup => SetupSlot(c, w, u, slot)
    case Teardown => Some(TeardownSlot(c, w, u, slot))
  }

  /** The instructions collected once the first `n` slots have been read. */
  function Instrs(c: Config, op: Op, w: Wallet, u: nat, n: nat): Option<seq<Instr>>
    requires WalletOk(c, w) && n <= |c.targets| + 1
  {
    if n == 0 then Some([])
    else
      match Instrs(c, op, w, u, n - 1)
      case None => None
      case Some(prefix) =>
        match Slot(c, op, w, u, n - 1)
        case None => None
        case Some(more) => Some(prefix + more)
  }

  function AllInstrs(c: Config, op: Op, w: Wallet, u: nat): Option<seq<Instr>>
    requires WalletOk(c, w)
  {
    Instrs(c, op, w, u, |c.targets| + 1)
  }

  /** `p` with one slot brought to where `op` wants it, given the wallet `w` as it was read. */
  function SetSlot(c: Config, op: Op, w: Wallet, p: Wallet, slot: nat): (q: Wallet)
    requires WalletOk(c, w) && WalletOk(c, p) && slot <= |c.targets|
    ensures WalletOk(c, q)
  {
    match op
    case Setup =>
      if slot == 0 then p.(sol := Max(w.sol, c.solTarget))
      else p.(atas := p.atas[slot - 1 := Some(Max(Balance(w.atas[slot - 1]), c.targets[slot - 1]))])
    case Teardown =>
      if slot < |c.targets| then p.(atas := p.atas[slot := None])
      else if c.solTarget > 0 then p.(sol := 0)
      else p
  }

  /** The wallet after the first `n` slots of `op` have been carried out. */
  function Partial(c: Config, op: Op, w: Wallet, n: nat): (p: Wallet)
    requires WalletOk(c, w) && n <= |c.targets| + 1
    ensures WalletOk(c, p)
  {
    if n == 0 then w else SetSlot(c, op, w, Partial(c, op, w, n - 1), n - 1)
  }

  /** Where `op` means to leave the wallet. */
  function Target(c: Config, op: Op, w: Wallet): (t: Wallet)
    requires WalletOk(c, w)
    ensures WalletOk(c, t)
  {
    match op
    case Setup =>
      Wallet(
        Max(w.sol, c.solTarget),
        seq(|c.targets|, k requires 0 <= k < |c.targets| => Some(Max(Balance(w.atas[k]), c.targets[k]))))
    case Teardown =>
      Wallet(if c.solTarget > 0 then 0 else w.sol, seq(|c.targets|, _ => None))
  }

  /** Setup accepts the wallet: nothing above target, unless that is allowed. */
  predicate Acceptable(c: Config, op: Op, w: Wallet)
    requires WalletOk(c, w)
  {
    op == Setup && !c.allowAbove ==>
      forall k :: 0 <= k < |c.targets| ==> Balance(w.atas[k]) <= c.targets[k]
  }

  predicate Settled(c: Config, op: Op, w: Wallet)
    requires WalletOk(c, w)
  {
    Acceptable(c, op, w) && w == Target(c, op, w)
  }

  // ---- How the ledger executes ------------------------------------------

  /** The wallet's side of an instruction. */
  function WalletAfter(w: Wallet, i: Instr): Option<Wallet> {
    match i
    case SolIn(_, amount) => Some(w.(sol := w.sol + amount))
    case SolOut(_, amount) => if w.sol < amount then None else Some(w.(sol := w.sol - amount))
    case CreateAta(_, k) =>
      if k >= |w.atas| then None
      else if w.atas[k].Some? then Some(w)
      else Some(w.(atas := w.atas[k := Some(0)]))
    case TokenIn(_, k, amount) =>
      if k >= |w.atas| || w.atas[k].None? then None
      else Some(w.(atas := w.atas[k := Some(w.atas[k].value + amount)]))
    case TokenOut(_, k, amount) =>
      if k >= |w.atas| || w.atas[k].None? || w.atas[k].value < amount then None
      else Some(w.(atas := w.atas[k := Some(w.atas[k].value - amount)]))
    case CloseAta(_, k) =>
      if k >= |w.atas| || w.atas[k] != Some(0) then None
      else Some(w.(atas := w.atas[k := None]))
  }

  /** The funder's side: token transfers move its balance the other way. */
  function FunderAfter(funder: seq<nat>, i: Instr): Option<seq<nat>> {
    match i
    case TokenIn(_, k, amount) =>
      if k >= |funder| || funder[k] < amount then None else Some(funder[k := funder[k] - amount])
    case TokenOut(_, k, amount) =>
      if k >= |funder| then None else Some(funder[k := funder[k] + amount])
    case _ => Some(funder)
  }

  function ExecInstr(l: Ledger, i: Instr): Option<Ledger> {
    if i.user >= |l.wallets| then None
    else
      match WalletAfter(l.wallets[i.user], i)
      case None => None
      case Some(w) =>
        match FunderAfter(l.funder, i)
        case None => None
        case Some(f) => Some(Ledger(f, l.wallets[i.user := w]))
  }

  /** All instructions or none: a failing one undoes the whole transaction. */
  function Exec(l: Ledger, instrs: seq<Instr>): Option<Ledger> {
    if instrs == [] then Some(l)
    else
      match Exec(l, instrs[..|instrs| - 1])
      case None => None
      case Some(m) => ExecInstr(m, instrs[|instrs| - 1])
  }

  function Flatten(items: seq<PreparedUser>): seq<Instr> {
    if items == [] then []
    else Flatten(items[..|items| - 1]) + items[|items| - 1].instrs
  }

  function Users(items: seq<PreparedUser>): set<nat> {
    set i | 0 <= i < |items| :: items[i].index
  }

  predicate Distinct(items: seq<PreparedUser>) {
    forall i, j :: 0 <= i < j < |items| ==> items[i].index != items[j].index
  }

  /** Every item holds exactly what `op` would build from the wallet as it is now. */
  predicate Matches(c: Config, op: Op, l: Ledger, items: seq<PreparedUser>)
    requires LedgerOk(c, l)
  {
    forall i :: 0 <= i < |items| ==>
      && items[i].index < c.users
      && items[i].instrs != []
      && AllInstrs(c, op, l.wallets[items[i].index], items[i].index) == Some(items[i].instrs)
  }

  // ---- Executing what was built -----------------------------------------

  lemma {:induction false} ExecAppend(l: Ledger, a: seq<Instr>, b: seq<Instr>)
    ensures Exec(l, a + b) == (match Exec(l, a) case None => None case Some(m) => Exec(m, b))
  {
    if b == [] {
      assert a + b == a;
    } else {
      ExecAppend(l, a, b[..|b| - 1]);
      assert (a + b)[..|a + b| - 1] == a + b[..|b| - 1];
    }
  }

  lemma {:induction false} InstrsAccepted(c: Config, op: Op, w: Wallet, u: nat, n: nat)
    requires WalletOk(c, w) && n <= |c.targets| + 1
    ensures Instrs(c, op, w, u, n).Some? <==>
            (op == Setup && !c.allowAbove ==>
               forall k :: 0 <= k < n - 1 ==> Balance(w.atas[k]) <= c.targets[k])
  {
    if n > 0 { InstrsAccepted(c, op, w, u, n - 1); }
  }

  /** Carrying out one slot's instructions, in order, on the wallet alone. */
  function WalletExec(w: Wallet, instrs: seq<Instr>): Option<Wallet> {
    if instrs == [] then Some(w)
    else
      match WalletExec(w, instrs[..|instrs| - 1])
      case None => None
      case Some(v) => WalletAfter(v, instrs[|instrs| - 1])
  }

  lemma WalletExecTwo(w: Wallet, i: Instr, j: Instr)
    ensures WalletExec(w, [i]) == WalletAfter(w, i)
    ensures WalletExec(w, [i, j]) == (match WalletAfter(w, i) case None => None case Some(v) => WalletAfter(v, j))
  {
    assert [i][..0] == [] && [i, j][..1] == [i];
  }

  lemma TopUp(p: Wallet, u: nat, k: nat, deficit: nat)
    requires k < |p.atas|
    ensures WalletAfter(p, CreateAta(u, k)).Some?
    ensures WalletAfter(WalletAfter(p, CreateAta(u, k)).value, TokenIn(u, k, deficit)) ==
            Some(p.(atas := p.atas[k := Some(Balance(p.atas[k]) + deficit)]))
  {
    var v := WalletAfter(p, CreateAta(u, k)).value;
    var total := Some(Balance(p.atas[k]) + deficit);
    assert v.atas[k := total] == p.atas[k := total];
  }

  /** One more slot moves the wallet one more slot towards its target. */
  lemma WalletExecSetup(c: Config, w: Wallet, p: Wallet, u: nat, slot: nat)
    requires WalletOk(c, w) && WalletOk(c, p) && slot <= |c.targets|
    requires if slot == 0 then p.sol == w.sol else p.atas[slot - 1] == w.atas[slot - 1]
    requires SetupSlot(c, w, u, slot).Some?
    ensures WalletExec(p, SetupSlot(c, w, u, slot).value) == Some(SetSlot(c, Setup, w, p, slot))
  {
    if slot == 0 {
      WalletExecTwo(p, SolIn(u, Max(0, c.solTarget - w.sol)), SolIn(u, 0));
    } else {
      var k := slot - 1;
      var deficit := BalanceDeficit(Balance(w.atas[k]), c.targets[k], c.allowAbove).value;
      var todo := SetupSlot(c, w, u, slot).value;
      if deficit > 0 {
        assert todo == [CreateAta(u, k), TokenIn(u, k, deficit)];
        WalletExecTwo(p, todo[0], todo[1]);
        TopUp(p, u, k, deficit);
      } else if w.atas[k].None? {
        assert todo == [CreateAta(u, k)];
        WalletExecTwo(p, todo[0], todo[0]);
      } else {
        assert todo == [];
        assert p.atas == p.atas[k := p.atas[k]];
      }
    }
  }

  lemma WalletExecTeardown(c: Config, w: Wallet, p: Wallet, u: nat, slot: nat)
    requires WalletOk(c, w) && WalletOk(c, p) && slot <= |c.targets|
    requires if slot == |c.targets| then p.sol == w.sol else p.atas[slot] == w.atas[slot]
    ensures WalletExec(p, TeardownSlot(c, w, u, slot)) == Some(SetSlot(c, Teardown, w, p, slot))
  {
    var todo := TeardownSlot(c, w, u, slot);
    if todo == [] {
      assert slot < |c.targets| ==> p.atas == p.atas[slot := None];
    } else if |todo| == 1 {
      WalletExecTwo(p, todo[0], todo[0]);
      assert todo == [todo[0]];
    } else {
      WalletExecTwo(p, todo[0], todo[1]);
      assert todo == [todo[0], todo[1]];
      assert p.atas[slot := Some(0)][slot := None] == p.atas[slot := None];
    }
  }

  /** Slots not yet carried out are still as they were read. */
  lemma {:induction false} PartialRest(c: Config, op: Op, w: Wallet, n: nat)
    requires WalletOk(c, w) && n <= |c.targets| + 1
    ensures var p := Partial(c, op, w, n);
            && (forall k :: 0 <= k < |c.targets| ==>
                  p.atas[k] == if k < (if op == Setup then n - 1 else n) then Target(c, op, w).atas[k] else w.atas[k])
            && p.sol == if n > (if op == Setup then 0 else |c.targets|) then Target(c, op, w).sol else w.sol
  {
    if n > 0 { PartialRest(c, op, w, n - 1); }
  }

  lemma PartialIsTarget(c: Config, op: Op, w: Wallet)
    requires WalletOk(c, w)
    ensures Partial(c, op, w, |c.targets| + 1) == Target(c, op, w)
  {
    PartialRest(c, op, w, |c.targets| + 1);
    assert Partial(c, op, w, |c.targets| + 1).atas == Target(c, op, w).atas;
  }

  /** A user's own instructions touch that user's wallet alone. */
  lemma {:induction false} ExecOwn(l: Ledger, u: nat, instrs: seq<Instr>)
    requires u < |l.wallets| && forall i :: i in instrs ==> i.user == u
    ensures var r := Exec(l, instrs);
            r.Some? ==> WalletExec(l.wallets[u], instrs).Some?
                        && r.value.wallets == l.wallets[u := WalletExec(l.wallets[u], instrs).value]
  {
    if instrs != [] { ExecOwn(l, u, instrs[..|instrs| - 1]); }
  }

  lemma {:induction false} WalletExecAppend(w: Wallet, a: seq<Instr>, b: seq<Instr>)
    ensures WalletExec(w, a + b) == (match WalletExec(w, a) case None => None case Some(v) => WalletExec(v, b))
  {
    if b == [] {
      assert a + b == a;
    } else {
      WalletExecAppend(w, a, b[..|b| - 1]);
      assert (a + b)[..|a + b| - 1] == a + b[..|b| - 1];
    }
  }

  lemma {:induction false} InstrsOwn(c: Config, op: Op, w: Wallet, u: nat, n: nat)
    requires WalletOk(c, w) && n <= |c.targets| + 1 && Instrs(c, op, w, u, n).Some?
    ensures forall i :: i in Instrs(c, op, w, u, n).value ==> i.user == u
  {
    if n > 0 { InstrsOwn(c, op, w, u, n - 1); }
  }

  lemma {:induction false} WalletExecPrefix(c: Config, op: Op, w: Wallet, u: nat, n: nat)
    requires WalletOk(c, w) && n <= |c.targets| + 1 && Instrs(c, op, w, u, n).Some?
    ensures WalletExec(w, Instrs(c, op, w, u, n).value) == Some(Partial(c, op, w, n))
  {
    if n > 0 {
      var p := Partial(c, op, w, n - 1);
      WalletExecPrefix(c, op, w, u, n - 1);
      PartialRest(c, op, w, n - 1);
      WalletExecAppend(w, Instrs(c, op, w, u, n - 1).value, Slot(c, op, w, u, n - 1).value);
      match op
      case Setup => WalletExecSetup(c, w, p, u, n - 1);
      case Teardown => WalletExecTeardown(c, w, p, u, n - 1);
    }
  }

  /** Execution never changes how many wallets, assets or accounts there are. */
  lemma {:induction false} ExecKeepsShape(c: Config, l: Ledger, instrs: seq<Instr>)
    requires LedgerOk(c, l)
    ensures var r := Exec(l, instrs); r.Some? ==> LedgerOk(c, r.value)
  {
    if instrs != [] { ExecKeepsShape(c, l, instrs[..|instrs| - 1]); }
  }

  lemma ExecItem(c: Config, op: Op, l: Ledger, item: PreparedUser)
    requires LedgerOk(c, l) && item.index < c.users
    requires AllInstrs(c, op, l.wallets[item.index], item.index) == Some(item.instrs)
    ensures var r := Exec(l, item.instrs);
            r.Some? ==>
              && LedgerOk(c, r.value)
              && r.value.wallets == l.wallets[item.index := Target(c, op, l.wallets[item.index])]
  {
    var w := l.wallets[item.index];
    WalletExecPrefix(c, op, w, item.index, |c.targets| + 1);
    InstrsOwn(c, op, w, item.index, |c.targets| + 1);
    PartialIsTarget(c, op, w);
    ExecOwn(l, item.index, item.instrs);
    ExecKeepsShape(c, l, item.instrs);
  }

  /** The ledger that differs from `l` only in that `users` are at their targets. */
  ghost predicate Moved(c: Config, op: Op, l: Ledger, m: Ledger, users: set<nat>)
    requires LedgerOk(c, l)
  {
    && LedgerOk(c, m)
    && forall u :: 0 <= u < c.users ==>
         m.wallets[u] == if u in users then Target(c, op, l.wallets[u]) else l.wallets[u]
  }

  lemma UsersAppend(a: seq<PreparedUser>, b: seq<PreparedUser>)
    ensures Users(a + b) == Users(a) + Users(b)
  {
    var all := a + b;
    forall u | u in Users(all) ensures u in Users(a) + Users(b) {
      var i :| 0 <= i < |all| && all[i].index == u;
      if i < |a| { assert a[i].index == u; } else { assert b[i - |a|].index == u; }
    }
    forall u | u in Users(a) ensures u in Users(all) {
      var i :| 0 <= i < |a| && a[i].index == u;
      assert all[i].index == u;
    }
    forall u | u in Users(b) ensures u in Users(all) {
      var i :| 0 <= i < |b| && b[i].index == u;
      assert all[|a| + i].index == u;
    }
  }

  lemma DistinctAppend(a: seq<PreparedUser>, b: seq<PreparedUser>)
    requires Distinct(a + b)
    ensures Distinct(a) && Distinct(b) && Users(a) !! Users(b)
  {
    var all := a + b;
    forall i, j | 0 <= i < j < |a| ensures a[i].index != a[j].index {
      assert all[i] == a[i] && all[j] == a[j];
    }
    forall i, j | 0 <= i < j < |b| ensures b[i].index != b[j].index {
      assert all[|a| + i] == b[i] && all[|a| + j] == b[j];
    }
    forall i, j | 0 <= i < |a| && 0 <= j < |b| ensures a[i].index != b[j].index {
      assert all[i] == a[i] && all[|a| + j] == b[j];
    }
  }

  lemma MovedOneMore(c: Config, op: Op, l: Ledger, m: Ledger, users: set<nat>, item: PreparedUser)
    requires LedgerOk(c, l) && Moved(c, op, l, m, users)
    requires item.index < c.users && item.index !in users
    requires AllInstrs(c, op, l.wallets[item.index], item.index) == Some(item.instrs)
    ensures var r := Exec(m, item.instrs);
            r.Some? ==> Moved(c, op, l, r.value, users + {item.index})
  {
    assert m.wallets[item.index] == l.wallets[item.index];
    ExecItem(c, op, m, item);
  }

  /** Landing a transaction takes each of its wallets to its target and no other anywhere. */
  lemma {:induction false} ExecItems(c: Config, op: Op, l: Ledger, items: seq<PreparedUser>)
    requires LedgerOk(c, l) && Distinct(items) && Matches(c, op, l, items)
    ensures var r := Exec(l, Flatten(items)); r.Some? ==> Moved(c, op, l, r.value, Users(items))
  {
    if items != [] {
      var front, last := items[..|items| - 1], items[|items| - 1];
      assert items == front + [last];
      UsersAppend(front, [last]);
      DistinctAppend(front, [last]);
      assert [last][0].index in Users([last]) && Users([last]) == {last.index};
      ExecItems(c, op, l, front);
      ExecAppend(l, Flatten(front), last.instrs);
      var m := Exec(l, Flatten(front));
      if m.Some? {
        MovedOneMore(c, op, l, m.value, Users(front), last);
      }
    }
  }

  /** The slot is where `op` wants it. */
  predicate SlotDone(c: Config, op: Op, w: Wallet, slot: nat)
    requires WalletOk(c, w) && slot <= |c.targets|
  {
    match op
    case Setup =>
      if slot == 0 then w.sol >= c.solTarget
      else w.atas[slot - 1].Some? && w.atas[slot - 1].value >= c.targets[slot - 1]
    case Teardown =>
      if slot == |c.targets| then c.solTarget > 0 ==> w.sol == 0 else w.atas[slot].None?
  }

  lemma {:induction false} NothingYet(c: Config, op: Op, w: Wallet, u: nat, n: nat)
    requires WalletOk(c, w) && n <= |c.targets| + 1 && Instrs(c, op, w, u, n).Some?
    ensures Instrs(c, op, w, u, n).value == [] <==> forall i :: 0 <= i < n ==> SlotDone(c, op, w, i)
  {
    if n > 0 {
      NothingYet(c, op, w, u, n - 1);
      assert Slot(c, op, w, u, n - 1).value == [] <==> SlotDone(c, op, w, n - 1);
      assert (forall i :: 0 <= i < n ==> SlotDone(c, op, w, i)) <==>
             SlotDone(c, op, w, n - 1) && forall i :: 0 <= i < n - 1 ==> SlotDone(c, op, w, i);
      var prefix, more := Instrs(c, op, w, u, n - 1).value, Slot(c, op, w, u, n - 1).value;
      assert prefix + more == [] <==> prefix == [] && more == [];
    }
  }

  lemma TargetReached(c: Config, op: Op, w: Wallet)
    requires WalletOk(c, w)
    ensures w == Target(c, op, w) <==> forall i :: 0 <= i <= |c.targets| ==> SlotDone(c, op, w, i)
  {
    var t := Target(c, op, w);
    if forall i :: 0 <= i <= |c.targets| ==> SlotDone(c, op, w, i) {
      forall k | 0 <= k < |c.targets| ensures t.atas[k] == w.atas[k] {
        assert SlotDone(c, op, w, k) && SlotDone(c, op, w, k + 1);
      }
      assert SlotDone(c, op, w, 0) && SlotDone(c, op, w, |c.targets|);
      assert t.atas == w.atas;
    }
    if w == t {
      forall i | 0 <= i <= |c.targets| ensures SlotDone(c, op, w, i) {
        if i < |c.targets| { assert w.atas[i] == t.atas[i]; }
        if i > 0 { assert w.atas[i - 1] == t.atas[i - 1]; }
      }
    }
  }

  /** Nothing is left to build for a wallet exactly when it is where `op` wants it. */
  lemma NothingToDo(c: Config, op: Op, w: Wallet, u: nat)
    requires WalletOk(c, w)
    ensures AllInstrs(c, op, w, u) == Some([]) <==> Settled(c, op, w)
  {
    InstrsAccepted(c, op, w, u, |c.targets| + 1);
    TargetReached(c, op, w);
    if AllInstrs(c, op, w, u).Some? {
      NothingYet(c, op, w, u, |c.targets| + 1);
    }
  }

  lemma TargetSettled(c: Config, op: Op, w: Wallet)
    requires WalletOk(c, w) && Acceptable(c, op, w)
    ensures WalletOk(c, Target(c, op, w)) && Settled(c, op, Target(c, op, w))
  {
    var t := Target(c, op, w);
    assert t.atas == Target(c, op, t).atas;
  }

  // ---- Conservation ------------------------------------------------------

  function Held(ws: seq<Wallet>, k: nat): nat {
    if ws == [] then 0
    else Held(ws[..|ws| - 1], k) + var w := ws[|ws| - 1]; if k < |w.atas| then Balance(w.atas[k]) else 0
  }

  function Supply(l: Ledger, k: nat): nat
    requires k < |l.funder|
  {
    l.funder[k] + Held(l.wallets, k)
  }

  lemma {:induction false} HeldUpdate(ws: seq<Wallet>, u: nat, w: Wallet, k: nat)
    requires u < |ws|
    ensures var at := (x: Wallet) => if k < |x.atas| then Balance(x.atas[k]) else 0;
            Held(ws[u := w], k) == Held(ws, k) - at(ws[u]) + at(w)
  {
    var n := |ws| - 1;
    if u == n {
      assert ws[u := w][..n] == ws[..n];
    } else {
      HeldUpdate(ws[..n], u, w, k);
      assert ws[u := w][..n] == ws[..n][u := w];
    }
  }

  lemma {:induction false} ExecConserves(l: Ledger, instrs: seq<Instr>, k: nat)
    requires k < |l.funder|
    ensures var r := Exec(l, instrs);
            r.Some? ==> |r.value.funder| == |l.funder| && Supply(r.value, k) == Supply(l, k)
  {
    if instrs != [] {
      ExecConserves(l, instrs[..|instrs| - 1], k);
      var m := Exec(l, instrs[..|instrs| - 1]);
      var r := Exec(l, instrs);
      if m.Some? && r.Some? {
        var i := instrs[|instrs| - 1];
        HeldUpdate(m.value.wallets, i.user, WalletAfter(m.value.wallets[i.user], i).value, k);
      }
    }
  }

  /** With every account closed, the funder holds the whole supply. */
  lemma {:induction false} ClosedHoldNothing(ws: seq<Wallet>, k: nat)
    requires forall u, j :: 0 <= u < |ws| && 0 <= j < |ws[u].atas| ==> ws[u].atas[j].None?
    ensures Held(ws, k) == 0
  {
    if ws != [] { ClosedHoldNothing(ws[..|ws| - 1], k); }
  }
}
