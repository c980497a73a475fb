/**
 `setup` and `teardown` (rust/bench/src/fixtures.rs) as one state machine: the
 saved journal, the process that a crash wipes out anywhere, and the cluster,
 which may land any signed transaction at most once, whenever it likes, in a
 block no higher than the transaction's last valid height.
 */
module FixtureProtocol {
  import opened Common
  import opened FixtureLedger
  import opened FixturePacking
  import opened FixtureStore

  /** What follows a submitted list of transactions. */
  datatype Goto = Begin | Advance(from: nat, to: nat)

  /** Where the process is. Everything in here is lost in a crash. */
  datatype Proc =
    | Down
    | Resolving(op: Op, todo: seq<Pending>, asked: bool)
    | Resolved(op: Op)
    | Opening(op: Op)
    | Opened(op: Op, start: nat)
    | Windows(op: Op, from: nat)
    | Reading(op: Op, from: nat, to: nat, done: seq<PreparedUser>, slot: nat, sofar: seq<Instr>)
    | Signing(op: Op, from: nat, to: nat, groups: Groups, txs: seq<Tx>)
    | Awaiting(op: Op, goto: Goto, txs: seq<Tx>, seen: nat, oks: seq<Tx>, err: bool)
    | Clearing(op: Op, goto: Goto, txs: seq<Tx>, oks: seq<Tx>, err: bool)

  /**
   `signed` are the transactions that exist, `landed` and `failed` those the
   cluster has executed. `skipped` is history only: how far the checkpoint stood
   when a crash separated the two saves that open a teardown.
   */
  datatype State = State(
    journal: Journal,
    ledger: Ledger,
    height: nat,
    signed: set<Tx>,
    landed: set<Tx>,
    failed: set<Tx>,
    proc: Proc,
    skipped: nat)

  datatype Action =
    | Start(op: Op)
    | ReadStatus
    | ReadHeight
    | SignFunderAccounts(blockhash: nat, lastValid: nat)
    | SavePhase
    | SaveStart
    | OpenWindow
    | ReadSlot
    | Plan
    | Sign(blockhash: nat, lastValid: nat)
    | Broadcast
    | Await(ok: bool)
    | Clear
    | Continue
    | Finish
    | Crash
    | Land(tx: Tx, ok: bool)
    | Tick

  function Initial(l: Ledger, height: nat): State {
    State(Journal(SettingUp, 0, []), l, height, {}, {}, {}, Down, 0)
  }

  predicate Live(s: State, tx: Tx) {
    tx in s.signed && tx !in s.landed && tx !in s.failed && s.height < tx.lastValid
  }

  predicate MayStart(op: Op, phase: Phase) {
    match op
    case Setup => phase == SettingUp || phase == Ready
    case Teardown => phase != TornDown
  }

  function PhaseOf(op: Op): Phase {
    match op case Setup => SettingUp case Teardown => TearingDown
  }

  /** One transaction per user that has something to recover. */
  function Singles(items: seq<PreparedUser>): Groups {
    if items == [] then [] else [[items[0]]] + Singles(items[1..])
  }

  function Batches(c: Config, op: Op, done: seq<PreparedUser>): Option<Groups> {
    match op
    case Setup => Pack(c, [], done)
    case Teardown => Some(Singles(Busy(done)))
  }

  // ---- The steps ---------------------------------------------------------

  function StepResolve(s: State, height: bool): State
    requires s.proc.Resolving?
  {
    var p := s.proc;
    if p.todo == [] then s.(proc := Resolved(p.op))
    else
      var sig := p.todo[0].signature;
      var dropped := s.(journal := ClearPending(s.journal, sig), proc := Resolving(p.op, p.todo[1..], false));
      if height then
        if !p.asked then s
        else if s.height >= p.todo[0].lastValid then dropped
        else s.(proc := Down)
      else if p.asked then s
      else if sig in s.landed then dropped
      else if sig in s.failed then s.(proc := Down)
      else s.(proc := p.(asked := true))
  }

  function StepSavePhase(c: Config, s: State): State
    requires s.proc.Opening?
  {
    match s.proc.op
    case Setup =>
      s.(journal := s.journal.(phase := SettingUp),
         proc := Opened(Setup, SetupResumeIndex(s.journal.phase, s.journal.nextUser)))
    case Teardown =>
      if s.journal.phase == TearingDown then s.(proc := Windows(Teardown, Min(s.journal.nextUser, c.users)))
      else s.(journal := s.journal.(phase := TearingDown), proc := Opened(Teardown, 0))
  }

  function StepReadSlot(c: Config, s: State): State
    requires s.proc.Reading? && LedgerOk(c, s.ledger)
  {
    var p := s.proc;
    var u := p.from + |p.done|;
    if u >= p.to || u >= c.users || p.slot > |c.targets| + 1 then s
    else if p.slot == |c.targets| + 1 then
      s.(proc := p.(done := p.done + [PreparedUser(u, p.sofar)], slot := 0, sofar := []))
    else
      match Slot(c, p.op, s.ledger.wallets[u], u, p.slot)
      case None => s.(proc := Down)
      case Some(more) => s.(proc := p.(slot := p.slot + 1, sofar := p.sofar + more))
  }

  function SignAndSave(s: State, tx: Tx, userIndex: nat): State {
    s.(signed := s.signed + {tx},
       journal := AddPending(s.journal, Pending(tx, tx.op, userIndex, tx.lastValid)))
  }

  function StepSign(s: State, blockhash: nat, lastValid: nat): State
    requires s.proc.Signing?
  {
    var p := s.proc;
    if p.groups == [] || p.groups[0] == [] then s
    else
      var tx := Tx(p.op, p.groups[0], blockhash, lastValid);
      SignAndSave(s, tx, p.groups[0][0].index)
        .(proc := p.(groups := p.groups[1..], txs := p.txs + [tx]))
  }

  function StepAwait(s: State, ok: bool): State
    requires s.proc.Awaiting?
  {
    var p := s.proc;
    if p.seen >= |p.txs| then s.(proc := Clearing(p.op, p.goto, p.txs, p.oks, p.err))
    else if !ok then s.(proc := p.(seen := p.seen + 1, err := true))
    else if p.txs[p.seen] in s.landed then
      s.(proc := p.(seen := p.seen + 1, oks := p.oks + [p.txs[p.seen]]))
    else s
  }

  function StepClear(s: State): State
    requires s.proc.Clearing?
  {
    var p := s.proc;
    if p.oks == [] then s
    else s.(journal := ClearPending(s.journal, p.oks[0]), proc := p.(oks := p.oks[1..]))
  }

  function StepContinue(s: State): State
    requires s.proc.Clearing?
  {
    var p := s.proc;
    if p.oks != [] then s
    else if p.err then s.(proc := Down)
    else
      match p.goto
      case Begin => s.(proc := Opening(p.op))
      case Advance(_, to) => s.(journal := s.journal.(nextUser := to), proc := Windows(p.op, to))
  }

  function StepCrash(s: State): State {
    s.(proc := Down,
       skipped := if s.proc.Opened? && s.proc.op == Teardown then s.journal.nextUser else s.skipped)
  }

  function StepLand(c: Config, s: State, tx: Tx, ok: bool): (t: State)
    requires LedgerOk(c, s.ledger)
    ensures LedgerOk(c, t.ledger)
  {
    ExecKeepsShape(c, s.ledger, Flatten(tx.items));
    if !Live(s, tx) then s
    else
      match Exec(s.ledger, Flatten(tx.items))
      case Some(l) =>
        if ok then s.(ledger := l, landed := s.landed + {tx}) else s.(failed := s.failed + {tx})
      case None => s.(failed := s.failed + {tx})
  }

  /** An action that does not apply where the process is leaves everything alone. */
  function Step(c: Config, s: State, a: Action): (t: State)
    requires LedgerOk(c, s.ledger)
    ensures LedgerOk(c, t.ledger)
  {
    var p := s.proc;
    match a
    case Start(op) =>
      if p.Down? && MayStart(op, s.journal.phase) then s.(proc := Resolving(op, s.journal.pending, false)) else s
    case ReadStatus => if p.Resolving? then StepResolve(s, false) else s
    case ReadHeight => if p.Resolving? then StepResolve(s, true) else s
    case SignFunderAccounts(blockhash, lastValid) =>
      if p.Resolved? then
        var tx := Tx(p.op, [], blockhash, lastValid);
        SignAndSave(s, tx, U64_MAX).(proc := Awaiting(p.op, Begin, [tx], 0, [], false))
      else s
    case SavePhase => if p.Opening? then StepSavePhase(c, s) else s
    case SaveStart =>
      if p.Opened? then s.(journal := s.journal.(nextUser := p.start), proc := Windows(p.op, p.start)) else s
    case OpenWindow =>
      if p.Windows? && p.from < c.users then
        s.(proc := Reading(p.op, p.from, Min(p.from + c.windowUsers, c.users), [], 0, []))
      else s
    case ReadSlot => if p.Reading? then StepReadSlot(c, s) else s
    case Plan =>
      if p.Reading? && p.from + |p.done| == p.to then
        match Batches(c, p.op, p.done)
        case None => s.(proc := Down)
        case Some(groups) => s.(proc := Signing(p.op, p.from, p.to, groups, []))
      else s
    case Sign(blockhash, lastValid) => if p.Signing? then StepSign(s, blockhash, lastValid) else s
    case Broadcast =>
      if p.Signing? && p.groups == [] then
        s.(proc := Awaiting(p.op, Advance(p.from, p.to), p.txs, 0, [], false))
      else s
    case Await(ok) => if p.Awaiting? then StepAwait(s, ok) else s
    case Clear => if p.Clearing? then StepClear(s) else s
    case Continue => if p.Clearing? then StepContinue(s) else s
    case Finish =>
      if p.Windows? && p.from >= c.users then
        s.(journal := s.journal.(phase := match p.op case Setup => Ready case Teardown => TornDown), proc := Down)
      else s
    case Crash => StepCrash(s)
    case Land(tx, ok) => StepLand(c, s, tx, ok)
    case Tick => s.(height := s.height + 1)
  }

  function Run(c: Config, s: State, run: seq<Action>): (t: State)
    requires LedgerOk(c, s.ledger)
    ensures LedgerOk(c, t.ledger)
  {
    if run == [] then s else Step(c, Run(c, s, run[..|run| - 1]), run[|run| - 1])
  }

  // ---- What every step keeps ---------------------------------------------

  /** Which command the journal's phase belongs to. */
  function Side(phase: Phase): Op {
    if phase == TearingDown || phase == TornDown then Teardown else Setup
  }

  predicate TxOk(c: Config, phase: Phase, tx: Tx) {
    && Distinct(tx.items)
    && (forall i :: 0 <= i < |tx.items| ==> tx.items[i].index < c.users)
    && (tx.op == Teardown && tx.items != [] ==> Side(phase) == Teardown)
  }

  ghost predicate Shape(c: Config, s: State) {
    && LedgerOk(c, s.ledger)
    && c.windowUsers > 0
    && s.journal.nextUser <= c.users
    && s.skipped <= c.users
    && (forall p :: p in s.journal.pending ==> p.lastValid == p.signature.lastValid)
    && (forall tx :: tx in s.signed ==> TxOk(c, s.journal.phase, tx))
    && s.landed <= s.signed
  }

  /** Every transaction that could still land is in the saved pending list. */
  ghost predicate Saved(s: State) {
    forall tx :: Live(s, tx) ==> tx in Signatures(s.journal.pending)
  }

  /** A transaction that could still land says what its wallets need now, and shares none of them. */
  ghost predicate Exclusive(c: Config, s: State)
    requires LedgerOk(c, s.ledger)
  {
    && (forall tx :: Live(s, tx) ==>
          && Matches(c, tx.op, s.ledger, tx.items)
          && (tx.items != [] ==> tx.op == Side(s.journal.phase))
          && (tx.op == Teardown ==> forall i :: 0 <= i < |tx.items| ==> s.skipped <= tx.items[i].index))
    && (forall a, b :: Live(s, a) && Live(s, b) && a != b ==> Users(a.items) !! Users(b.items))
  }

  ghost predicate LandedSettled(c: Config, s: State)
    requires Shape(c, s)
  {
    forall tx, i :: tx in s.landed && tx.op == Side(s.journal.phase) && 0 <= i < |tx.items| ==>
      Settled(c, tx.op, s.ledger.wallets[tx.items[i].index])
  }

  /** The only states a wallet passes through: as found, funded, emptied. */
  predicate Stage(c: Config, side: Op, was: Wallet, w: Wallet)
    requires WalletOk(c, was)
  {
    || w == was
    || w == Target(c, Setup, was)
    || (side == Teardown &&
        (w == Target(c, Teardown, was) || w == Target(c, Teardown, Target(c, Setup, was))))
  }

  ghost predicate Staged(c: Config, init: Ledger, s: State)
    requires LedgerOk(c, init) && LedgerOk(c, s.ledger)
  {
    && (forall u :: 0 <= u < c.users ==>
          Stage(c, Side(s.journal.phase), init.wallets[u], s.ledger.wallets[u]))
    && (forall k :: 0 <= k < |c.targets| ==> Supply(s.ledger, k) == Supply(init, k))
  }

  ghost predicate SettledTo(c: Config, op: Op, l: Ledger, from: nat, to: nat)
    requires LedgerOk(c, l) && to <= c.users
  {
    forall u :: from <= u < to ==> Settled(c, op, l.wallets[u])
  }

  /** What the saved phase and checkpoint promise about the wallets. */
  ghost predicate Progress(c: Config, s: State)
    requires Shape(c, s)
  {
    var j := s.journal;
    match Side(j.phase)
    case Setup =>
      s.skipped == 0 && SettledTo(c, Setup, s.ledger, 0, if j.phase == Ready then c.users else j.nextUser)
    case Teardown =>
      if s.proc.Opened? then
        s.skipped == 0 && SettledTo(c, Setup, s.ledger, 0, j.nextUser)
      else
        && s.skipped <= j.nextUser
        && SettledTo(c, Setup, s.ledger, 0, s.skipped)
        && SettledTo(c, Teardown, s.ledger, s.skipped, if j.phase == TornDown then c.users else j.nextUser)
  }

  ghost predicate Quiet(s: State) {
    Signatures(s.journal.pending) == {}
  }

  /** The window the process is working on is the one the checkpoint points at. */
  predicate InWindow(c: Config, s: State, op: Op, from: nat, to: nat) {
    s.journal.phase == PhaseOf(op) && s.journal.nextUser == from && from < to <= c.users
  }

  ghost predicate Covered(c: Config, s: State, op: Op, from: nat, to: nat, rest: set<nat>, txs: seq<Tx>)
    requires LedgerOk(c, s.ledger) && to <= c.users
  {
    forall u :: from <= u < to ==>
      || Settled(c, op, s.ledger.wallets[u])
      || u in rest
      || exists tx :: tx in txs && u in Users(tx.items)
  }

  /** The transactions of the window are the only ones that can be saved as pending. */
  ghost predicate Submitted(s: State, op: Op, txs: seq<Tx>) {
    && (forall tx :: tx in Signatures(s.journal.pending) ==> tx in txs)
    && (forall tx :: tx in txs ==> tx.op == op && tx in s.signed)
  }

  ghost predicate GotoOk(c: Config, s: State, op: Op, goto: Goto, txs: seq<Tx>)
    requires LedgerOk(c, s.ledger)
  {
    match goto
    case Begin => MayStart(op, s.journal.phase)
    case Advance(from, to) => InWindow(c, s, op, from, to) && Covered(c, s, op, from, to, {}, txs)
  }

  ghost predicate ReadingOk(c: Config, s: State)
    requires s.proc.Reading? && LedgerOk(c, s.ledger)
  {
    var p := s.proc;
    var u := p.from + |p.done|;
    && Quiet(s) && InWindow(c, s, p.op, p.from, p.to)
    && u <= p.to
    && (forall i :: 0 <= i < |p.done| ==>
          && p.done[i].index == p.from + i
          && AllInstrs(c, p.op, s.ledger.wallets[p.from + i], p.from + i) == Some(p.done[i].instrs))
    && p.slot <= |c.targets| + 1
    && (u < p.to ==> Instrs(c, p.op, s.ledger.wallets[u], u, p.slot) == Some(p.sofar))
  }

  ghost predicate SigningOk(c: Config, s: State)
    requires s.proc.Signing? && LedgerOk(c, s.ledger)
  {
    var p := s.proc;
    var rest := Concat(p.groups);
    && InWindow(c, s, p.op, p.from, p.to)
    && Submitted(s, p.op, p.txs)
    && (forall g :: g in p.groups ==> g != [])
    && Distinct(rest) && Matches(c, p.op, s.ledger, rest)
    && (forall i :: 0 <= i < |rest| ==> p.from <= rest[i].index < p.to)
    && (forall tx :: Live(s, tx) ==> Users(tx.items) !! Users(rest))
    && Covered(c, s, p.op, p.from, p.to, Users(rest), p.txs)
  }

  ghost predicate ProcOk(c: Config, s: State)
    requires Shape(c, s)
  {
    var p, j := s.proc, s.journal;
    match p
    case Down => true
    case Resolving(op, todo, asked) =>
      && MayStart(op, j.phase)
      && (asked ==> todo != [])
      && Signatures(j.pending) <= Signatures(todo)
      && (forall q :: q in todo ==> q.lastValid == q.signature.lastValid)
    case Resolved(op) => MayStart(op, j.phase) && Quiet(s)
    case Opening(op) => MayStart(op, j.phase) && Quiet(s)
    case Opened(op, start) => j.phase == PhaseOf(op) && Quiet(s) && start <= j.nextUser && (op == Teardown ==> start == 0)
    case Windows(op, from) => j.phase == PhaseOf(op) && Quiet(s) && from == j.nextUser
    case Reading(_, _, _, _, _, _) => ReadingOk(c, s)
    case Signing(_, _, _, _, _) => SigningOk(c, s)
    case Awaiting(op, goto, txs, seen, oks, err) =>
      && Submitted(s, op, txs) && GotoOk(c, s, op, goto, txs)
      && seen <= |txs|
      && (forall tx :: tx in oks ==> tx in s.landed)
      && (!err ==> oks == txs[..seen])
    case Clearing(op, goto, txs, oks, err) =>
      && Submitted(s, op, txs) && GotoOk(c, s, op, goto, txs)
      && (forall tx :: tx in oks ==> tx in s.landed)
      && (!err ==>
            && (forall tx :: tx in txs ==> tx in s.landed)
            && (forall tx :: tx in Signatures(j.pending) ==> tx in oks))
  }

  ghost predicate Core(c: Config, init: Ledger, s: State)
    requires LedgerOk(c, init)
  {
    Shape(c, s) && Saved(s) && Exclusive(c, s) && LandedSettled(c, s) && Staged(c, init, s)
  }

  ghost predicate Inv(c: Config, init: Ledger, s: State)
    requires LedgerOk(c, init)
  {
    Core(c, init, s) && Progress(c, s) && ProcOk(c, s)
  }
}
