/**
 Packing per-user setup instructions into transactions
 (`pack_setup_instruction_batches`).
 */
module FixturePacking {
  import opened Common
  import opened FixtureLedger

  const MAX_SETUP_USERS_PER_TRANSACTION: nat := 4

  type Groups = seq<seq<PreparedUser>>

  function Concat(groups: Groups): seq<PreparedUser> {
    if groups == [] then [] else groups[0] + Concat(groups[1..])
  }

  /** The users that need a transaction at all. */
  function Busy(prepared: seq<PreparedUser>): seq<PreparedUser> {
    if prepared == [] then []
    else (if prepared[0].instrs == [] then [] else [prepared[0]]) + Busy(prepared[1..])
  }

  /** May `item` still join the open transaction? */
  predicate Joins(c: Config, open: seq<PreparedUser>, item: PreparedUser) {
    |open| < MAX_SETUP_USERS_PER_TRANSACTION && c.measured(Flatten(open) + item.instrs)
  }

  /** `open` is the transaction being filled; `None` is the error for exceeding a packet. */
  function Pack(c: Config, open: seq<PreparedUser>, prepared: seq<PreparedUser>): Option<Groups>
    decreases |prepared|
  {
    if prepared == [] then Some(if open == [] then [] else [open])
    else
      var item, rest := prepared[0], prepared[1..];
      if item.instrs == [] then Pack(c, open, rest)
      else if open != [] && !Joins(c, open, item) then
        if !c.sendable(item.instrs) then None
        else
          match Pack(c, [item], rest)
          case None => None
          case Some(groups) => Some([open] + groups)
      else if !c.sendable(Flatten(open) + item.instrs) then None
      else Pack(c, open + [item], rest)
  }

  predicate Sendable(c: Config, group: seq<PreparedUser>) {
    0 < |group| <= MAX_SETUP_USERS_PER_TRANSACTION && c.sendable(Flatten(group))
  }

  /** No transaction was closed while the next user could still have joined it. */
  predicate Greedy(c: Config, groups: Groups) {
    |groups| >= 2 ==>
      groups[1] != [] && !Joins(c, groups[0], groups[1][0]) && Greedy(c, groups[1..])
  }

  lemma FlattenPush(items: seq<PreparedUser>, item: PreparedUser)
    ensures Flatten(items + [item]) == Flatten(items) + item.instrs
  {
    assert (items + [item])[..|items|] == items;
  }

  lemma ConcatCons(group: seq<PreparedUser>, groups: Groups)
    ensures Concat([group] + groups) == group + Concat(groups)
  {
    assert ([group] + groups)[1..] == groups;
  }

  /** Packing loses nothing, repeats nothing and reorders nothing. */
  lemma {:induction false} PackIsLossless(c: Config, open: seq<PreparedUser>, prepared: seq<PreparedUser>)
    ensures var r := Pack(c, open, prepared); r.Some? ==> Concat(r.value) == open + Busy(prepared)
    decreases |prepared|
  {
    if prepared == [] {
      ConcatCons(open, []);
      assert [open] + [] == [open];
      return;
    }
    var item, rest := prepared[0], prepared[1..];
    if item.instrs == [] {
      PackIsLossless(c, open, rest);
      assert Busy(prepared) == Busy(rest);
      return;
    }
    if open != [] && !Joins(c, open, item) {
      PackIsLossless(c, [item], rest);
      var r := Pack(c, [item], rest);
      if r.Some? { ConcatCons(open, r.value); }
    } else {
      PackIsLossless(c, open + [item], rest);
      assert (open + [item]) + Busy(rest) == open + ([item] + Busy(rest));
    }
  }

  /** Every transaction is within both limits, and none was closed early. */
  lemma {:induction false} PackIsTight(c: Config, open: seq<PreparedUser>, prepared: seq<PreparedUser>)
    requires open != [] ==> Sendable(c, open)
    ensures var r := Pack(c, open, prepared);
            r.Some? ==>
              && (open != [] ==> r.value != [] && open <= r.value[0])
              && (forall i :: 0 <= i < |r.value| ==> Sendable(c, r.value[i]))
              && Greedy(c, r.value)
    decreases |prepared|
  {
    if prepared != [] {
      var item, rest := prepared[0], prepared[1..];
      FlattenPush(open, item);
      FlattenPush([], item);
      assert Flatten([]) + item.instrs == item.instrs;
      assert [] + [item] == [item];
      if item.instrs == [] {
        PackIsTight(c, open, rest);
      } else if open != [] && !Joins(c, open, item) {
        if c.sendable(item.instrs) {
          PackIsTight(c, [item], rest);
          var r := Pack(c, [item], rest);
          if r.Some? {
            assert ([open] + r.value)[1..] == r.value;
          }
        }
      } else if c.sendable(Flatten(open) + item.instrs) {
        PackIsTight(c, open + [item], rest);
      }
    }
  }

  /**
   When the size estimate is at least as strict as a packet's limit, and adding
   instructions never shrinks a transaction, packing is refused exactly when one
   user's own instructions are over the limit.
   */
  lemma {:induction false} PackFailsExactly(c: Config, open: seq<PreparedUser>, prepared: seq<PreparedUser>)
    requires forall instrs :: c.measured(instrs) ==> c.sendable(instrs)
    requires forall a, b :: c.sendable(a + b) ==> c.sendable(b)
    ensures Pack(c, open, prepared).None? <==>
            exists i :: 0 <= i < |prepared| && Oversized(c, prepared[i])
    decreases |prepared|
  {
    if prepared != [] {
      var item, rest := prepared[0], prepared[1..];
      assert Flatten([]) + item.instrs == item.instrs;
      assert (exists i :: 0 <= i < |prepared| && Oversized(c, prepared[i])) <==>
             Oversized(c, item) || exists i :: 0 <= i < |rest| && Oversized(c, rest[i]) by {
        forall i | 0 <= i < |rest| && Oversized(c, rest[i])
          ensures exists j :: 0 <= j < |prepared| && Oversized(c, prepared[j])
        {
          assert prepared[i + 1] == rest[i];
        }
        forall i | 0 <= i < |prepared| && Oversized(c, prepared[i])
          ensures Oversized(c, item) || exists j :: 0 <= j < |rest| && Oversized(c, rest[j])
        {
          assert i > 0 ==> rest[i - 1] == prepared[i];
        }
      }
      PackFailsExactly(c, open, rest);
      PackFailsExactly(c, [item], rest);
      PackFailsExactly(c, open + [item], rest);
    }
  }

  predicate Oversized(c: Config, item: PreparedUser) {
    item.instrs != [] && !c.sendable(item.instrs)
  }

  /** Packed transactions as the wire sees them: first user index and instructions. */
  function Wire(groups: Groups): seq<(nat, seq<Instr>)>
    requires forall i :: 0 <= i < |groups| ==> groups[i] != []
  {
    seq(|groups|, i requires 0 <= i < |groups| => (groups[i][0].index, Flatten(groups[i])))
  }

  method PackSetupInstructionBatches(c: Config, prepared: seq<PreparedUser>)
    returns (r: Option<seq<(nat, seq<Instr>)>>)
    ensures r.None? <==> Pack(c, [], prepared).None?
    ensures r.Some? ==>
              && (forall i :: 0 <= i < |Pack(c, [], prepared).value| ==> Pack(c, [], prepared).value[i] != [])
              && r.value == Wire(Pack(c, [], prepared).value)
  {
    var batches: seq<(nat, seq<Instr>)> := [];
    var currentIndex := 0;
    var currentUsers := 0;
    var currentInstructions: seq<Instr> := [];
    ghost var closed: Groups, open: seq<PreparedUser> := [], [];

    var rest := prepared;
    AfterNone(Pack(c, [], prepared));
    while rest != []
      invariant currentUsers == |open| && currentInstructions == Flatten(open)
      invariant open != [] ==> currentIndex == open[0].index
      invariant forall i :: 0 <= i < |closed| ==> closed[i] != []
      invariant batches == Wire(closed)
      invariant Pack(c, [], prepared) == After(closed, Pack(c, open, rest))
      decreases |rest|
    {
      var item := rest[0];
      PackPlaces(c, closed, open, rest);
      rest := rest[1..];
      if item.instrs == [] {
        continue;
      }
      FlattenPush(open, item);
      FlattenPush([], item);
      var candidate := currentInstructions + item.instrs;
      var candidateFits := currentUsers < MAX_SETUP_USERS_PER_TRANSACTION && c.measured(candidate);
      if currentUsers > 0 && !candidateFits {
        batches := batches + [(currentIndex, currentInstructions)];
        WirePush(closed, open);
        closed := closed + [open];
        open, currentUsers, currentInstructions := [], 0, [];
      }
      if currentUsers == 0 {
        currentIndex := item.index;
      }
      open := open + [item];
      currentInstructions := currentInstructions + item.instrs;
      currentUsers := currentUsers + 1;
      if !c.sendable(currentInstructions) {
        return None;
      }
    }
    if currentUsers > 0 {
      batches := batches + [(currentIndex, currentInstructions)];
      WirePush(closed, open);
    }
    r := Some(batches);
  }

  lemma WirePush(closed: Groups, open: seq<PreparedUser>)
    requires open != [] && forall i :: 0 <= i < |closed| ==> closed[i] != []
    ensures Wire(closed + [open]) == Wire(closed) + [(open[0].index, Flatten(open))]
  {
  }

  /** Placing the next user: into the open transaction, or as the first of a new one. */
  lemma PackPlaces(c: Config, closed: Groups, open: seq<PreparedUser>, rest: seq<PreparedUser>)
    requires rest != []
    ensures var item := rest[0];
            var closes := open != [] && !Joins(c, open, item);
            var filled := if closes then [] + [item] else open + [item];
            var before := After(closed, Pack(c, open, rest));
            if item.instrs == [] then before == After(closed, Pack(c, open, rest[1..]))
            else if !c.sendable(Flatten(filled)) then before.None?
            else before == After(if closes then closed + [open] else closed, Pack(c, filled, rest[1..]))
  {
    var item := rest[0];
    FlattenPush(open, item);
    FlattenPush([], item);
    assert Flatten([]) + item.instrs == item.instrs;
    assert [] + [item] == [item];
    AfterClose(closed, open, Pack(c, [item], rest[1..]));
  }

  /** The groups already closed, ahead of what is still to come. */
  ghost function After(closed: Groups, rest: Option<Groups>): Option<Groups> {
    match rest case None => None case Some(groups) => Some(closed + groups)
  }

  lemma AfterNone(all: Option<Groups>)
    ensures After([], all) == all
  {
    assert all.Some? ==> [] + all.value == all.value;
  }

  lemma AfterClose(closed: Groups, open: seq<PreparedUser>, rest: Option<Groups>)
    ensures After(closed, After([open], rest)) == After(closed + [open], rest)
  {
    if rest.Some? {
      assert closed + ([open] + rest.value) == (closed + [open]) + rest.value;
    }
  }
}
