/**
 The voucher stream of one batch-settlement channel
 (rust/bench/src/scheme/batch_settlement.rs). A signed header is the cumulative
 amount it signs. Signing on demand is the reference; the pre-signed window is
 one of its two faster forms.
 */
module BatchSettlement {
  import opened Common

  /** What the lane asks of a source, and what comes out. */
  datatype Request = Next | Correct(to: nat)
  datatype Event = Sent(amount: nat) | Corrected(to: nat) | Refused

  // ---- Signing on demand -------------------------------------------------

  /** The new watermark and the outcome of one request. */
  function OnDemandStep(base: nat, mark: nat, r: Request): (nat, Event) {
    match r
    case Correct(to) => (to, Corrected(to))
    case Next =>
      match CheckedAdd(mark, base)
      case Some(amount) => (amount, Sent(amount))
      case None => (mark, Refused)
  }

  function OnDemandMark(base: nat, from: nat, rs: seq<Request>): nat {
    if rs == [] then from
    else OnDemandStep(base, OnDemandMark(base, from, rs[..|rs| - 1]), rs[|rs| - 1]).0
  }

  function OnDemand(base: nat, from: nat, rs: seq<Request>): (es: seq<Event>)
    ensures |es| == |rs|
  {
    if rs == [] then []
    else
      OnDemand(base, from, rs[..|rs| - 1]) +
      [OnDemandStep(base, OnDemandMark(base, from, rs[..|rs| - 1]), rs[|rs| - 1]).1]
  }

  lemma OnDemandPush(base: nat, from: nat, rs: seq<Request>, r: Request)
    ensures var step := OnDemandStep(base, OnDemandMark(base, from, rs), r);
            && OnDemandMark(base, from, rs + [r]) == step.0
            && OnDemand(base, from, rs + [r]) == OnDemand(base, from, rs) + [step.1]
  {
    assert (rs + [r])[..|rs|] == rs;
  }

  function Rung(base: nat, mark: nat, k: nat): nat {
    mark + k * base
  }

  /**
   Between two corrections the vouchers climb from the last watermark in steps of
   `base`, with no gap and no repeat.
   */
  lemma {:induction false} OnDemandClimbs(base: nat, from: nat, rs: seq<Request>, i: nat, k: nat)
    requires i + k <= |rs|
    requires forall m :: i <= m < i + k ==> rs[m].Next? && OnDemand(base, from, rs)[m].Sent?
    ensures OnDemandMark(base, from, rs[..i + k]) == Rung(base, OnDemandMark(base, from, rs[..i]), k)
    ensures k > 0 ==>
              OnDemand(base, from, rs)[i + k - 1] == Sent(Rung(base, OnDemandMark(base, from, rs[..i]), k))
    decreases k
  {
    if k > 0 {
      OnDemandClimbs(base, from, rs, i, k - 1);
      OnDemandPrefix(base, from, rs, i + k);
      assert rs[..i + k][..i + k - 1] == rs[..i + k - 1];
      var mark := OnDemandMark(base, from, rs[..i]);
      assert Rung(base, mark, k) == Rung(base, mark, k - 1) + base;
    }
  }

  /** What has been sent does not depend on what is asked later. */
  lemma {:induction false} OnDemandPrefix(base: nat, from: nat, rs: seq<Request>, j: nat)
    requires 0 < j <= |rs|
    ensures OnDemand(base, from, rs)[j - 1] == OnDemandStep(base, OnDemandMark(base, from, rs[..j - 1]), rs[j - 1]).1
  {
    if j < |rs| {
      var front := rs[..|rs| - 1];
      OnDemandPrefix(base, from, front, j);
      assert front[..j - 1] == rs[..j - 1];
    }
  }

  /** The request after a correction is answered with corrected plus base, whatever came before. */
  lemma CorrectionTakesEffect(base: nat, from: nat, rs: seq<Request>, i: nat)
    requires i + 1 < |rs| && rs[i].Correct? && rs[i + 1].Next?
    ensures OnDemand(base, from, rs)[i + 1] == if rs[i].to + base <= U64_MAX then Sent(rs[i].to + base) else Refused
  {
    OnDemandPrefix(base, from, rs, i + 2);
    assert rs[..i + 1][..i] == rs[..i];
    assert OnDemandMark(base, from, rs[..i + 1]) == rs[i].to;
  }

  /** The on-demand source as an object. */
  class OnDemandSource {
    const base: nat
    var cumulative: nat

    constructor (from: nat, base: nat)
      ensures cumulative == from && this.base == base
    {
      cumulative, this.base := from, base;
    }

    method NextRequest() returns (e: Event)
      modifies this
      ensures (cumulative, e) == OnDemandStep(base, old(cumulative), Next)
    {
      if cumulative + base > U64_MAX {
        return Refused;
      }
      cumulative := cumulative + base;
      e := Sent(cumulative);
    }

    method OnResponse(corrected: nat)
      modifies this
      ensures cumulative == OnDemandStep(base, old(cumulative), Correct(corrected)).0
    {
      cumulative := corrected;
    }
  }

  // ---- The pre-signed window ---------------------------------------------

  /** The next `n` vouchers above `from`. */
  function Ladder(base: nat, from: nat, n: nat): (l: seq<nat>)
    ensures |l| == n
    decreases n
  {
    if n == 0 then [] else [from + base] + Ladder(base, from + base, n - 1)
  }

  predicate LadderFits(base: nat, from: nat, n: nat)
    decreases n
  {
    n == 0 || (from + base <= U64_MAX && LadderFits(base, from + base, n - 1))
  }

  /** How far the watermark gets before the next addition would overflow. */
  function Climbed(base: nat, from: nat, n: nat): nat
    decreases n
  {
    if n == 0 || from + base > U64_MAX then from else Climbed(base, from + base, n - 1)
  }

  /** `cumulative` is only moved by corrections; `presigned` is what remains to send. */
  datatype Window = Window(cumulative: nat, presigned: seq<nat>)

  function WindowStep(base: nat, w: Window, r: Request): (Window, Event) {
    match r
    case Next =>
      if w.presigned == [] then (w, Refused)
      else (w.(presigned := w.presigned[1..]), Sent(w.presigned[0]))
    case Correct(to) =>
      var count := |w.presigned| + 1;
      (Window(
         Climbed(base, to, count),
         if LadderFits(base, to, count) then Ladder(base, to, count) else w.presigned),
       Corrected(to))
  }

  function WindowAfter(base: nat, w: Window, rs: seq<Request>): Window {
    if rs == [] then w
    else WindowStep(base, WindowAfter(base, w, rs[..|rs| - 1]), rs[|rs| - 1]).0
  }

  function WindowTrace(base: nat, w: Window, rs: seq<Request>): seq<Event> {
    if rs == [] then []
    else
      WindowTrace(base, w, rs[..|rs| - 1]) +
      [WindowStep(base, WindowAfter(base, w, rs[..|rs| - 1]), rs[|rs| - 1]).1]
  }

  /** Every voucher asked for is there, and no correction overflows while the window is rebuilt. */
  predicate WindowSuffices(base: nat, w: Window, rs: seq<Request>) {
    rs == [] ||
    (&& WindowSuffices(base, w, rs[..|rs| - 1])
     && var before := WindowAfter(base, w, rs[..|rs| - 1]);
        match rs[|rs| - 1]
        case Next => before.presigned != []
        case Correct(to) => LadderFits(base, to, |before.presigned| + 1))
  }

  lemma {:induction false} LadderSteps(base: nat, from: nat, n: nat)
    requires LadderFits(base, from, n)
    ensures n > 0 ==> from + base <= U64_MAX && Ladder(base, from, n)[0] == from + base
                      && Ladder(base, from, n)[1..] == Ladder(base, from + base, n - 1)
                      && LadderFits(base, from + base, n - 1)
  {
  }

  /** The window always holds the next vouchers that signing on demand would produce. */
  lemma {:induction false} WindowTracks(base: nat, from: nat, count: nat, rs: seq<Request>)
    requires LadderFits(base, from, count)
    requires WindowSuffices(base, Window(from, Ladder(base, from, count)), rs)
    ensures var w := WindowAfter(base, Window(from, Ladder(base, from, count)), rs);
            var mark := OnDemandMark(base, from, rs);
            w.presigned == Ladder(base, mark, |w.presigned|) && LadderFits(base, mark, |w.presigned|)
    ensures WindowTrace(base, Window(from, Ladder(base, from, count)), rs) == OnDemand(base, from, rs)
  {
    if rs != [] {
      var front := rs[..|rs| - 1];
      WindowTracks(base, from, count, front);
      var before := WindowAfter(base, Window(from, Ladder(base, from, count)), front);
      LadderSteps(base, OnDemandMark(base, from, front), |before.presigned|);
    }
  }

  /**
   A correction is honoured, in that the next voucher is the one signing on
   demand would send, exactly when the rebuilt window fits below the largest
   amount, or there was nothing left to go stale, or it corrects nothing.
   */
  lemma CorrectionHonouredExactly(base: nat, mark: nat, w: Window, to: nat)
    requires w.presigned == Ladder(base, mark, |w.presigned|) && LadderFits(base, mark, |w.presigned|)
    ensures var after := WindowStep(base, w, Correct(to)).0;
            WindowStep(base, after, Next).1 == OnDemandStep(base, to, Next).1 <==>
            LadderFits(base, to, |w.presigned| + 1) || w.presigned == [] || to == mark
  {
    LadderSteps(base, mark, |w.presigned|);
    if LadderFits(base, to, |w.presigned| + 1) {
      LadderSteps(base, to, |w.presigned| + 1);
    }
  }

  /** A correction close to the largest amount leaves a stale voucher to be sent. */
  lemma OverflowingCorrectionSendsStale()
    ensures var w := Window(0, Ladder(1, 0, 2));
            var after := WindowStep(1, w, Correct(U64_MAX - 1)).0;
            WindowStep(1, after, Next).1 == Sent(1) && OnDemandStep(1, U64_MAX - 1, Next).1 == Sent(U64_MAX)
  {
    assert !LadderFits(1, U64_MAX - 1, 3) by {
      assert !LadderFits(1, U64_MAX, 2);
    }
  }

  lemma {:induction false} LadderPush(base: nat, from: nat, n: nat)
    requires LadderFits(base, from, n)
    ensures Ladder(base, from, n + 1) == Ladder(base, from, n) + [Climbed(base, from, n) + base]
    ensures LadderFits(base, from, n + 1) <==> Climbed(base, from, n) + base <= U64_MAX
    ensures Climbed(base, from, n) + base <= U64_MAX ==>
              Climbed(base, from, n + 1) == Climbed(base, from, n) + base
    ensures Climbed(base, from, n) + base > U64_MAX ==>
              Climbed(base, from, n + 1) == Climbed(base, from, n)
    decreases n
  {
    if n > 0 {
      LadderPush(base, from + base, n - 1);
    }
  }

  lemma {:induction false} LadderStuck(base: nat, from: nat, n: nat, m: nat)
    requires n < m && LadderFits(base, from, n) && !LadderFits(base, from, n + 1)
    ensures !LadderFits(base, from, m) && Climbed(base, from, m) == Climbed(base, from, n)
    decreases n
  {
    if n > 0 {
      LadderStuck(base, from + base, n - 1, m - 1);
    }
  }

  /** Signs the window before the run; `None` is the overflow error. */
  method PreSign(base: nat, from: nat, count: nat) returns (r: Option<seq<nat>>)
    ensures r == if LadderFits(base, from, count) then Some(Ladder(base, from, count)) else None
  {
    var headers: seq<nat> := [];
    var cumulative := from;
    for n := 0 to count
      invariant LadderFits(base, from, n)
      invariant headers == Ladder(base, from, n) && cumulative == Climbed(base, from, n)
    {
      LadderPush(base, from, n);
      if cumulative + base > U64_MAX {
        LadderStuck(base, from, n, count);
        return None;
      }
      cumulative := cumulative + base;
      headers := headers + [cumulative];
    }
    r := Some(headers);
  }

  class PresignedSource {
    const base: nat
    var cumulative: nat
    var presigned: seq<nat>

    constructor (from: nat, base: nat, presigned: seq<nat>)
      ensures cumulative == from && this.base == base && this.presigned == presigned
    {
      cumulative, this.base, this.presigned := from, base, presigned;
    }

    function View(): Window
      reads this
    {
      Window(cumulative, presigned)
    }

    method NextRequest() returns (e: Event)
      modifies this
      ensures (View(), e) == WindowStep(base, old(View()), Next)
    {
      if presigned == [] {
        return Refused;
      }
      e := Sent(presigned[0]);
      presigned := presigned[1..];
    }

    /** Rebuilds the rejected voucher and everything behind it from the corrected watermark. */
    method OnResponse(corrected: nat)
      modifies this
      ensures View() == WindowStep(base, old(View()), Correct(corrected)).0
    {
      cumulative := corrected;
      var count := |presigned| + 1;
      var rebuilt: seq<nat> := [];
      for n := 0 to count
        invariant LadderFits(base, corrected, n)
        invariant rebuilt == Ladder(base, corrected, n) && cumulative == Climbed(base, corrected, n)
        invariant presigned == old(presigned)
      {
        LadderPush(base, corrected, n);
        if cumulative + base > U64_MAX {
          LadderStuck(base, corrected, n, count);
          return;
        }
        rebuilt := rebuilt + [cumulative + base];
        cumulative := cumulative + base;
      }
      presigned := rebuilt;
    }
  }
}
