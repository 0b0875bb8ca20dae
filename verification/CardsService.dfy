/**
 The operations on a charge as their callers run them (cards.service.ts): between two conditional updates of one
 operation, any number of steps of the others may take place.
 */
module CardsService {
  import opened Wrappers
  import opened Cards

  /** The actor whose operation the step belongs to; None for the clock and for what happens to the request elsewhere. */
  function ActorOf(step: Step): Option<Actor> {
    match step
    case ReadCharge(a) => Some(a)
    case Reconcile(a) => Some(a)
    case Leave(a) => Some(a)
    case WritePaid(a) => Some(a)
    case WriteExpired(a) => Some(a)
    case Verify(a) => Some(a)
    case Claim(a) => Some(a)
    case PaySucceeds(a) => Some(a)
    case PayFails(a) => Some(a)
    case Complete(a) => Some(a)
    case Release(a) => Some(a)
    case Decline(a) => Some(a)
    case SellerCancels(a) => Some(a)
    case FreezeCancels(a) => Some(a)
    case CancelRequest(a) => Some(a)
    case _ => None
  }

  /** The steps of one actor, in order. */
  function Own(run: seq<Step>, a: Actor): seq<Step> {
    if run == [] then [] else
      Own(run[..|run| - 1], a) + if ActorOf(run[|run| - 1]) == Some(a) then [run[|run| - 1]] else []
  }

  lemma OwnAppend(run: seq<Step>, step: Step, a: Actor)
    ensures Own(run + [step], a) == if ActorOf(step) == Some(a) then Own(run, a) + [step] else Own(run, a)
  {
    assert (run + [step])[..|run|] == run;
  }

  /** Closed, with no approver whose payment may still go through: nobody can change the charge any more. */
  ghost predicate Settled(s: State) {
    !Open(s.charge) && NoneCompleting(s)
  }

  lemma SettledStays(s: State, step: Step)
    requires Enabled(s, step) && Settled(s)
    ensures Settled(Apply(s, step)) && Apply(s, step).charge == s.charge
  {
    ClosedStaysOneStep(s, step);
  }

  /** What reconcile does: the request was paid, the charge was out of time, or nothing. */
  datatype Settlement = SettledPaid | SettledLate | LeftAsFound(c: Status)

  datatype Outcome = ApprovedNow | Reconciled(s: Settlement) | LostClaim | PaymentRefused

  function SettlementSteps(a: Actor, s: Settlement): seq<Step> {
    match s
    case SettledPaid => [Reconcile(a), WritePaid(a)]
    case SettledLate => [Reconcile(a), WriteExpired(a), CancelRequest(a)]
    case LeftAsFound(_) => [Reconcile(a)]
  }

  /** The steps of an approval, by outcome. */
  function ApprovalSteps(a: Actor, r: Outcome): seq<Step> {
    match r
    case ApprovedNow => [ReadCharge(a), Reconcile(a), Verify(a), Claim(a), PaySucceeds(a), Complete(a)]
    case PaymentRefused => [ReadCharge(a), Reconcile(a), Verify(a), Claim(a), PayFails(a), Release(a)]
    case LostClaim => [ReadCharge(a), Reconcile(a), Verify(a), Claim(a)]
    case Reconciled(s) => [ReadCharge(a)] + SettlementSteps(a, s) + if s.LeftAsFound? then [Leave(a)] else []
  }

  class ChargeService {
    var state: State
    ghost const start: State
    ghost var run: seq<Step>

    /** What happened so far is a run of the state machine. */
    ghost predicate Valid()
      reads this
    {
      Inv(start) && Feasible(start, run) && After(start, run) == state
    }

    constructor (now: int, expiresAt: int)
      ensures Valid() && state == Start(now, expiresAt)
    {
      state := Start(now, expiresAt);
      start, run := Start(now, expiresAt), [];
    }

    /** One atomic step of the actor a. */
    method Do(ghost a: Actor, step: Step)
      requires Valid() && Enabled(state, step) && ActorOf(step) == Some(a)
      modifies this
      ensures Valid() && state == Apply(old(state), step)
      ensures Own(run, a) == Own(old(run), a) + [step]
    {
      OneMore(start, run, step);
      OwnAppend(run, step, a);
      state := Apply(state, step);
      run := run + [step];
    }

    /** Anything that the other actors may do meanwhile. */
    method Others(a: Actor)
      requires Valid()
      modifies this
      ensures Valid() && Own(run, a) == Own(old(run), a) && At(state.pcs, a) == At(old(state).pcs, a)
      ensures !Open(old(state).charge) ==> state.charge == old(state).charge || state.charge == Approved
      ensures Settled(old(state)) ==> Settled(state) && state.charge == old(state).charge
      ensures old(state).now <= state.now && state.expiresAt == old(state).expiresAt
      ensures old(state).seenPaid ==> state.seenPaid
    {
      hide Inv, Feasible, After, Own;
      var n: int := *;
      for i := 0 to if n > 0 then n else 0
        invariant Valid() && Own(run, a) == Own(old(run), a) && At(state.pcs, a) == At(old(state).pcs, a)
        invariant !Open(old(state).charge) ==> state.charge == old(state).charge || state.charge == Approved
        invariant old(state).now <= state.now && state.expiresAt == old(state).expiresAt
        invariant Settled(old(state)) ==> Settled(state) && state.charge == old(state).charge
        invariant old(state).seenPaid ==> state.seenPaid
      {
        var step: Step := *;
        if Enabled(state, step) && ActorOf(step) != Some(a) {
          OneMore(start, run, step);
          OwnAppend(run, step, a);
          if Settled(state) {
            SettledStays(state, step);
          }
          state := Apply(state, step);
          run := run + [step];
        }
      }
    }

    /** reconcile, on the charge as it was found: settles what the request says, closes what ran out of time. */
    method ReconcileCharge(a: Actor) returns (r: Settlement)
      requires Valid() && At(state.pcs, a).Found?
      modifies this
      ensures Valid() && At(state.pcs, a) == if r.LeftAsFound? then Seen(r.c) else Idle
      ensures Own(run, a) == Own(old(run), a) + SettlementSteps(a, r)
      ensures var d := Decision(old(state), At(old(state).pcs, a).c);
              (r == SettledPaid <==> d == SawPaid) && (r == SettledLate <==> d == SawLate) && (r.LeftAsFound? ==> d == Seen(r.c))
      ensures var s := old(state);
              var late := (At(s.pcs, a).c == Pending && s.expiresAt < s.now) || (At(s.pcs, a).c == Processing && s.expiresAt + 600_000 < s.now);
              && (r == SettledLate <==> late && s.request != Paid)
              && (r == SettledPaid <==> (At(s.pcs, a).c == Pending || At(s.pcs, a).c == Processing) && s.request == Paid)
              && (r.LeftAsFound? ==> r.c == At(s.pcs, a).c)
      ensures r.LeftAsFound? ==> state.now == old(state).now && state.expiresAt == old(state).expiresAt
      ensures r == SettledPaid ==> state.seenPaid && !Open(state.charge)
      ensures r == SettledLate ==> !Open(state.charge)
      ensures r.LeftAsFound? && old(state).charge == Approved ==> state.charge == Approved
    {
      hide Inv, Feasible, After, Own;
      Do(a, Reconcile(a));
      if At(state.pcs, a) == SawPaid {
        Others(a);
        Do(a, WritePaid(a));
        return SettledPaid;
      }
      if At(state.pcs, a) == SawLate {
        Others(a);
        Do(a, WriteExpired(a));
        Others(a);
        Do(a, CancelRequest(a));
        return SettledLate;
      }
      return LeftAsFound(At(state.pcs, a).c);
    }

    /** An operation that starts by reading the charge, then reconciles it as found. */
    method ReadAndReconcile(a: Actor) returns (r: Settlement)
      requires Valid() && At(state.pcs, a) == Idle
      modifies this
      ensures Valid() && At(state.pcs, a) == if r.LeftAsFound? then Seen(r.c) else Idle
      ensures Own(run, a) == Own(old(run), a) + ([ReadCharge(a)] + SettlementSteps(a, r))
      ensures r.LeftAsFound? ==> Own(run, a) == Own(old(run), a) + [ReadCharge(a), Reconcile(a)]
      ensures r == SettledPaid ==> state.seenPaid && !Open(state.charge)
      ensures r == LeftAsFound(Approved) <==> old(state).charge == Approved
      ensures r == LeftAsFound(Pending) ==> old(state).now <= old(state).expiresAt && state.now <= state.expiresAt
    {
      hide Inv, Feasible, After, Own, Decision;
      Do(a, ReadCharge(a));
      Others(a);
      DecisionOnClosed(state, At(state.pcs, a).c);
      r := ReconcileCharge(a);
    }

    /** The payment of a claimed charge: it goes through, or the charge is given back. */
    method PayClaimed(a: Actor) returns (paid: bool)
      requires Valid() && At(state.pcs, a) == Claimed
      modifies this
      ensures Valid() && At(state.pcs, a) == Idle
      ensures Own(run, a) == Own(old(run), a) + if paid then [PaySucceeds(a), Complete(a)] else [PayFails(a), Release(a)]
      ensures paid ==> state.charge == Approved && state.payments == 1
    {
      hide Inv, Feasible, After, Own;
      Others(a);
      paid := *;
      if paid {
        Do(a, PaySucceeds(a));
        Others(a);
        PaidBeforeCompletion(start, run, a);
        Do(a, Complete(a));
      } else {
        Do(a, PayFails(a));
        Others(a);
        Do(a, Release(a));
      }
    }

    /**
     approve. The steps of this actor are exactly those of the outcome: nothing is paid without a claim that was
     won, and a refused payment gives the charge back. An approval that answers so leaves the charge approved, paid once.
     */
    method Approve(a: Actor, usable: bool) returns (r: Outcome)
      requires Valid() && At(state.pcs, a) == Idle
      modifies this
      ensures Valid() && At(state.pcs, a) == Idle
      ensures Own(run, a) == Own(old(run), a) + ApprovalSteps(a, r)
      ensures r == ApprovedNow ==> state.charge == Approved && state.payments == 1
      ensures r == Reconciled(SettledPaid) ==> state.seenPaid && !Open(state.charge)
      ensures r == Reconciled(LeftAsFound(Pending)) ==> !usable
      ensures r == Reconciled(LeftAsFound(Approved)) <==> old(state).charge == Approved
      ensures r == ApprovedNow || r == LostClaim || r == PaymentRefused ==> usable && old(state).now <= old(state).expiresAt
    {
      hide Inv, Feasible, After, Own, Decision, SettlementSteps;
      var s := ReadAndReconcile(a);
      if !s.LeftAsFound? {
        return Reconciled(s);
      }
      if s.c != Pending || !usable {
        Do(a, Leave(a));
        return Reconciled(s);
      }
      Do(a, Verify(a));
      Others(a);
      Do(a, Claim(a));
      if At(state.pcs, a) != Claimed {
        return LostClaim;
      }
      var paid := PayClaimed(a);
      r := if paid then ApprovedNow else PaymentRefused;
    }

    /** decline: only a pending charge is refused; the refusal is written before the request is dropped. */
    method DeclineCharge(a: Actor) returns (declined: bool)
      requires Valid() && At(state.pcs, a) == Idle
      modifies this
      ensures Valid() && At(state.pcs, a) == Idle
      ensures declined <==> old(state).charge == Pending
      ensures Own(run, a) == Own(old(run), a) + if declined then [Decline(a), CancelRequest(a)] else [Decline(a)]
      ensures declined ==> state.charge == Declined && state.request != Created
    {
      hide Inv, Feasible, After, Own;
      declined := state.charge == Pending;
      NoApproverOfPending(start, run);
      Do(a, Decline(a));
      if declined {
        Others(a);
        Do(a, CancelRequest(a));
      }
    }

    /**
     cancelCharge: the charge is cancelled if it is pending when the update reaches it; otherwise it is reconciled as it
     was found, to tell the seller why. before: the state that the update met.
     */
    method CancelCharge(a: Actor) returns (cancelled: bool, ghost before: State, ghost why: Settlement)
      requires Valid() && At(state.pcs, a) == Idle
      modifies this
      ensures Valid() && At(state.pcs, a) == Idle
      ensures cancelled <==> before.charge == Pending
      ensures cancelled ==> Own(run, a) == Own(old(run), a) + [ReadCharge(a), SellerCancels(a), CancelRequest(a)]
      ensures cancelled ==> state.charge == Cancelled && state.request != Created
      ensures !cancelled ==> Own(run, a) == Own(old(run), a) + [ReadCharge(a), SellerCancels(a)]
                                            + (SettlementSteps(a, why) + if why.LeftAsFound? then [Leave(a)] else [])
    {
      hide Inv, Feasible, After, Own, Decision, SettlementSteps;
      Do(a, ReadCharge(a));
      Others(a);
      before := state;
      cancelled := state.charge == Pending;
      NoApproverOfPending(start, run);
      Do(a, SellerCancels(a));
      if cancelled {
        why := SettledPaid;
        Others(a);
        Do(a, CancelRequest(a));
      } else {
        Others(a);
        why := ReconcileAndLeave(a);
      }
    }

    method ReconcileAndLeave(a: Actor) returns (ghost r: Settlement)
      requires Valid() && At(state.pcs, a).Found?
      modifies this
      ensures Valid() && At(state.pcs, a) == Idle
      ensures Own(run, a) == Own(old(run), a) + (SettlementSteps(a, r) + if r.LeftAsFound? then [Leave(a)] else [])
    {
      hide Inv, Feasible, After, Own, Decision, SettlementSteps;
      var s := ReconcileCharge(a);
      if s.LeftAsFound? {
        Do(a, Leave(a));
      }
      r := s;
    }

    /** cancelOpenCharges on one charge: an open one is cancelled, and nothing but the payment under way can undo it. */
    method FreezeCharge(a: Actor) returns (cancelled: bool)
      requires Valid() && At(state.pcs, a) == Idle
      modifies this
      ensures Valid() && At(state.pcs, a) == Idle
      ensures cancelled <==> Open(old(state).charge)
      ensures Own(run, a) == Own(old(run), a) + if cancelled then [FreezeCancels(a), CancelRequest(a)] else []
      ensures cancelled ==> (state.charge == Cancelled || state.charge == Approved) && state.request != Created
      ensures cancelled && old(state).charge == Pending ==> state.charge == Cancelled
    {
      hide Inv, Feasible, After, Own;
      cancelled := Open(state.charge);
      if cancelled {
        NoApproverOfPending(start, run);
        Do(a, FreezeCancels(a));
        Others(a);
        Do(a, CancelRequest(a));
      }
    }
  }

  lemma DecisionOnClosed(s: State, c: Status)
    ensures !Open(c) ==> Decision(s, c) == Seen(c)
    ensures Decision(s, c).Seen? ==> Decision(s, c) == Seen(c)
  {
  }

  lemma PaidBeforeCompletion(s: State, run: seq<Step>, a: Actor)
    requires Inv(s) && Feasible(s, run) && At(After(s, run).pcs, a) == PaymentDone
    ensures After(s, run).payments == 1
  {
    RunKeepsInv(s, run);
  }

  lemma NoApproverOfPending(s: State, run: seq<Step>)
    requires Inv(s) && Feasible(s, run)
    ensures After(s, run).charge == Pending ==> NoneCompleting(After(s, run))
  {
    RunKeepsInv(s, run);
    var t := After(s, run);
    if t.charge == Pending {
      forall a ensures !MayComplete(At(t.pcs, a)) { assert !InSection(At(t.pcs, a)); }
    }
  }
}
