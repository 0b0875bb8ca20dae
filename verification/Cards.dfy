/**
 The life of one card charge (cards.service.ts). Approvals, refusals, cancellations and reconciliations
 run concurrently; each of them is a sequence of atomic steps, a conditional update of the database being
 one step. A run is any interleaving of the steps of any number of actors, who may also stop at any point.
 */
module Cards {

  datatype Status = Pending | Processing | Approved | Declined | Cancelled | Expired

  datatype RequestStatus = Created | Paid | Dropped

  /** Where an actor stands inside the operation it executes. */
  datatype Pc =
    | Idle
    | Found(c: Status) // the charge was read with this status; other rows may be read later
    | Seen(c: Status)  // reconcile left the charge as it was found
    | Verified         // approve: the charge was seen pending
    | Claimed          // approve: claim won, payment not answered yet
    | PaymentDone      // approve: the payment went through, the status is not written yet
    | PaymentFailed    // approve: the payment failed, the charge is not released yet
    | SawPaid          // reconcile: the payment request was seen paid
    | SawLate          // reconcile: the charge was seen out of time
    | DropRequest      // the payment request is about to be cancelled

  type Actor = nat

  /**
   charge and request are the two stored rows; payments counts the successful wallet payments; seenPaid
   tells whether a reconciliation ever saw the request paid.
   */
  datatype State = State(charge: Status, request: RequestStatus, now: int, expiresAt: int, pcs: map<Actor, Pc>,
                         payments: nat, seenPaid: bool)

  const GRACE_MS := 600000

  datatype Step =
    | ReadCharge(a: Actor)
    | Reconcile(a: Actor)       // reads the request, and decides on the charge as it was found
    | Leave(a: Actor)           // the operation ends without writing
    | WritePaid(a: Actor)
    | WriteExpired(a: Actor)
    | Verify(a: Actor)
    | Claim(a: Actor)
    | PaySucceeds(a: Actor)
    | PayFails(a: Actor)
    | Complete(a: Actor)
    | Release(a: Actor)
    | Decline(a: Actor)         // the holder refuses
    | SellerCancels(a: Actor)   // cancelCharge
    | FreezeCancels(a: Actor)   // cancelOpenCharges, when the card is paused or blocked
    | CancelRequest(a: Actor)
    | RequestBecomes(r: RequestStatus)
    | Tick(now: int)

  function At(pcs: map<Actor, Pc>, a: Actor): Pc {
    if a in pcs then pcs[a] else Idle
  }

  predicate Open(c: Status) {
    c == Pending || c == Processing
  }

  function Move(s: State, a: Actor, pc: Pc): (t: State)
    ensures forall b :: At(t.pcs, b) == if a == b then pc else At(s.pcs, b)
  {
    s.(pcs := s.pcs[a := pc])
  }

  /** The charge found with status c, as reconcile decides: settled by the request, out of time, or left alone. */
  function Decision(s: State, c: Status): Pc {
    if !Open(c) then Seen(c)
    else if s.request == Paid then SawPaid
    else if (c == Pending && s.expiresAt < s.now) || (c == Processing && s.expiresAt + GRACE_MS < s.now) then SawLate
    else Seen(c)
  }

  predicate Enabled(s: State, step: Step) {
    match step
    case ReadCharge(a) => At(s.pcs, a) == Idle
    case Reconcile(a) => At(s.pcs, a).Found?
    case Leave(a) => At(s.pcs, a).Found? || At(s.pcs, a).Seen?
    case WritePaid(a) => At(s.pcs, a) == SawPaid
    case WriteExpired(a) => At(s.pcs, a) == SawLate
    case Verify(a) => At(s.pcs, a) == Seen(Pending)
    case Claim(a) => At(s.pcs, a) == Verified
    case PaySucceeds(a) => At(s.pcs, a) == Claimed
    case PayFails(a) => At(s.pcs, a) == Claimed
    case Complete(a) => At(s.pcs, a) == PaymentDone
    case Release(a) => At(s.pcs, a) == PaymentFailed
    case Decline(a) => At(s.pcs, a) == Idle
    case SellerCancels(a) => At(s.pcs, a).Found?
    case FreezeCancels(a) => At(s.pcs, a) == Idle
    case CancelRequest(a) => At(s.pcs, a) == DropRequest
    case RequestBecomes(_) => true
    case Tick(t) => t >= s.now
  }

  /** One atomic step. Every write but the last one of a successful approval is conditional. */
  function Apply(s: State, step: Step): State {
    match step
    case ReadCharge(a) => Move(s, a, Found(s.charge))
    case Leave(a) => Move(s, a, Idle)
    case Reconcile(a) =>
      var d := if At(s.pcs, a).Found? then Decision(s, At(s.pcs, a).c) else Idle;
      Move(s, a, d).(seenPaid := s.seenPaid || d == SawPaid)
    case WritePaid(a) => Move(s, a, Idle).(charge := if Open(s.charge) then Approved else s.charge)
    case WriteExpired(a) => Move(s, a, DropRequest).(charge := if Open(s.charge) then Expired else s.charge)
    case Verify(a) => Move(s, a, Verified)
    case Claim(a) =>
      if s.charge == Pending then Move(s, a, Claimed).(charge := Processing) else Move(s, a, Idle)
    case PaySucceeds(a) => Move(s, a, PaymentDone).(request := Paid, payments := s.payments + 1)
    case PayFails(a) => Move(s, a, PaymentFailed)
    case Complete(a) => Move(s, a, Idle).(charge := Approved)
    case Release(a) => Move(s, a, Idle).(charge := if s.charge == Processing then Pending else s.charge)
    case Decline(a) =>
      if s.charge == Pending then Move(s, a, DropRequest).(charge := Declined) else s
    case SellerCancels(a) =>
      if s.charge == Pending then Move(s, a, DropRequest).(charge := Cancelled) else s
    case FreezeCancels(a) =>
      if Open(s.charge) then Move(s, a, DropRequest).(charge := Cancelled) else s
    case CancelRequest(a) => Move(s, a, Idle).(request := if s.request == Created then Dropped else s.request)
    case RequestBecomes(r) => s.(request := r)
    case Tick(t) => s.(now := t)
  }

  function Start(now: int, expiresAt: int): State {
    State(Pending, Created, now, expiresAt, map[], 0, false)
  }

  /** The state after a run. */
  function After(s: State, run: seq<Step>): State {
    if run == [] then s else Apply(After(s, run[..|run| - 1]), run[|run| - 1])
  }

  /** Each step of the run is enabled when it is taken. */
  predicate Feasible(s: State, run: seq<Step>) {
    run != [] ==> Feasible(s, run[..|run| - 1]) && Enabled(After(s, run[..|run| - 1]), run[|run| - 1])
  }

  // ------------------------------------------------------------------ the invariant

  predicate InSection(pc: Pc) {
    pc == Claimed || pc == PaymentDone || pc == PaymentFailed
  }

  /** No actor is between the claim and the end of an approval. */
  ghost predicate SectionEmpty(s: State) {
    forall a :: !InSection(At(s.pcs, a))
  }

  /** At most one approver is between claim and completion, and a pending charge has none. */
  ghost predicate Exclusive(s: State) {
    && (forall a, b :: InSection(At(s.pcs, a)) && InSection(At(s.pcs, b)) ==> a == b)
    && (s.charge == Pending ==> SectionEmpty(s))
  }

  /** A successful payment is either being recorded, or recorded for good. */
  ghost predicate PaidOnce(s: State) {
    && s.payments <= 1
    && (forall a :: At(s.pcs, a) == PaymentDone ==> s.payments == 1)
    && (s.payments == 1 ==> (exists a :: At(s.pcs, a) == PaymentDone) || (s.charge == Approved && SectionEmpty(s)))
  }

  /** An approved charge was paid by an approver, or its request was seen paid. */
  ghost predicate Justified(s: State) {
    && (forall a :: At(s.pcs, a) == SawPaid ==> s.seenPaid)
    && (s.charge == Approved ==> s.payments == 1 || s.seenPaid)
  }

  ghost predicate Inv(s: State) {
    Exclusive(s) && PaidOnce(s) && Justified(s)
  }

  lemma StepKeepsExclusive(s: State, step: Step)
    requires Inv(s) && Enabled(s, step)
    ensures Exclusive(Apply(s, step))
  {
  }

  lemma StepKeepsPaidOnce(s: State, step: Step)
    requires Inv(s) && Enabled(s, step)
    ensures PaidOnce(Apply(s, step))
  {
    var t := Apply(s, step);
    if s.payments == 1 && exists a :: At(s.pcs, a) == PaymentDone {
      var a :| At(s.pcs, a) == PaymentDone;
      assert InSection(At(s.pcs, a));
      if step != Complete(a) {
        assert At(t.pcs, a) == PaymentDone;
      }
    }
    match step
    case PaySucceeds(a) => assert At(t.pcs, a) == PaymentDone;
    case _ =>
  }

  lemma StepKeepsJustified(s: State, step: Step)
    requires Inv(s) && Enabled(s, step)
    ensures Justified(Apply(s, step))
  {
  }

  lemma {:induction false} RunKeepsInv(s: State, run: seq<Step>)
    requires Inv(s) && Feasible(s, run)
    ensures Inv(After(s, run))
  {
    if run != [] {
      var m, step := After(s, run[..|run| - 1]), run[|run| - 1];
      RunKeepsInv(s, run[..|run| - 1]);
      StepKeepsExclusive(m, step);
      StepKeepsPaidOnce(m, step);
      StepKeepsJustified(m, step);
    }
  }

  /**
   In every interleaving: at most one approver at a time between claim and completion, at most one successful
   wallet payment ever, and no approval without a payment.
   */
  lemma PaymentIsExclusive(now: int, expiresAt: int, run: seq<Step>)
    requires Feasible(Start(now, expiresAt), run)
    ensures var t := After(Start(now, expiresAt), run);
            Exclusive(t) && t.payments <= 1 && (t.charge == Approved ==> t.payments == 1 || t.seenPaid)
  {
    RunKeepsInv(Start(now, expiresAt), run);
  }

  /** No operation on a charge takes back a request that was paid, nor moves the deadline or the clock backwards. */
  lemma PaidRequestStays(s: State, step: Step)
    requires Enabled(s, step) && !step.RequestBecomes?
    ensures s.request == Paid ==> Apply(s, step).request == Paid
    ensures Apply(s, step).expiresAt == s.expiresAt && Apply(s, step).now >= s.now
  {
  }

  // ------------------------------------------------------------------ final statuses

  /** An approver whose payment may still go through, or has gone through. */
  predicate MayComplete(pc: Pc) {
    pc == Claimed || pc == PaymentDone
  }

  ghost predicate NoneCompleting(s: State) {
    forall a :: !MayComplete(At(s.pcs, a))
  }

  lemma ClosedStaysOneStep(s: State, step: Step)
    requires !Open(s.charge) && NoneCompleting(s) && Enabled(s, step)
    ensures Apply(s, step).charge == s.charge && NoneCompleting(Apply(s, step))
  {
  }

  lemma {:induction false} ClosedStays(s: State, run: seq<Step>)
    requires !Open(s.charge) && NoneCompleting(s) && Feasible(s, run)
    ensures After(s, run).charge == s.charge && NoneCompleting(After(s, run))
  {
    if run != [] {
      ClosedStays(s, run[..|run| - 1]);
      ClosedStaysOneStep(After(s, run[..|run| - 1]), run[|run| - 1]);
    }
  }

  lemma OneMore(s: State, run: seq<Step>, step: Step)
    requires Feasible(s, run) && Enabled(After(s, run), step)
    ensures Feasible(s, run + [step]) && After(s, run + [step]) == Apply(After(s, run), step)
  {
    assert (run + [step])[..|run|] == run;
  }

  ghost predicate CanBeApproved(s: State) {
    exists run :: Feasible(s, run) && After(s, run).charge == Approved
  }

  /**
   A charge that is declined, cancelled or expired can still end up approved exactly when an approver is
   still between claim and completion with a payment that has not failed.
   */
  lemma ClosedCanBeApprovedIff(s: State)
    requires s.charge == Declined || s.charge == Cancelled || s.charge == Expired
    ensures CanBeApproved(s) <==> !NoneCompleting(s)
  {
    if NoneCompleting(s) {
      forall run | Feasible(s, run)
        ensures After(s, run).charge != Approved
      {
        ClosedStays(s, run);
      }
    } else {
      var a :| MayComplete(At(s.pcs, a));
      var run: seq<Step> := [];
      if At(s.pcs, a) == Claimed {
        OneMore(s, run, PaySucceeds(a));
        run := run + [PaySucceeds(a)];
      }
      OneMore(s, run, Complete(a));
    }
  }

  /** A refusal, or a cancellation by the seller, that takes effect is never undone, whatever happens next. */
  lemma RefusalIsFinal(s: State, step: Step, run: seq<Step>)
    requires Inv(s) && Enabled(s, step) && (step.Decline? || step.SellerCancels?) && s.charge == Pending
    requires Feasible(Apply(s, step), run)
    ensures After(Apply(s, step), run).charge == if step.Decline? then Declined else Cancelled
  {
    forall a
      ensures !MayComplete(At(Apply(s, step).pcs, a))
    {
      assert !InSection(At(s.pcs, a));
    }
    ClosedStays(Apply(s, step), run);
  }

  /** A cancellation by a paused card is not final: the approver already paying goes through. */
  lemma FreezeMayBeOvertaken(now: int, expiresAt: int)
    requires now <= expiresAt
    ensures var s, run := Start(now, expiresAt), [ReadCharge(1), Reconcile(1), Verify(1), Claim(1), FreezeCancels(2)];
            Feasible(s, run) && After(s, run).charge == Cancelled && CanBeApproved(After(s, run))
  {
    var s := Start(now, expiresAt);
    var r1, r2, r3, r4 := [ReadCharge(1)], [ReadCharge(1), Reconcile(1)], [ReadCharge(1), Reconcile(1), Verify(1)],
                          [ReadCharge(1), Reconcile(1), Verify(1), Claim(1)];
    var run := [ReadCharge(1), Reconcile(1), Verify(1), Claim(1), FreezeCancels(2)];
    OneMore(s, [], ReadCharge(1));
    assert [] + [ReadCharge(1)] == r1 && r1 + [Reconcile(1)] == r2 && r2 + [Verify(1)] == r3;
    assert r3 + [Claim(1)] == r4 && r4 + [FreezeCancels(2)] == run;
    OneMore(s, r1, Reconcile(1));
    OneMore(s, r2, Verify(1));
    OneMore(s, r3, Claim(1));
    OneMore(s, r4, FreezeCancels(2));
    assert At(After(s, run).pcs, 1) == Claimed;
    ClosedCanBeApprovedIff(After(s, run));
  }
}
