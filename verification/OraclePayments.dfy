/** Who is paid what when a proposal ends a task: from the replicas of the shared state to the accounts. */
module OraclePayments {
  import opened Base
  import opened SharedState
  import opened Oracle
  import opened OracleChanges
  import opened OracleChain
  import opened OracleSafety
  import Escrow
  import EscrowMoney
  import EscrowPayouts
  import EscrowSafety

  /** What the replicas assigned under address `a` cost: time and network usage, at the prices of each, in 64 bits. */
  ghost function Earned(j: Escrow.Job, subs: seq<Option<Assigned>>, a: Address): nat {
    if subs == [] then 0
    else
      var last := subs[|subs| - 1];
      Earned(j, subs[..|subs| - 1], a)
      + (if last.Some? && last.value.payment.address == a
         then (last.value.payment.workerPrice * j.timeout + last.value.payment.networkPrice * j.maxNetworkUsage) % TWO64
         else 0)
  }

  ghost function AllEarned(j: Escrow.Job, subs: seq<Option<Assigned>>): nat {
    if subs == [] then 0
    else
      var last := subs[|subs| - 1];
      AllEarned(j, subs[..|subs| - 1])
      + (if last.Some?
         then (last.value.payment.workerPrice * j.timeout + last.value.payment.networkPrice * j.maxNetworkUsage) % TWO64
         else 0)
  }

  function Workers(j: Escrow.Job, pays: seq<PaymentInfo>): seq<Escrow.Payment> {
    Escrow.WorkerPays(j, Addresses(pays), WorkerPrices(pays), NetworkPrices(pays))
  }

  lemma {:induction false} WorkersEarn(j: Escrow.Job, subs: seq<Option<Assigned>>, a: Address)
    ensures EscrowMoney.PaidTo(Workers(j, Payments(subs)), a) == Earned(j, subs, a)
    ensures Escrow.SumPays(Workers(j, Payments(subs))) == AllEarned(j, subs)
  {
    hide Escrow.WorkerCost;
    if subs != [] {
      var n := |subs| - 1;
      WorkersEarn(j, subs[..n], a);
      var front := Payments(subs[..n]);
      if subs[n].Some? {
        var pay := subs[n].value.payment;
        EscrowPayouts.CostWrapsOnce(j, pay.workerPrice, pay.networkPrice);
        var entry := Escrow.Payment(pay.address, Escrow.WorkerCost(j, pay.workerPrice, pay.networkPrice));
        assert Workers(j, front + [pay]) == Workers(j, front) + [entry];
        EscrowPayouts.PaidToAppend(Workers(j, front), [entry], a);
        EscrowMoney.SumPaysAppend(Workers(j, front), [entry]);
        assert [entry][..0] == [];
      } else {
        assert front + [] == front;
      }
    }
  }

  /** Accounts after a task of `j` has ended with these payments. */
  ghost predicate Settled(j: Escrow.Job, l: Escrow.Ledger, l': Escrow.Ledger, pays: seq<Escrow.Payment>) {
    l'.users == Escrow.Refund(Escrow.CreditAll(l.users, pays), j.sender, Escrow.PricePerTask(j), Escrow.SumPays(pays))
  }

  lemma CompletedSettles(env: Env, l: Escrow.Ledger, id: Id, managers: seq<Address>, result: Bytes, pays: seq<PaymentInfo>)
    requires Ready(env, l, id) && managers != [] && FinishCompleted(env, l, id, managers, result, pays).ok
    ensures var j := Escrow.JobAt(l.jobs, l.tasks[id].jobId);
            Settled(j, l, FinishCompleted(env, l, id, managers, result, pays).ledger,
                    Workers(j, pays) + Escrow.ManagerPays(j, managers))
  {
    hide EscrowSafety.Inv;
    hide Escrow.ManagersBound;
    hide Escrow.Refund;
    hide Escrow.CreditAll;
    hide Escrow.CreditLog;
    hide Escrow.AllDone;
    hide Escrow.PricePerTask;
    hide Escrow.SumPays;
    SetManagersIff(env, l, id, managers);
  }

  lemma FailedSettles(env: Env, l: Escrow.Ledger, id: Id, managers: seq<Address>, reason: DefiniteError)
    requires Ready(env, l, id) && managers != [] && FinishFailed(env, l, id, managers, reason).ok
    ensures var j := Escrow.JobAt(l.jobs, l.tasks[id].jobId);
            Settled(j, l, FinishFailed(env, l, id, managers, reason).ledger, Escrow.ManagerPays(j, managers))
  {
    hide EscrowSafety.Inv;
    hide Escrow.ManagersBound;
    hide Escrow.Refund;
    hide Escrow.CreditAll;
    hide Escrow.CreditLog;
    hide Escrow.AllDone;
    hide Escrow.PricePerTask;
    hide Escrow.SumPays;
    SetManagersIff(env, l, id, managers);
  }

  /** Every account gains what it was paid, and the sender's the rest of the price. */
  lemma SettledGains(j: Escrow.Job, l: Escrow.Ledger, l': Escrow.Ledger, pays: seq<Escrow.Payment>, a: Address)
    requires Settled(j, l, l', pays)
    ensures EscrowPayouts.Gains(Escrow.UserAt(l.users, a), Escrow.UserAt(l'.users, a), EscrowMoney.PaidTo(pays, a),
                                a == j.sender, Escrow.PricePerTask(j), Escrow.PricePerTask(j) - Escrow.SumPays(pays))
  {
    EscrowPayouts.SettledGains(l.users, pays, j.sender, Escrow.PricePerTask(j), a);
  }

  /** The ledger of a completion, once the manager of the proposal is registered. */
  lemma CompletionApplies(env: Env, w: World, p: Proposal)
    requires WorldOk(env.h, w) && Well(p) && p.kind.Completion? && Handle(env, w, p.taskId.value, p.kind).Accept?
    requires Propose(env, w, p).Done?
    ensures var id := p.taskId.value;
            var r := FinishCompleted(env, w.ledger, id, w.shared.tasks[id].managers + [p.payment.value],
                                     p.kind.selected.value.result.value, Payments(Subs(w, id)));
            r.ok && Propose(env, w, p).world.ledger == r.ledger
  {
    hide EscrowSafety.Inv;
    hide Sort;
    hide FinishCompleted;
    hide Apply;
    var id, manager, result := p.taskId.value, p.payment.value, p.kind.selected.value.result.value;
    assert TaskShape(w, id);
    SortCompletion(result);
    ApplyTwo(env, w, id, manager, AddManager, Complete(result));
    AddManagerSteady(env, w, id, manager);
    CompleteStep(env, Apply(env, w, id, manager, AddManager).world, id, manager, result);
  }

  lemma CompleteStep(env: Env, w: World, id: Id, manager: Address, result: Bytes)
    requires Open(w, id)
    ensures var a := Apply(env, w, id, manager, Complete(result));
            var r := FinishCompleted(env, w.ledger, id, w.shared.tasks[id].managers, result, Payments(Subs(w, id)));
            (a.Done? <==> r.ok) && a.world.ledger == r.ledger
  {
    hide FinishCompleted;
  }

  /**
   When a proposal completes a task, every account gains exactly the cost of the replicas assigned under it
   and one fee for each time it registered as a manager, the manager of this proposal included. The sender
   gets back what is left of the price of the task besides.
   */
  lemma CompletionPays(env: Env, w: World, p: Proposal, a: Address)
    requires WorldOk(env.h, w) && Well(p) && p.kind.Completion? && Handle(env, w, p.taskId.value, p.kind).Accept?
    requires Propose(env, w, p).Done?
    ensures var id := p.taskId.value;
            && id in w.ledger.tasks && w.ledger.tasks[id].jobId in w.ledger.jobs && Open(w, id)
            && var j, managers := w.ledger.jobs[w.ledger.tasks[id].jobId], w.shared.tasks[id].managers + [p.payment.value];
               var l' := Propose(env, w, p).world.ledger;
               && Free(Subs(w, id)) == 0
               && EscrowPayouts.Gains(Escrow.UserAt(w.ledger.users, a), Escrow.UserAt(l'.users, a),
                    Earned(j, Subs(w, id), a) + EscrowPayouts.Fees(j, managers, a),
                    a == j.sender, Escrow.PricePerTask(j), EscrowPayouts.Rest(j, AllEarned(j, Subs(w, id)), |managers|))
  {
    hide EscrowSafety.Inv;
    hide Settled;
    hide Sort;
    hide FinishCompleted;
    hide Apply;
    hide ApplyAll;
    hide U256;
    hide EscrowPayouts.Gains;
    hide EscrowPayouts.Fees;
    hide Escrow.PricePerTask;
    hide Propose;
    var id := p.taskId.value;
    assert TaskShape(w, id);
    OpenTaskJob(env.h, w.ledger, id);
    var j := w.ledger.jobs[w.ledger.tasks[id].jobId];
    var managers := w.shared.tasks[id].managers + [p.payment.value];
    var replicas := Payments(Subs(w, id));
    CompletionApplies(env, w, p);
    ProposeOutcome(env, w, p);
    assert !Halts(env, w, p);
    CompletedSettles(env, w.ledger, id, managers, p.kind.selected.value.result.value, replicas);
    var pays := Workers(j, replicas) + Escrow.ManagerPays(j, managers);
    EscrowPayouts.PaidToAppend(Workers(j, replicas), Escrow.ManagerPays(j, managers), a);
    WorkersEarn(j, Subs(w, id), a);
    EscrowPayouts.ManagersPaid(j, managers, a);
    EscrowMoney.SumPaysAppend(Workers(j, replicas), Escrow.ManagerPays(j, managers));
    EscrowMoney.SumManagerPays(j, managers);
    SettledGains(j, w.ledger, Propose(env, w, p).world.ledger, pays, a);
  }

  /** The ledger of a definite failure, once every replica is released. */
  lemma FailureApplies(env: Env, w: World, p: Proposal)
    requires WorldOk(env.h, w) && Well(p) && p.kind.Failure? && Handle(env, w, p.taskId.value, p.kind).Accept?
    requires Propose(env, w, p).Done? && !Open(Propose(env, w, p).world, p.taskId.value)
    ensures var id := p.taskId.value;
            && Open(w, id)
            && exists reason :: ToContract(reason).Some?
                 && var r := FinishFailed(env, w.ledger, id, w.shared.tasks[id].managers + [p.payment.value], reason);
                    r.ok && Propose(env, w, p).world.ledger == r.ledger
  {
    hide EscrowSafety.Inv;
    hide Sort;
    hide Apply;
    hide HandleFailure;
    hide BlameOf;
    hide FinishFailed;
    var id, manager, newNb := p.taskId.value, p.payment.value, p.kind.newNbFailures;
    HandledTask(w, id, newNb, p.kind.kind);
    FailureFacts(env, w, id, newNb, p.kind.kind);
    assert TaskShape(w, id) && CountOk(w, id);
    var t := w.shared.tasks[id];
    var max := w.shared.jobs[t.jobId].maxFailures;
    var blame := BlameOf(t, max, id, newNb, p.kind.kind).value;
    var workers := Released(t, max, blame.worker).value;
    var end := if newNb > max then [Fail(blame.reason.value)] else [];
    SortFailure(newNb, workers, end);
    ApplyAllAppend(env, w, id, manager, UnassignAll(workers) + [AddManager, SetNbFailures(newNb)], end);
    ReleaseAndCount(env, w, id, manager, workers, newNb);
    var w3 := ApplyAll(env, w, id, manager, UnassignAll(workers) + [AddManager, SetNbFailures(newNb)]).world;
    assert end == [] ==> ApplyAll(env, w3, id, manager, end) == Done(w3);
    if newNb > max {
      ApplyOne(env, w3, id, manager, Fail(blame.reason.value));
      FailStep(env, w3, id, manager, blame.reason.value);
    }
  }

  lemma FailStep(env: Env, w: World, id: Id, manager: Address, reason: DefiniteError)
    requires Open(w, id)
    ensures var a := Apply(env, w, id, manager, Fail(reason));
            var r := FinishFailed(env, w.ledger, id, w.shared.tasks[id].managers, reason);
            (a.Done? <==> r.ok) && a.world.ledger == r.ledger
  {
    hide FinishFailed;
  }

  /** When a proposal makes a task definitely fail, its managers get their fees, no worker is paid, and the sender gets the rest. */
  lemma FailurePays(env: Env, w: World, p: Proposal, a: Address)
    requires WorldOk(env.h, w) && Well(p) && p.kind.Failure? && Handle(env, w, p.taskId.value, p.kind).Accept?
    requires Propose(env, w, p).Done? && !Open(Propose(env, w, p).world, p.taskId.value)
    ensures var id := p.taskId.value;
            && id in w.ledger.tasks && w.ledger.tasks[id].jobId in w.ledger.jobs && Open(w, id)
            && var j, managers := w.ledger.jobs[w.ledger.tasks[id].jobId], w.shared.tasks[id].managers + [p.payment.value];
               EscrowPayouts.Gains(Escrow.UserAt(w.ledger.users, a), Escrow.UserAt(Propose(env, w, p).world.ledger.users, a),
                 EscrowPayouts.Fees(j, managers, a), a == j.sender, Escrow.PricePerTask(j), EscrowPayouts.Rest(j, 0, |managers|))
  {
    hide EscrowSafety.Inv;
    hide Settled;
    hide Sort;
    hide FinishFailed;
    hide Apply;
    hide ApplyAll;
    hide U256;
    hide EscrowPayouts.Gains;
    hide EscrowPayouts.Fees;
    hide Escrow.PricePerTask;
    hide Propose;
    var id := p.taskId.value;
    FailureApplies(env, w, p);
    assert TaskShape(w, id);
    OpenTaskJob(env.h, w.ledger, id);
    var j := w.ledger.jobs[w.ledger.tasks[id].jobId];
    var managers := w.shared.tasks[id].managers + [p.payment.value];
    var reason :| ToContract(reason).Some?
                  && var r := FinishFailed(env, w.ledger, id, managers, reason);
                     r.ok && Propose(env, w, p).world.ledger == r.ledger;
    FailedByOracle(env, w.ledger, id, managers, reason);
    FailedSettles(env, w.ledger, id, managers, reason);
    EscrowPayouts.ManagersPaid(j, managers, a);
    EscrowMoney.SumManagerPays(j, managers);
    SettledGains(j, w.ledger, Propose(env, w, p).world.ledger, Escrow.ManagerPays(j, managers), a);
  }

  lemma FailedByOracle(env: Env, l: Escrow.Ledger, id: Id, managers: seq<Address>, reason: DefiniteError)
    requires FinishFailed(env, l, id, managers, reason).ok
    ensures env.me == l.oracle
  {
  }
}
