/** Who can change a draft, and what its arguments become. */
module EscrowDrafts {
  import opened Base
  import opened Escrow
  import opened EscrowRuns

  predicate Edits(call: Call) {
    call.SetParameters? || call.SetOtherData? || call.ResetArguments? || call.PushArgument?
    || call.SetWorkerParameters? || call.SetManagementParameters? || call.DeleteDraft?
  }

  /** Edits and deletions write one draft of their sender. */
  lemma EditsOwn(h: Hashes, s: Ledger, tx: Transaction)
    requires Edits(tx.call) && Exec(h, s, tx).Some?
    ensures var s', id := Step(h, s, tx), tx.call.id;
            && IsOurDraft(s, tx.sender, id) && s' == s.(jobs := s'.jobs)
            && (forall k | k != id :: k in s.jobs <==> k in s'.jobs)
            && (forall k | k != id && k in s.jobs :: s'.jobs[k] == s.jobs[k])
            && (id in s'.jobs ==>
                  s'.jobs[id].sender == tx.sender && s'.jobs[id].nonce == s.jobs[id].nonce && s'.jobs[id].isDraft)
  {
  }

  /** What transactions that are no edits do to jobs: they add a draft of the sender, or lock one. */
  lemma OthersMake(h: Hashes, s: Ledger, tx: Transaction)
    requires !Edits(tx.call) && Exec(h, s, tx).Some?
    ensures var s' := Step(h, s, tx);
            && (tx.call.CreateDraft? ==>
                  exists nonce: uint128 ::
                    && h.job(tx.sender, nonce) !in s.jobs
                    && s'.jobs == s.jobs[h.job(tx.sender, nonce) := NewDraft(tx.sender, nonce)]
                    && s'.log == s.log + [JobNew(tx.sender, nonce)])
            && (tx.call.Lock? ==>
                  && IsOurDraft(s, tx.sender, tx.call.id)
                  && s'.jobs == s.jobs[tx.call.id := s.jobs[tx.call.id].(isDraft := false)])
            && (!tx.call.CreateDraft? && !tx.call.Lock? ==> s'.jobs == s.jobs)
  {
    hide FreeNonce;
    hide Refund;
    hide CreditAll;
    hide CreditLog;
    hide AllDone;
    hide LockTasks;
    hide PricePerTask;
    hide DraftReady;
    hide MaxPrice;
    hide SumPays;
    hide WorkerPays;
    if tx.call.CreateDraft? { FreeNonceIsFree(h, s.jobs, tx.sender, UserAt(s.users, tx.sender).nextNonce, TWO128); }
  }

  /** A transaction of anybody but its owner leaves a job and its arguments as they are. */
  lemma OnlyOwners(h: Hashes, s: Ledger, tx: Transaction, id: Id)
    requires id in s.jobs && tx.sender != s.jobs[id].sender
    ensures id in Step(h, s, tx).jobs && Step(h, s, tx).jobs[id] == s.jobs[id]
  {
    hide Exec;
    if Exec(h, s, tx).Some? {
      if Edits(tx.call) { EditsOwn(h, s, tx); } else { OthersMake(h, s, tx); }
    }
  }

  lemma {:induction false} OnlyOwnersRun(h: Hashes, s: Ledger, txs: seq<Transaction>, id: Id)
    requires id in s.jobs && forall i | 0 <= i < |txs| :: txs[i].sender != s.jobs[id].sender
    ensures id in Run(h, s, txs).jobs && Run(h, s, txs).jobs[id] == s.jobs[id]
  {
    hide Step;
    if txs != [] {
      var n := |txs| - 1;
      forall i | 0 <= i < n ensures txs[..n][i].sender != s.jobs[id].sender { assert txs[..n][i] == txs[i]; }
      OnlyOwnersRun(h, s, txs[..n], id);
      OnlyOwners(h, Run(h, s, txs[..n]), txs[n], id);
    }
  }

  /** The `k`-th nonce from `start` on, which comes round after 2^128 - 1. */
  function NonceAt(start: uint128, k: nat): uint128 {
    (start + k) % TWO128
  }

  /** The first `k` nonces from `start` on are all in use. */
  ghost predicate Passed(h: Hashes, jobs: map<Id, Job>, who: Address, start: uint128, k: nat) {
    forall i | 0 <= i < k :: h.job(who, NonceAt(start, i)) in jobs
  }

  /** Nonce `n` from `start` on is the first that is free. */
  ghost predicate FirstFree(h: Hashes, jobs: map<Id, Job>, who: Address, start: uint128, n: nat) {
    Passed(h, jobs, who, start, n) && h.job(who, NonceAt(start, n)) !in jobs
  }

  lemma {:induction false} Searched(h: Hashes, jobs: map<Id, Job>, who: Address, start: uint128, k: nat, tries: nat)
    requires Passed(h, jobs, who, start, k)
    ensures var r := FreeNonce(h, jobs, who, NonceAt(start, k), tries);
            && (r.None? ==> Passed(h, jobs, who, start, k + tries))
            && (r.Some? ==> exists n: nat :: n < k + tries && r.value == NonceAt(start, n) && FirstFree(h, jobs, who, start, n))
    decreases tries
  {
    if tries > 0 {
      if h.job(who, NonceAt(start, k)) in jobs {
        NextNonce(start, k);
        Searched(h, jobs, who, start, k + 1, tries - 1);
      } else {
        assert FirstFree(h, jobs, who, start, k);
      }
    }
  }

  lemma NextNonce(start: uint128, k: nat)
    ensures U128(NonceAt(start, k) + 1) == NonceAt(start, k + 1)
  {
  }

  /**
   A draft takes the first nonce from the sender's next one on that is not in use, and the one behind it is
   next. It is refused only when all are in use.
   */
  lemma DraftTakesFirst(h: Hashes, s: Ledger, who: Address)
    ensures var r, next := Exec(h, s, Transaction(who, CreateDraft)), UserAt(s.users, who).nextNonce;
            && (r.None? ==> Passed(h, s.jobs, who, next, TWO128))
            && (r.Some? ==> exists n: nat :: n < TWO128 && FirstFree(h, s.jobs, who, next, n) && Takes(h, s, r.value, who, n))
  {
    hide FreeNonce;
    hide Passed;
    hide NonceAt;
    var next := UserAt(s.users, who).nextNonce;
    Starts(h, s.jobs, who, next);
    Searched(h, s.jobs, who, next, 0, TWO128);
    var r := FreeNonce(h, s.jobs, who, next, TWO128);
    if r.Some? {
      var n: nat :| n < TWO128 && r.value == NonceAt(next, n) && FirstFree(h, s.jobs, who, next, n);
      NextNonce(next, n);
      assert Takes(h, s, Exec(h, s, Transaction(who, CreateDraft)).value, who, n);
    }
  }

  lemma Starts(h: Hashes, jobs: map<Id, Job>, who: Address, start: uint128)
    ensures NonceAt(start, 0) == start && Passed(h, jobs, who, start, 0)
  {
  }

  /** Only the job of that nonce is new, and the sender's next nonce is the one behind it. */
  ghost predicate Takes(h: Hashes, s: Ledger, s': Ledger, who: Address, n: nat) {
    var next := UserAt(s.users, who).nextNonce;
    var id := h.job(who, NonceAt(next, n));
    && id in s'.jobs && s'.jobs == s.jobs[id := s'.jobs[id]] && s'.jobs[id].nonce == NonceAt(next, n)
    && UserAt(s'.users, who).nextNonce == NonceAt(next, n + 1)
  }

  function Rewriting(who: Address, id: Id, arguments: seq<Bytes>): seq<Transaction> {
    [Transaction(who, ResetArguments(id))]
    + seq(|arguments|, i requires 0 <= i < |arguments| => Transaction(who, PushArgument(id, arguments[i])))
  }

  /** Its owner can replace the arguments of a draft by any list of arguments that are not empty; nothing else changes. */
  lemma {:induction false} Rewritten(h: Hashes, s: Ledger, who: Address, id: Id, arguments: seq<Bytes>)
    requires IsOurDraft(s, who, id) && forall i | 0 <= i < |arguments| :: arguments[i] != []
    ensures Run(h, s, Rewriting(who, id, arguments)) == s.(jobs := s.jobs[id := s.jobs[id].(arguments := arguments)])
  {
    hide Step;
    var txs := Rewriting(who, id, arguments);
    if arguments == [] {
      ResetOne(h, s, who, id);
      assert Run(h, s, txs) == Step(h, Run(h, s, txs[..0]), txs[0]);
      assert txs == [Transaction(who, ResetArguments(id))] && txs[..0] == [];
    } else {
      var n := |arguments| - 1;
      assert txs[..n + 1] == Rewriting(who, id, arguments[..n]);
      Rewritten(h, s, who, id, arguments[..n]);
      var s1 := s.(jobs := s.jobs[id := s.jobs[id].(arguments := arguments[..n])]);
      PushOne(h, s1, who, id, arguments[n]);
      assert txs[n + 1] == Transaction(who, PushArgument(id, arguments[n]));
      assert arguments == arguments[..n] + [arguments[n]];
    }
  }

  lemma PushOne(h: Hashes, s: Ledger, who: Address, id: Id, argument: Bytes)
    requires IsOurDraft(s, who, id) && argument != []
    ensures Step(h, s, Transaction(who, PushArgument(id, argument)))
            == s.(jobs := s.jobs[id := s.jobs[id].(arguments := s.jobs[id].arguments + [argument])])
  {
  }

  lemma ResetOne(h: Hashes, s: Ledger, who: Address, id: Id)
    requires IsOurDraft(s, who, id)
    ensures Step(h, s, Transaction(who, ResetArguments(id))) == s.(jobs := s.jobs[id := s.jobs[id].(arguments := [])])
  {
  }
}
