/** Uploading and reading back are inverse, and client and contract agree on prices and on locking. */
module ClientLaws {
  import opened Base
  import opened Escrow
  import opened Client
  import EscrowSolvency

  // ---------------------------------------------------------------- round trip

  ghost predicate NoEmpty(arguments: seq<Bytes>) {
    forall i | 0 <= i < |arguments| :: arguments[i] != []
  }

  /** Arguments are pushed in order; an empty one, and nothing else, stops the upload. */
  lemma {:induction false} PushesArguments(h: Hashes, l: Ledger, who: Address, id: Id, arguments: seq<Bytes>)
    requires IsOurDraft(l, who, id)
    ensures var r := CallAll(h, l, who, PushCalls(id, arguments));
            && (r.ok <==> NoEmpty(arguments))
            && (r.ok ==> r.ledger == l.(jobs := l.jobs[id := l.jobs[id].(arguments := l.jobs[id].arguments + arguments)]))
  {
    if arguments == [] {
      assert l.jobs == l.jobs[id := l.jobs[id].(arguments := l.jobs[id].arguments + [])] by {
        assert l.jobs[id].arguments + [] == l.jobs[id].arguments;
      }
    } else {
      var n := |arguments| - 1;
      var front := arguments[..n];
      assert PushCalls(id, arguments)[..n] == PushCalls(id, front);
      PushesArguments(h, l, who, id, front);
      var r := CallAll(h, l, who, PushCalls(id, front));
      if r.ok {
        PushOne(h, r.ledger, who, id, arguments[n]);
        assert l.jobs[id].arguments + front + [arguments[n]] == l.jobs[id].arguments + arguments;
        var j := l.jobs[id].(arguments := l.jobs[id].arguments + arguments);
        assert l.jobs[id := l.jobs[id].(arguments := l.jobs[id].arguments + front)][id := j] == l.jobs[id := j];
      } else {
        assert !NoEmpty(arguments);
      }
    }
  }

  lemma PushOne(h: Hashes, l: Ledger, who: Address, id: Id, argument: Bytes)
    requires IsOurDraft(l, who, id)
    ensures var r := CallOne(h, l, who, PushArgument(id, argument));
            && (r.ok <==> argument != [])
            && (r.ok ==> r.ledger == l.(jobs := l.jobs[id := l.jobs[id].(arguments := l.jobs[id].arguments + [argument])]))
  {
  }

  /** Filling in a fresh draft leaves exactly the job, and touches nothing else. */
  lemma FillsDraft(h: Hashes, l: Ledger, who: Address, id: Id, d: JobData, data: Bytes, nonce: uint128)
    requires id in l.jobs && l.jobs[id] == NewDraft(who, nonce) && Built(d)
    ensures var r := CallAll(h, l, who, UploadCalls(id, d, data));
            && (r.ok <==> NoEmpty(d.arguments))
            && (r.ok ==> r.ledger == l.(jobs := l.jobs[id := Stored(d, data, who, nonce)]))
  {
    hide CallAll;
    UploadShape(h, l, who, id, d, data);
    var j1 := NewDraft(who, nonce).(timeout := d.timeout, redundancy := d.redundancy, maxFailures := d.maxFailures);
    var a := l.(jobs := l.jobs[id := j1]);
    assert CallOne(h, l, who, Call.SetParameters(id, d.timeout, d.redundancy, d.maxFailures)) == Called(a, true);
    var j2 := j1.(otherData := data);
    var b := l.(jobs := l.jobs[id := j2]);
    assert CallOne(h, a, who, Call.SetOtherData(id, data)) == Called(b, true) by {
      assert a.jobs[id := j2] == b.jobs;
    }
    PushesArguments(h, b, who, id, d.arguments);
    var j3 := j2.(arguments := d.arguments);
    var c := l.(jobs := l.jobs[id := j3]);
    assert [] + d.arguments == d.arguments;
    assert b.jobs[id := j3] == c.jobs;
    if NoEmpty(d.arguments) { FillsPrices(h, l, who, id, d, j3); }
  }

  lemma FillsPrices(h: Hashes, l: Ledger, who: Address, id: Id, d: JobData, j: Job)
    requires j.sender == who && j.isDraft && Built(d)
    ensures var c := l.(jobs := l.jobs[id := j]);
            var e := CallOne(h, c, who, Call.SetWorkerParameters(id, d.maxWorkerPrice, d.maxNetworkUsage, d.maxNetworkPrice));
            var j' := j.(maxWorkerPrice := d.maxWorkerPrice, maxNetworkUsage := d.maxNetworkUsage,
                         maxNetworkPrice := d.maxNetworkPrice, minCheckingInterval := d.minCheckingInterval,
                         managementPrice := d.managementPrice);
            && e.ok
            && CallOne(h, e.ledger, who, Call.SetManagementParameters(id, d.minCheckingInterval, d.managementPrice))
               == Called(l.(jobs := l.jobs[id := j']), true)
  {
    var j1 := j.(maxWorkerPrice := d.maxWorkerPrice, maxNetworkUsage := d.maxNetworkUsage, maxNetworkPrice := d.maxNetworkPrice);
    var j2 := j1.(minCheckingInterval := d.minCheckingInterval, managementPrice := d.managementPrice);
    assert l.jobs[id := j][id := j1] == l.jobs[id := j1];
    assert l.jobs[id := j1][id := j2] == l.jobs[id := j2];
  }

  lemma {:induction false} NonceIsFree(h: Hashes, jobs: map<Id, Job>, who: Address, nonce: uint128, tries: nat)
    ensures FreeNonce(h, jobs, who, nonce, tries).Some? ==>
              JobId(h, who, FreeNonce(h, jobs, who, nonce, tries).value) !in jobs
    decreases tries
  {
    hide U128;
    if tries > 0 && JobId(h, who, nonce) in jobs { NonceIsFree(h, jobs, who, U128(nonce + 1), tries - 1); }
  }

  /**
   An upload goes through exactly when the sender has a free nonce and no argument is empty. Then the
   job read back is the job uploaded, with its sender and nonce, at an id no job had before; no other
   job, no task and no balance changes.
   */
  lemma UploadThenRead(h: Hashes, l: Ledger, who: Address, d: JobData, codec: Codec)
    requires Built(d) && Inverse(codec) && codec.isHash(d.programHash)
    ensures var u := Upload(h, l, who, d, codec);
            && (u.nonce.Some? <==> NextNonce(h, l, who).Some? && NoEmpty(d.arguments))
            && (u.nonce.Some? ==>
                  var id := JobId(h, who, u.nonce.value);
                  && ReadBack(codec, u.ledger, id) == Some(d.(sender := who, nonce := u.nonce))
                  && id !in l.jobs && u.ledger.jobs == l.jobs[id := u.ledger.jobs[id]] && u.ledger.jobs[id].isDraft
                  && u.ledger.tasks == l.tasks && u.ledger.ether == l.ether
                  && forall a :: UserAt(u.ledger.users, a).pending == UserAt(l.users, a).pending
                                 && UserAt(u.ledger.users, a).locked == UserAt(l.users, a).locked)
  {
    hide FreeNonce;
    hide CallAll;
    hide UploadCalls;
    var nonce := NextNonce(h, l, who);
    if nonce.Some? {
      var id, data := JobId(h, who, nonce.value), codec.encode(Other(d));
      NonceIsFree(h, l.jobs, who, UserAt(l.users, who).nextNonce, TWO128);
      var created := CallOne(h, l, who, Call.CreateDraft).ledger;
      FillsDraft(h, created, who, id, d, data, nonce.value);
      ReadsUploaded(codec, CallAll(h, created, who, UploadCalls(id, d, data)).ledger, id, d, who, nonce.value);
      var j := Stored(d, data, who, nonce.value);
      assert l.jobs[id := NewDraft(who, nonce.value)][id := j] == l.jobs[id := j];
    }
  }

  lemma ReadsUploaded(codec: Codec, l: Ledger, id: Id, d: JobData, who: Address, nonce: uint128)
    requires Built(d) && Inverse(codec) && codec.isHash(d.programHash)
    ensures id in l.jobs && l.jobs[id] == Stored(d, codec.encode(Other(d)), who, nonce) ==>
              ReadBack(codec, l, id) == Some(d.(sender := who, nonce := Some(nonce)))
  {
    assert codec.decode(codec.encode(Other(d))) == Some(Other(d));
    match (d.programKind, d.bestMethod)
    case (Wasm0m1n0, Cost) =>
    case (Wasm0m1n0, Performance) =>
  }

  // ---------------------------------------------------------------- prices

  /** The two price formulas, whose products are taken in different orders, always agree. */
  lemma PricesAgree(d: JobData, data: Bytes, who: Address, nonce: uint128)
    requires d.minCheckingInterval > 0
    ensures CalcPrice(d) == PricePerTask(Stored(d, data, who, nonce))
            == U64(EscrowSolvency.ExactPrice(Stored(d, data, who, nonce)))
  {
    hide U64;
    var x := U64(U64(d.timeout * d.maxWorkerPrice) + U64(d.maxNetworkUsage * d.maxNetworkPrice));
    assert d.redundancy * x == x * d.redundancy;
    EscrowSolvency.PriceWrapsOnce(Stored(d, data, who, nonce));
  }

  lemma TotalWraps(n: nat, price: uint64)
    requires n < TWO64
    ensures U64(U64(n) * price) == U256(price * n) <==> price * n < TWO64
  {
    assert U64(n) == n;
    assert n * price == price * n;
    WordProduct(n, price);
    TotalWord(price * n);
  }

  lemma WordProduct(n: nat, price: nat)
    requires n < TWO64 && price < TWO64
    ensures price * n < TWO256
  {
    EscrowSolvency.TimesMonotone(price, TWO64, n);
  }

  lemma TotalWord(t: nat)
    requires t < TWO256
    ensures U64(t) == U256(t) <==> t < TWO64
  {
  }

  /** The client's total, computed in 64 bits, is the contract's, computed in 256, exactly when it fits 64 bits. */
  lemma TotalsAgreeIff(d: JobData, data: Bytes, who: Address, nonce: uint128)
    requires d.minCheckingInterval > 0 && |d.arguments| < TWO64
    ensures CalcMaxPrice(d) == MaxPrice(Stored(d, data, who, nonce)) <==> CalcPrice(d) * |d.arguments| < TWO64
  {
    hide U64;
    hide U256;
    hide CalcPrice;
    hide PricePerTask;
    PricesAgree(d, data, who, nonce);
    TotalWraps(|d.arguments|, CalcPrice(d));
  }

  // ---------------------------------------------------------------- locking

  ghost predicate JobMinima(j: Job) {
    && j.timeout >= MIN_TIMEOUT && j.maxWorkerPrice >= MIN_WORKER_PRICE && j.maxNetworkPrice >= MIN_NETWORK_PRICE
    && j.minCheckingInterval >= MIN_CHECKING_INTERVAL && j.managementPrice >= MIN_MAN_PRICE && j.redundancy >= MIN_REDUNDANCY
  }

  /** Parameters the contract has stored are never below their minimum. */
  ghost predicate Minima(l: Ledger) {
    forall id | id in l.jobs :: JobMinima(l.jobs[id])
  }

  lemma StepMinima(h: Hashes, l: Ledger, tx: Transaction)
    requires Minima(l)
    ensures Minima(Step(h, l, tx))
  {
    hide JobMinima;
    hide FreeNonce;
    hide LockTasks;
    hide DraftReady;
    hide Settle;
    hide MaxPrice;
    hide U256;
    var who := tx.sender;
    match tx.call
    case SetParameters(id, t, r, f) => EditMinima(JobAt(l.jobs, id), t, r, f, 0, 0, 0, 0, 0);
    case SetWorkerParameters(id, w, u, p) => EditMinima(JobAt(l.jobs, id), 0, 0, 0, w, u, p, 0, 0);
    case SetManagementParameters(id, i, p) => EditMinima(JobAt(l.jobs, id), 0, 0, 0, 0, 0, 0, i, p);
    case SetOtherData(id, data) => OtherMinima(JobAt(l.jobs, id), JobAt(l.jobs, id).(otherData := data));
    case ResetArguments(id) => OtherMinima(JobAt(l.jobs, id), JobAt(l.jobs, id).(arguments := []));
    case PushArgument(id, argument) =>
      OtherMinima(JobAt(l.jobs, id), JobAt(l.jobs, id).(arguments := JobAt(l.jobs, id).arguments + [argument]));
    case Lock(id) => OtherMinima(JobAt(l.jobs, id), JobAt(l.jobs, id).(isDraft := false));
    case CreateDraft => NewMinima(h, l, who);
    case SetDefinitelyFailed(id, reason) =>
      if id in l.tasks {
        SettleMinima(h, l, id, l.tasks[id].(state := DefinetelyFailed, reason := reason), FailurePays(l, id), false,
                     TaskDefinetelyFailed(id, reason));
      }
    case SetCompleted(id, result, workers, workerPrices, networkPrices) =>
      if id in l.tasks && |workers| == |workerPrices| == |networkPrices| {
        SettleMinima(h, l, id, l.tasks[id].(state := Completed, result := result),
                     CompletionPays(l, id, workers, workerPrices, networkPrices), true, TaskCompleted(id, result));
      }
    case _ =>
  }

  lemma SettleMinima(h: Hashes, l: Ledger, id: Id, task: Task, pays: seq<Payment>, sayRefund: bool, said: Event)
    requires id in l.tasks
    ensures Settle(h, l, id, task, pays, sayRefund, said).Some? ==> Settle(h, l, id, task, pays, sayRefund, said).value.jobs == l.jobs
  {
    hide AllDone;
    hide PricePerTask;
  }

  lemma NewMinima(h: Hashes, l: Ledger, who: Address)
    requires Minima(l)
    ensures Minima(Step(h, l, Transaction(who, CreateDraft)))
  {
    hide FreeNonce;
  }

  lemma OtherMinima(j: Job, j': Job)
    requires j' == j.(arguments := j'.arguments, otherData := j'.otherData, isDraft := j'.isDraft)
    ensures JobMinima(j) ==> JobMinima(j')
  {
  }

  lemma EditMinima(j: Job, t: uint64, r: uint64, f: uint64, w: uint64, u: uint64, p: uint64, i: uint64, m: uint64)
    ensures JobMinima(j) && t > 9 && r > 0 ==> JobMinima(j.(timeout := t, redundancy := r, maxFailures := f))
    ensures JobMinima(j) && w > 0 && p > 0 ==> JobMinima(j.(maxWorkerPrice := w, maxNetworkUsage := u, maxNetworkPrice := p))
    ensures JobMinima(j) && i > 14 && m > 0 ==> JobMinima(j.(minCheckingInterval := i, managementPrice := m))
  {
  }

  lemma {:induction false} RunMinima(h: Hashes, oracle: Address, txs: seq<Transaction>)
    ensures Minima(Run(h, Deployed(oracle), txs))
  {
    hide Step;
    if txs != [] {
      RunMinima(h, oracle, txs[..|txs| - 1]);
      StepMinima(h, Run(h, Deployed(oracle), txs[..|txs| - 1]), txs[|txs| - 1]);
    }
  }

  /** Above the minima the clamping setters of the client change nothing. */
  lemma ReadsStored(codec: Codec, l: Ledger, id: Id)
    requires Minima(l) && ReadBack(codec, l, id).Some?
    ensures var d, j := ReadBack(codec, l, id).value, l.jobs[id];
            && Stored(d, j.otherData, j.sender, j.nonce) == j.(isDraft := true)
            && d.sender == j.sender && Built(d)
  {
  }

  lemma LowBits(pending: uint256, total: nat)
    requires U128(pending) >= total
    ensures pending >= total
  {
  }

  /**
   Below 2^128 wei the client lets its own draft through exactly when the contract's checks hold and it names a
   program; of a larger balance it reads the low 128 bits only, and may refuse what the contract would take.
   */
  lemma ChecksIff(l: Ledger, who: Address, codec: Codec, id: Id, pending: uint256)
    requires Minima(l) && id in l.jobs && l.jobs[id].isDraft && ReadBack(codec, l, id).Some?
    requires var d := ReadBack(codec, l, id).value; |d.arguments| < TWO64 && CalcPrice(d) * |d.arguments| < TWO64
    ensures var d := ReadBack(codec, l, id).value;
            LockChecks(d, who, pending)
            <==> l.jobs[id].sender == who && d.programAddresses != [] && DraftReady(l.jobs[id], pending % TWO128)
  {
    hide PricePerTask;
    hide CalcPrice;
    hide CalcMaxPrice;
    hide MaxPrice;
    hide U256;
    hide ReadBack;
    var d, j := ReadBack(codec, l, id).value, l.jobs[id];
    ReadsStored(codec, l, id);
    TotalsAgreeIff(d, j.otherData, j.sender, j.nonce);
    SamePrices(j.(isDraft := true), j);
  }

  /**
   A draft that passes the client's checks, with a total price that fits 64 bits, passes the
   contract's, and locking it moves exactly the total the client computed. Only a task id already
   taken can still make the contract refuse.
   */
  lemma LockAgrees(h: Hashes, l: Ledger, who: Address, codec: Codec, id: Id)
    requires Minima(l) && id in l.jobs && l.jobs[id].isDraft && ReadBack(codec, l, id).Some?
    requires var d := ReadBack(codec, l, id).value;
             && |d.arguments| < TWO64 && LockChecks(d, who, UserAt(l.users, who).pending)
             && CalcPrice(d) * |d.arguments| < TWO64
    ensures var d := ReadBack(codec, l, id).value;
            var r := LockDraft(h, l, who, codec, id);
            && DraftReady(l.jobs[id], UserAt(l.users, who).pending)
            && (r.ok <==> LockTasks(h, l.tasks, id, |d.arguments|).Some?)
            && (r.ok ==>
                  var u, u' := UserAt(l.users, who), UserAt(r.ledger.users, who);
                  && u'.pending == u.pending - CalcMaxPrice(d)
                  && u'.locked == U256(u.locked + CalcMaxPrice(d)))
  {
    hide LockTasks;
    hide PricePerTask;
    hide CalcPrice;
    hide CalcMaxPrice;
    hide MaxPrice;
    hide U256;
    hide U128;
    hide ReadBack;
    var d, j := ReadBack(codec, l, id).value, l.jobs[id];
    ReadsStored(codec, l, id);
    TotalsAgreeIff(d, j.otherData, j.sender, j.nonce);
    SamePrices(j.(isDraft := true), j);
    SamePrices(j.(isDraft := false), j);
    LowBits(UserAt(l.users, who).pending, CalcMaxPrice(d));
    WordMinus(UserAt(l.users, who).pending, CalcMaxPrice(d));
  }

  lemma SamePrices(i: Job, j: Job)
    requires i == j.(isDraft := i.isDraft)
    ensures MaxPrice(i) == MaxPrice(j)
  {
    hide U64;
    hide U256;
  }

  lemma WordMinus(pending: uint256, total: nat)
    requires total <= pending
    ensures U256(pending - total) == pending - total
  {
  }

  /**
   Two tasks of 2^63 each: the client finds a total of 0 and lets its user lock the job, the contract
   asks for 2^64.
   */
  function WrappingJob(who: Address, nonce: uint128): JobData {
    NewJob(Wasm0m1n0, ["/program"], [], [[1], [2]], who)
      .(maxNetworkUsage := 0x7FFF_FFFF_FFFF_FFF2, nonce := Some(nonce))
  }

  lemma WrappingTotal(who: Address, nonce: uint128, data: Bytes, pending: uint256)
    requires pending < TWO64
    ensures var d := WrappingJob(who, nonce);
            && Built(d) && NoEmpty(d.arguments) && CalcMaxPrice(d) == 0 && LockChecks(d, who, pending)
            && MaxPrice(Stored(d, data, who, nonce)) == TWO64
            && !DraftReady(Stored(d, data, who, nonce), pending)
  {
    var d := WrappingJob(who, nonce);
    assert CalcPrice(d) == 0x8000_0000_0000_0000;
    PricesAgree(d, data, who, nonce);
  }
}
