/**
 The client's side of the Jobs contract: a job built through its setters, uploaded as a draft, read
 back and locked. Prices are computed with wrapping 64-bit operations on both sides.
 */
module Client {
  import opened Base
  import opened Escrow
  import JobsContract

  const MIN_TIMEOUT: uint64 := 10
  const MIN_CPU_COUNT: uint64 := 1
  const MIN_REDUNDANCY: uint64 := 1
  const MIN_WORKER_PRICE: uint64 := 1
  const MIN_NETWORK_PRICE: uint64 := 1
  const MIN_CHECKING_INTERVAL: uint64 := 15
  const MIN_MAN_PRICE: uint64 := 1

  datatype ProgramKind = Wasm0m1n0

  datatype BestMethod = Cost | Performance

  datatype JobData = JobData(
    programKind: ProgramKind,
    programAddresses: seq<string>,
    programHash: Bytes,
    arguments: seq<Bytes>,
    timeout: uint64,
    maxWorkerPrice: uint64,
    maxNetworkUsage: uint64,
    maxNetworkPrice: uint64,
    minCheckingInterval: uint64,
    managementPrice: uint64,
    redundancy: uint64,
    maxFailures: uint64,
    bestMethod: BestMethod,
    minCpuCount: uint64,
    minMemory: uint64,
    minNetworkSpeed: uint64,
    isProgramPure: bool,
    sender: Address,
    nonce: Option<uint128>)

  function AtLeast(min: uint64, n: uint64): uint64 {
    if n > min then n else min
  }

  function NewJob(kind: ProgramKind, addresses: seq<string>, hash: Bytes, arguments: seq<Bytes>, sender: Address): JobData {
    JobData(kind, addresses, hash, arguments, MIN_TIMEOUT, MIN_WORKER_PRICE, 0, MIN_NETWORK_PRICE,
            MIN_CHECKING_INTERVAL, MIN_MAN_PRICE, MIN_REDUNDANCY, 0, Cost, MIN_CPU_COUNT, 0, 0, false, sender, None)
  }

  /** What the constructor and the setters keep. */
  predicate Built(d: JobData) {
    && d.timeout >= MIN_TIMEOUT && d.maxWorkerPrice >= MIN_WORKER_PRICE && d.maxNetworkPrice >= MIN_NETWORK_PRICE
    && d.minCheckingInterval >= MIN_CHECKING_INTERVAL && d.managementPrice >= MIN_MAN_PRICE
    && d.redundancy >= MIN_REDUNDANCY && d.minCpuCount >= MIN_CPU_COUNT
  }

  predicate IsReady(d: JobData) {
    d.programAddresses != [] && d.arguments != [] && Built(d)
  }

  /** `calc_max_price_per_task`, operation by operation. */
  function CalcPrice(d: JobData): uint64
    requires d.minCheckingInterval > 0
  {
    U64(U64(d.redundancy * U64(U64(d.timeout * d.maxWorkerPrice) + U64(d.maxNetworkUsage * d.maxNetworkPrice)))
        + U64(U64(d.managementPrice * U64(d.redundancy + d.maxFailures)) * U64(4 + d.timeout / d.minCheckingInterval)))
  }

  /** `calc_max_price`. */
  function CalcMaxPrice(d: JobData): uint64
    requires d.minCheckingInterval > 0
  {
    U64(U64(|d.arguments|) * CalcPrice(d))
  }

  // ---------------------------------------------------------------- data the contract does not read

  datatype OtherData = OtherData(
    kind: int,
    addresses: seq<string>,
    hash: Bytes,
    best: int,
    minCpuCount: uint64,
    minMemory: uint64,
    minNetworkSpeed: uint64,
    isProgramPure: bool)

  /** The byte form of `OtherData`, and which bytes are a multihash. */
  datatype Codec = Codec(encode: OtherData -> Bytes, decode: Bytes -> Option<OtherData>, isHash: Bytes -> bool)

  ghost predicate Inverse(codec: Codec) {
    forall o :: codec.decode(codec.encode(o)) == Some(o)
  }

  function BestOf(code: int): BestMethod {
    if code == 1 then Performance else Cost
  }

  function Other(d: JobData): OtherData {
    OtherData(0, d.programAddresses, d.programHash, if d.bestMethod.Cost? then 0 else 1,
              d.minCpuCount, d.minMemory, d.minNetworkSpeed, d.isProgramPure)
  }

  // ---------------------------------------------------------------- upload and reading back

  /** What the contract stores of a job. */
  function Stored(d: JobData, data: Bytes, who: Address, nonce: uint128): Job {
    Job(d.arguments, d.timeout, d.maxWorkerPrice, d.maxNetworkUsage, d.maxNetworkPrice, d.minCheckingInterval,
        d.managementPrice, d.redundancy, d.maxFailures, data, who, nonce, true)
  }

  function PushCalls(id: Id, arguments: seq<Bytes>): seq<Call> {
    seq(|arguments|, i requires 0 <= i < |arguments| => PushArgument(id, arguments[i]))
  }

  function UploadCalls(id: Id, d: JobData, data: Bytes): seq<Call> {
    [Call.SetParameters(id, d.timeout, d.redundancy, d.maxFailures), Call.SetOtherData(id, data)]
    + PushCalls(id, d.arguments)
    + [Call.SetWorkerParameters(id, d.maxWorkerPrice, d.maxNetworkUsage, d.maxNetworkPrice),
       Call.SetManagementParameters(id, d.minCheckingInterval, d.managementPrice)]
  }

  datatype Called = Called(ledger: Ledger, ok: bool)

  function CallOne(h: Hashes, l: Ledger, who: Address, call: Call): Called {
    match Exec(h, l, Transaction(who, call))
    case None => Called(l, false)
    case Some(next) => Called(next, true)
  }

  /** Calls until one reverts; those before it stay done. */
  function CallAll(h: Hashes, l: Ledger, who: Address, calls: seq<Call>): Called {
    if calls == [] then Called(l, true)
    else
      var r := CallAll(h, l, who, calls[..|calls| - 1]);
      if r.ok then CallOne(h, r.ledger, who, calls[|calls| - 1]) else r
  }

  function NextNonce(h: Hashes, l: Ledger, who: Address): Option<uint128> {
    FreeNonce(h, l.jobs, who, UserAt(l.users, who).nextNonce, TWO128)
  }

  datatype Uploaded = Uploaded(ledger: Ledger, nonce: Option<uint128>)

  /** `jobs_create_draft`, the nonce being the one the contract announces. */
  function Upload(h: Hashes, l: Ledger, who: Address, d: JobData, codec: Codec): Uploaded {
    var nonce := NextNonce(h, l, who);
    if nonce.None? then Uploaded(l, None)
    else
      var created := CallOne(h, l, who, Call.CreateDraft).ledger;
      var r := CallAll(h, created, who, UploadCalls(JobId(h, who, nonce.value), d, codec.encode(Other(d))));
      Uploaded(r.ledger, if r.ok then nonce else None)
  }

  /** `jobs_get_job`; its setters clamp what they are given. */
  function ReadBack(codec: Codec, l: Ledger, id: Id): Option<JobData> {
    if id !in l.jobs then None
    else
      var j := l.jobs[id];
      match codec.decode(j.otherData)
      case None => None
      case Some(o) =>
        if !codec.isHash(o.hash) then None
        else
          Some(JobData(Wasm0m1n0, o.addresses, o.hash, j.arguments,
                       AtLeast(MIN_TIMEOUT, j.timeout), AtLeast(MIN_WORKER_PRICE, j.maxWorkerPrice), j.maxNetworkUsage,
                       AtLeast(MIN_NETWORK_PRICE, j.maxNetworkPrice),
                       AtLeast(MIN_CHECKING_INTERVAL, j.minCheckingInterval), AtLeast(MIN_MAN_PRICE, j.managementPrice),
                       AtLeast(MIN_REDUNDANCY, j.redundancy), j.maxFailures, BestOf(o.best),
                       AtLeast(MIN_CPU_COUNT, o.minCpuCount), o.minMemory, o.minNetworkSpeed, o.isProgramPure,
                       j.sender, Some(j.nonce)))
  }

  /** `jobs_lock`: its own checks, on the low 128 bits of the balance, then the contract's. */
  function LockDraft(h: Hashes, l: Ledger, who: Address, codec: Codec, id: Id): Called {
    match ReadBack(codec, l, id)
    case None => Called(l, false)
    case Some(d) =>
      if LockChecks(d, who, UserAt(l.users, who).pending) then CallOne(h, l, who, Call.Lock(id)) else Called(l, false)
  }

  predicate LockChecks(d: JobData, who: Address, pending: uint256) {
    d.sender == who && IsReady(d) && U128(pending) >= CalcMaxPrice(d)
  }

  // ---------------------------------------------------------------- in memory

  class ClientJob {
    var programKind: ProgramKind
    const programAddresses: seq<string>
    const programHash: Bytes
    const arguments: seq<Bytes>
    var timeout: uint64
    var maxWorkerPrice: uint64
    var maxNetworkUsage: uint64
    var maxNetworkPrice: uint64
    var minCheckingInterval: uint64
    var managementPrice: uint64
    var redundancy: uint64
    var maxFailures: uint64
    var bestMethod: BestMethod
    var minCpuCount: uint64
    var minMemory: uint64
    var minNetworkSpeed: uint64
    var isProgramPure: bool
    const sender: Address
    var nonce: Option<uint128>

    function Data(): JobData
      reads this
    {
      JobData(programKind, programAddresses, programHash, arguments, timeout, maxWorkerPrice, maxNetworkUsage,
              maxNetworkPrice, minCheckingInterval, managementPrice, redundancy, maxFailures, bestMethod, minCpuCount,
              minMemory, minNetworkSpeed, isProgramPure, sender, nonce)
    }

    constructor (kind: ProgramKind, addresses: seq<string>, hash: Bytes, arguments: seq<Bytes>, sender: Address)
      ensures Data() == NewJob(kind, addresses, hash, arguments, sender) && Built(Data())
    {
      programKind, programAddresses, programHash, this.arguments := kind, addresses, hash, arguments;
      timeout, maxWorkerPrice, maxNetworkUsage, maxNetworkPrice := MIN_TIMEOUT, MIN_WORKER_PRICE, 0, MIN_NETWORK_PRICE;
      minCheckingInterval, managementPrice := MIN_CHECKING_INTERVAL, MIN_MAN_PRICE;
      redundancy, maxFailures, bestMethod, minCpuCount := MIN_REDUNDANCY, 0, Cost, MIN_CPU_COUNT;
      minMemory, minNetworkSpeed, isProgramPure, this.sender, nonce := 0, 0, false, sender, None;
    }

    method SetProgramKind(n: ProgramKind)
      modifies this`programKind
      ensures Data() == old(Data()).(programKind := n) && (old(Built(Data())) ==> Built(Data()))
    {
      programKind := n;
    }

    method SetTimeout(n: uint64)
      modifies this`timeout
      ensures Data() == old(Data()).(timeout := AtLeast(MIN_TIMEOUT, n)) && (old(Built(Data())) ==> Built(Data()))
    {
      timeout := if n > MIN_TIMEOUT then n else MIN_TIMEOUT;
    }

    method SetMaxWorkerPrice(n: uint64)
      modifies this`maxWorkerPrice
      ensures Data() == old(Data()).(maxWorkerPrice := AtLeast(MIN_WORKER_PRICE, n)) && (old(Built(Data())) ==> Built(Data()))
    {
      maxWorkerPrice := if n > MIN_WORKER_PRICE then n else MIN_WORKER_PRICE;
    }

    method SetMaxNetworkUsage(n: uint64)
      modifies this`maxNetworkUsage
      ensures Data() == old(Data()).(maxNetworkUsage := n) && (old(Built(Data())) ==> Built(Data()))
    {
      maxNetworkUsage := n;
    }

    method SetMaxNetworkPrice(n: uint64)
      modifies this`maxNetworkPrice
      ensures Data() == old(Data()).(maxNetworkPrice := AtLeast(MIN_NETWORK_PRICE, n)) && (old(Built(Data())) ==> Built(Data()))
    {
      maxNetworkPrice := if n > MIN_NETWORK_PRICE then n else MIN_NETWORK_PRICE;
    }

    method SetMinCheckingInterval(n: uint64)
      modifies this`minCheckingInterval
      ensures Data() == old(Data()).(minCheckingInterval := AtLeast(MIN_CHECKING_INTERVAL, n)) && (old(Built(Data())) ==> Built(Data()))
    {
      minCheckingInterval := if n > MIN_CHECKING_INTERVAL then n else MIN_CHECKING_INTERVAL;
    }

    method SetManagementPrice(n: uint64)
      modifies this`managementPrice
      ensures Data() == old(Data()).(managementPrice := AtLeast(MIN_MAN_PRICE, n)) && (old(Built(Data())) ==> Built(Data()))
    {
      managementPrice := if n > MIN_MAN_PRICE then n else MIN_MAN_PRICE;
    }

    method SetRedundancy(n: uint64)
      modifies this`redundancy
      ensures Data() == old(Data()).(redundancy := AtLeast(MIN_REDUNDANCY, n)) && (old(Built(Data())) ==> Built(Data()))
    {
      redundancy := if n > MIN_REDUNDANCY then n else MIN_REDUNDANCY;
    }

    method SetMaxFailures(n: uint64)
      modifies this`maxFailures
      ensures Data() == old(Data()).(maxFailures := n) && (old(Built(Data())) ==> Built(Data()))
    {
      maxFailures := n;
    }

    method SetBestMethod(n: BestMethod)
      modifies this`bestMethod
      ensures Data() == old(Data()).(bestMethod := n) && (old(Built(Data())) ==> Built(Data()))
    {
      bestMethod := n;
    }

    method SetMinCpuCount(n: uint64)
      modifies this`minCpuCount
      ensures Data() == old(Data()).(minCpuCount := AtLeast(MIN_CPU_COUNT, n)) && (old(Built(Data())) ==> Built(Data()))
    {
      minCpuCount := if n > MIN_CPU_COUNT then n else MIN_CPU_COUNT;
    }

    method SetMinMemory(n: uint64)
      modifies this`minMemory
      ensures Data() == old(Data()).(minMemory := n) && (old(Built(Data())) ==> Built(Data()))
    {
      minMemory := n;
    }

    method SetMinNetworkSpeed(n: uint64)
      modifies this`minNetworkSpeed
      ensures Data() == old(Data()).(minNetworkSpeed := n) && (old(Built(Data())) ==> Built(Data()))
    {
      minNetworkSpeed := n;
    }

    method SetIsProgramPure(n: bool)
      modifies this`isProgramPure
      ensures Data() == old(Data()).(isProgramPure := n) && (old(Built(Data())) ==> Built(Data()))
    {
      isProgramPure := n;
    }

    method SetNonce(n: Option<uint128>)
      modifies this`nonce
      ensures Data() == old(Data()).(nonce := n) && (old(Built(Data())) ==> Built(Data()))
    {
      nonce := n;
    }
  }

  /** Uploads a draft call by call, and returns its nonce when every call went through. */
  method CreateDraft(chain: JobsContract.Jobs, who: Address, d: JobData, codec: Codec) returns (nonce: Option<uint128>)
    modifies chain
    ensures var u := Upload(chain.h, old(chain.State()), who, d, codec);
            chain.State() == u.ledger && nonce == u.nonce
  {
    hide FreeNonce;
    hide LockTasks;
    hide DraftReady;
    var created := chain.CreateDraft(who);
    if !created { return None; }
    nonce := Some(chain.log[|chain.log| - 1].nonce);
    var id := JobId(chain.h, who, nonce.value);
    var ok := UploadFields(chain, who, id, d, codec.encode(Other(d)));
    if !ok { nonce := None; }
  }

  method UploadFields(chain: JobsContract.Jobs, who: Address, id: Id, d: JobData, data: Bytes) returns (ok: bool)
    modifies chain
    ensures var r := CallAll(chain.h, old(chain.State()), who, UploadCalls(id, d, data));
            chain.State() == r.ledger && ok == r.ok
  {
    hide Exec;
    ghost var h, l := chain.h, chain.State();
    ghost var pushes := PushCalls(id, d.arguments);
    UploadShape(h, l, who, id, d, data);
    ok := chain.SetParameters(who, id, d.timeout, d.redundancy, d.maxFailures);
    if !ok { return; }
    ok := chain.SetOtherData(who, id, data);
    if !ok { return; }
    ghost var l2 := chain.State();
    var i := 0;
    while i < |d.arguments|
      invariant 0 <= i <= |d.arguments|
      invariant CallAll(h, l2, who, pushes[..i]) == Called(chain.State(), true)
    {
      assert pushes[..i + 1][..i] == pushes[..i];
      ok := chain.PushArgument(who, id, d.arguments[i]);
      if !ok {
        CallAllStops(h, l2, who, pushes, i + 1);
        return;
      }
      i := i + 1;
    }
    assert pushes[..i] == pushes;
    ok := chain.SetWorkerParameters(who, id, d.maxWorkerPrice, d.maxNetworkUsage, d.maxNetworkPrice);
    if !ok { return; }
    ok := chain.SetManagementParameters(who, id, d.minCheckingInterval, d.managementPrice);
  }

  /** The five kinds of calls of an upload, one after the other. */
  lemma UploadShape(h: Hashes, l: Ledger, who: Address, id: Id, d: JobData, data: Bytes)
    ensures CallAll(h, l, who, UploadCalls(id, d, data)) ==
            var a := CallOne(h, l, who, Call.SetParameters(id, d.timeout, d.redundancy, d.maxFailures));
            if !a.ok then a else
            var b := CallOne(h, a.ledger, who, Call.SetOtherData(id, data));
            if !b.ok then b else
            var c := CallAll(h, b.ledger, who, PushCalls(id, d.arguments));
            if !c.ok then c else
            var e := CallOne(h, c.ledger, who, Call.SetWorkerParameters(id, d.maxWorkerPrice, d.maxNetworkUsage, d.maxNetworkPrice));
            if !e.ok then e else
            CallOne(h, e.ledger, who, Call.SetManagementParameters(id, d.minCheckingInterval, d.managementPrice))
  {
    hide CallOne;
    var first := Call.SetParameters(id, d.timeout, d.redundancy, d.maxFailures);
    var second := Call.SetOtherData(id, data);
    var third := Call.SetWorkerParameters(id, d.maxWorkerPrice, d.maxNetworkUsage, d.maxNetworkPrice);
    var fourth := Call.SetManagementParameters(id, d.minCheckingInterval, d.managementPrice);
    var pushes := PushCalls(id, d.arguments);
    var start := [first, second];
    CallTwo(h, l, who, first, second);
    CallAllAppend(h, l, who, start, pushes);
    CallAllAppend(h, l, who, start + pushes, [third, fourth]);
    var c := CallAll(h, l, who, start + pushes);
    CallTwo(h, c.ledger, who, third, fourth);
  }

  lemma CallTwo(h: Hashes, l: Ledger, who: Address, a: Call, b: Call)
    ensures CallAll(h, l, who, [a, b])
            == var r := CallOne(h, l, who, a); if r.ok then CallOne(h, r.ledger, who, b) else r
  {
    hide CallOne;
    assert [a, b][..1] == [a] && [a][..0] == [];
    assert CallAll(h, l, who, [a]) == CallOne(h, l, who, a);
  }

  lemma {:induction false} CallAllAppend(h: Hashes, l: Ledger, who: Address, a: seq<Call>, b: seq<Call>)
    ensures CallAll(h, l, who, a + b)
            == var r := CallAll(h, l, who, a); if r.ok then CallAll(h, r.ledger, who, b) else r
  {
    hide CallOne;
    if b == [] {
      assert a + b == a;
    } else {
      CallAllAppend(h, l, who, a, b[..|b| - 1]);
      assert (a + b)[..|a + b| - 1] == a + b[..|b| - 1];
    }
  }

  lemma CallAllStops(h: Hashes, l: Ledger, who: Address, calls: seq<Call>, n: nat)
    requires n <= |calls| && !CallAll(h, l, who, calls[..n]).ok
    ensures CallAll(h, l, who, calls) == CallAll(h, l, who, calls[..n])
  {
    assert calls == calls[..n] + calls[n..];
    CallAllAppend(h, l, who, calls[..n], calls[n..]);
  }

  method GetJob(chain: JobsContract.Jobs, codec: Codec, id: Id) returns (r: Option<JobData>)
    ensures r == ReadBack(codec, chain.State(), id)
  {
    if id !in chain.jobs { return None; }
    var j := chain.jobs[id];
    var other := codec.decode(j.otherData);
    if other.None? { return None; }
    var o := other.value;
    if !codec.isHash(o.hash) { return None; }
    var job := new ClientJob(Wasm0m1n0, o.addresses, o.hash, j.arguments, j.sender);
    job.SetTimeout(j.timeout);
    job.SetMaxWorkerPrice(j.maxWorkerPrice);
    job.SetMaxNetworkUsage(j.maxNetworkUsage);
    job.SetMaxNetworkPrice(j.maxNetworkPrice);
    job.SetMinCheckingInterval(j.minCheckingInterval);
    job.SetManagementPrice(j.managementPrice);
    job.SetRedundancy(j.redundancy);
    job.SetMaxFailures(j.maxFailures);
    job.SetBestMethod(BestOf(o.best));
    job.SetMinCpuCount(o.minCpuCount);
    job.SetMinMemory(o.minMemory);
    job.SetMinNetworkSpeed(o.minNetworkSpeed);
    job.SetIsProgramPure(o.isProgramPure);
    job.SetNonce(Some(j.nonce));
    r := Some(job.Data());
  }

  method LockJob(chain: JobsContract.Jobs, who: Address, codec: Codec, id: Id) returns (ok: bool)
    modifies chain
    ensures var r := LockDraft(chain.h, old(chain.State()), who, codec, id);
            chain.State() == r.ledger && ok == r.ok
  {
    hide Exec;
    hide ReadBack;
    hide LockChecks;
    var job := GetJob(chain, codec, id);
    if job.None? || !LockChecks(job.value, who, UserAt(chain.users, who).pending) { return false; }
    ok := chain.Lock(who, id);
  }
}
