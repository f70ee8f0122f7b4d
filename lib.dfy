/**
 * ezo/core/lib.py: contract records, deployment records, address
 * resolution, the batch `start` of listeners and the sorted listings,
 * over the in-memory store of module Store.
 */
module Lib {
  import opened Wrappers
  import opened Utils
  import opened Store

  /** A compiled contract as a `Contract` object carries it. */
  datatype Contract = Contract(
    name: string,
    abi: Value,
    bin: string,
    source: string,
    hash: string,
    timestamp: int)

  // ---------------------------------------------------------------------
  // Contract.save

  /** The document `Contract.save` builds: the hash is recomputed from the source. */
  function ContractDocOf(c: Contract, hasher: Hasher): ContractDoc
  {
    ContractDoc(c.name, c.abi, c.bin, c.source, GetHash(hasher, c.source), c.timestamp)
  }

  /**
   * `Contract.save`: inserts exactly one `contracts` document, with no check
   * for an earlier document of the same source; answers the insert's id.
   */
  method Save(c: Contract, ezo: Ezo, hasher: Hasher) returns (r: Result<nat, StoreError>)
    modifies ezo.db
    ensures ezo.db.online == old(ezo.db.online)
    ensures ezo.db.deployments == old(ezo.db.deployments)
    ensures old(ezo.db.online) ==>
      ezo.db.contracts == old(ezo.db.contracts) + [ContractDocOf(c, hasher)] &&
      r == Ok(|old(ezo.db.contracts)|)
    ensures !old(ezo.db.online) ==> ezo.db.contracts == old(ezo.db.contracts) && r == Err(Unreachable)
  {
    var doc := ContractDocOf(c, hasher);
    r := ezo.db.InsertContract(doc);
  }

  // ---------------------------------------------------------------------
  // Contract.create_from_hash

  /**
   * What `create_from_hash` does: a contract rebuilt from the first matching
   * document, the error of a query that raised, or (when no document matches)
   * the TypeError of indexing None, which escapes to the caller.
   */
  datatype Loaded = Loaded(contract: Contract) | LoadFailed(error: StoreError) | NotRegistered

  function CreateFromHash(contracts: seq<ContractDoc>, online: bool, hash: string): (r: Loaded)
    ensures r.LoadFailed? <==> !online
  {
    if !online then LoadFailed(Unreachable)
    else match FindContract(contracts, hash)
      case None => NotRegistered
      case Some(cp) => Loaded(Contract(cp.name, cp.abi, cp.bin, cp.source, cp.hash, cp.timestamp))
  }

  /**
   * `create_from_hash` crashes exactly when no document has the hash;
   * otherwise it rebuilds, field by field, the first document with that hash.
   */
  lemma CreateFromHashFinds(contracts: seq<ContractDoc>, online: bool, hash: string)
    ensures var r := CreateFromHash(contracts, online, hash);
      && (r.NotRegistered? <==> online && forall i :: 0 <= i < |contracts| ==> contracts[i].hash != hash)
      && (r.Loaded? ==> r.contract.hash == hash)
      && (r.Loaded? ==>
            exists i :: (0 <= i < |contracts| && contracts[i].hash == hash &&
              (forall j :: 0 <= j < i ==> contracts[j].hash != hash) &&
              r.contract == Contract(contracts[i].name, contracts[i].abi, contracts[i].bin,
                                     contracts[i].source, contracts[i].hash, contracts[i].timestamp)))
  {
  }

  /**
   * Saving then loading by the source's digest gives back the saved contract
   * (with its hash set to that digest) unless an earlier document already has
   * that digest, in which case the earlier document still wins.
   */
  lemma CreateAfterSave(contracts: seq<ContractDoc>, c: Contract, hasher: Hasher)
    ensures var d := ContractDocOf(c, hasher);
      CreateFromHash(contracts + [d], true, d.hash) ==
        if FindContract(contracts, d.hash).Some? then CreateFromHash(contracts, true, d.hash)
        else Loaded(c.(hash := d.hash))
  {
    var d := ContractDocOf(c, hasher);
    FindFirstAppend(contracts, d, HashIs(d.hash));
  }

  /**
   * Saving one source twice stores two documents with the same hash (no
   * de-duplication), and loading by that hash yields the first of them.
   */
  lemma SaveTwiceKeepsBoth(contracts: seq<ContractDoc>, c1: Contract, c2: Contract, hasher: Hasher)
    requires c1.source == c2.source
    requires FindContract(contracts, GetHash(hasher, c1.source)).None?
    ensures var stored := contracts + [ContractDocOf(c1, hasher)] + [ContractDocOf(c2, hasher)];
      && |stored| == |contracts| + 2
      && stored[|contracts|].hash == stored[|contracts| + 1].hash
      && CreateFromHash(stored, true, GetHash(hasher, c1.source)) == Loaded(c1.(hash := GetHash(hasher, c1.source)))
  {
    var d1, d2 := ContractDocOf(c1, hasher), ContractDocOf(c2, hasher);
    CreateAfterSave(contracts, c1, hasher);
    FindFirstAppend(contracts, d1, HashIs(d1.hash));
    CreateAfterSave(contracts + [d1], c2, hasher);
  }

  // ---------------------------------------------------------------------
  // Contract.deploy (the record-writing tail) and Contract.get_address

  /** The chain's answer to a deployment: the mined transaction, or the exception raised. */
  datatype ChainReply = Mined(txHash: string, address: Option<string>) | ChainFailed(reason: string)

  datatype DeployError = ChainError(reason: string) | StoreFailure(cause: StoreError)

  /**
   * `Contract.deploy` after the chain has answered: on success, exactly one
   * `deployments` document for the current target, and the address returned.
   * The account lookup happens first and raises on a missing key.
   */
  method Deploy(c: Contract, ezo: Ezo, chain: ChainReply, now: int) returns (r: Result<Option<string>, DeployError>)
    requires Lookup(ezo.config, ["stage", ezo.target, "account"]).Some?
    modifies ezo.db
    ensures ezo.db.online == old(ezo.db.online)
    ensures ezo.db.contracts == old(ezo.db.contracts)
    ensures chain.ChainFailed? ==>
      ezo.db.deployments == old(ezo.db.deployments) && r == Err(ChainError(chain.reason))
    ensures chain.Mined? && old(ezo.db.online) ==>
      ezo.db.deployments == old(ezo.db.deployments) +
        [DeploymentDoc(c.name, c.hash, chain.txHash, chain.address, ezo.target, now)] &&
      r == Ok(chain.address)
    ensures chain.Mined? && !old(ezo.db.online) ==>
      ezo.db.deployments == old(ezo.db.deployments) && r == Err(StoreFailure(Unreachable))
  {
    var account := GetAccount(ezo.config, ezo.target);
    match chain
    case ChainFailed(reason) =>
      return Err(ChainError(reason));
    case Mined(txHash, address) =>
      var d := DeploymentDoc(c.name, c.hash, txHash, address, ezo.target, now);
      var inserted := ezo.db.InsertDeployment(d);
      if inserted.Err? {
        return Err(StoreFailure(inserted.error));
      }
      return Ok(address);
  }

  /**
   * What `get_address` answers: the `address` field of the first document
   * for (hash, target), or the raised query error (returned as a pair), or,
   * with no matching document, the TypeError of `"address" in None`.
   */
  datatype AddressReply = Stored(address: Option<string>) | QueryFailed(error: StoreError) | NoDeployment

  function GetAddress(deployments: seq<DeploymentDoc>, online: bool, hash: string, target: string): (r: AddressReply)
    ensures r.QueryFailed? <==> !online
  {
    if !online then QueryFailed(Unreachable)
    else match FindDeployment(deployments, hash, target)
      case None => NoDeployment
      case Some(d) => Stored(d.address)
  }

  /**
   * `get_address` answers the `address` field of the first record matching
   * both the hash and the target, and crashes exactly when no record matches.
   */
  lemma GetAddressFinds(deployments: seq<DeploymentDoc>, online: bool, hash: string, target: string)
    ensures var r := GetAddress(deployments, online, hash, target);
      && (r.NoDeployment? <==>
            (online && forall i :: 0 <= i < |deployments| ==>
               !(deployments[i].hash == hash && deployments[i].target == target)))
      && (r.Stored? ==>
            exists i :: (0 <= i < |deployments| &&
              deployments[i].hash == hash && deployments[i].target == target &&
              deployments[i].address == r.address &&
              forall j :: 0 <= j < i ==> !(deployments[j].hash == hash && deployments[j].target == target)))
  {
  }

  /**
   * A new deployment record is what `get_address` reports only when no
   * earlier record has the same hash and target: the first deployment wins,
   * not the latest one.
   */
  lemma AddressAfterDeploy(deployments: seq<DeploymentDoc>, d: DeploymentDoc)
    ensures GetAddress(deployments + [d], true, d.hash, d.target) ==
      if FindDeployment(deployments, d.hash, d.target).Some? then GetAddress(deployments, true, d.hash, d.target)
      else Stored(d.address)
  {
    FindFirstAppend(deployments, d, DeployedAs(d.hash, d.target));
  }

  /** Two deployments of one contract to one target: the older address is the one resolved. */
  lemma FirstDeploymentWins(hash: string, target: string, a1: string, a2: string)
    ensures var older := DeploymentDoc("C", hash, "0x01", Some(a1), target, 1);
      var newer := DeploymentDoc("C", hash, "0x02", Some(a2), target, 2);
      GetAddress([older, newer], true, hash, target) == Stored(Some(a1))
  {
    var older := DeploymentDoc("C", hash, "0x01", Some(a1), target, 1);
    var newer := DeploymentDoc("C", hash, "0x02", Some(a2), target, 2);
    AddressAfterDeploy([older], newer);
    AddressAfterDeploy([], older);
    assert [older] + [newer] == [older, newer];
    assert [] + [older] == [older];
  }

  // ---------------------------------------------------------------------
  // DB.pkey

  /** `DB.pkey`: storage type and key joined by a double underscore. */
  function PKey(storageType: string, key: string): string
  {
    storageType + "__" + key
  }

  /** Position of the first "__" in `s`. */
  function FindSeparator(s: string): (r: Option<nat>)
    ensures r.Some? ==> r.value + 1 < |s| && s[r.value] == '_' && s[r.value + 1] == '_'
    ensures r.Some? ==> forall i :: 0 <= i < r.value ==> !(s[i] == '_' && s[i + 1] == '_')
    ensures r.None? ==> forall i :: 0 <= i < |s| - 1 ==> !(s[i] == '_' && s[i + 1] == '_')
    decreases |s|
  {
    if |s| < 2 then None
    else if s[0] == '_' && s[1] == '_' then Some(0)
    else match FindSeparator(s[1..])
      case None => None
      case Some(i) => Some(i + 1)
  }

  /** The inverse of `PKey`: split at the first "__". */
  function SplitPKey(s: string): Option<(string, string)>
  {
    match FindSeparator(s)
    case None => None
    case Some(i) => Some((s[..i], s[i + 2..]))
  }

  /** A storage type the first "__" of a joined key cannot fall inside: none in it, no trailing '_'. */
  predicate Separable(storageType: string)
  {
    (forall i :: 0 <= i < |storageType| - 1 ==> !(storageType[i] == '_' && storageType[i + 1] == '_'))
    && (|storageType| > 0 ==> storageType[|storageType| - 1] != '_')
  }

  /**
   * The storage type and the key are recovered from the joined key exactly
   * when the storage type is separable, whatever the key.
   */
  lemma PKeyRoundTrip(storageType: string, key: string)
    ensures SplitPKey(PKey(storageType, key)) == Some((storageType, key)) <==> Separable(storageType)
  {
    var s := PKey(storageType, key);
    var n := |storageType|;
    assert s[n] == '_' && s[n + 1] == '_';
    assert forall i :: 0 <= i < n ==> s[i] == storageType[i];
    if Separable(storageType) {
      forall i | 0 <= i < n ensures !(s[i] == '_' && s[i + 1] == '_') {
        if i == n - 1 {
          assert s[i] == storageType[n - 1];
        } else {
          assert s[i] == storageType[i] && s[i + 1] == storageType[i + 1];
        }
      }
      var r := FindSeparator(s);
      assert r.Some? && r.value == n;
      assert s[..n] == storageType;
      assert s[n + 2..] == key;
    } else {
      // A "__" starts before position n, so the split comes too early.
      var j: int;
      if n > 0 && storageType[n - 1] == '_' {
        j := n - 1;
      } else {
        j :| 0 <= j < n - 1 && storageType[j] == '_' && storageType[j + 1] == '_';
      }
      assert s[j] == '_' && s[j + 1] == '_';
      var r := FindSeparator(s);
      assert r.Some? && r.value <= j;
      assert |s[..r.value]| != n;
    }
  }

  /** Without separability of the storage type, two different pairs share one key. */
  lemma PKeyCollides()
    ensures exists t1, k1, t2, k2 :: (t1, k1) != (t2, k2) && PKey(t1, k1) == PKey(t2, k2)
  {
    assert PKey("a_", "_b") == PKey("a", "__b");
  }

  // ---------------------------------------------------------------------
  // EZO.start and EZO.view_*

  /** The argument of `start`: one hash, a list of hashes, or anything else. */
  datatype HashesArg = OneHash(hash: string) | HashList(hashes: seq<string>) | NotHashes

  /** A started listener process: `listen` for a contract, bound to its resolved address. */
  datatype Job = Job(hash: string, address: string)

  /** The errors `start` returns as `(None, err)`. */
  datatype StartError = BadArgument | StoreFailed(cause: StoreError) | NoAddress(hash: string, target: string)

  /** The exceptions that escape `start` (indexing the None of an empty `find_one`). */
  datatype Fault = UnknownHash(hash: string) | NoDeploymentFor(hash: string)

  /** How a batch stops early: returning an error, or raising. */
  datatype Stop = Returned(error: StartError) | Raised(fault: Fault)

  /** How `start` ends: joining every started job, or stopping early. */
  datatype Ending = Joined | Stopped(stop: Stop)

  /** The jobs started by one call of `start`, and how the call ended. Started jobs are never stopped. */
  datatype StartOutcome = StartOutcome(started: seq<Job>, ending: Ending)

  /** The text `start` returns for its two string errors. */
  function Message(e: StartError): string
    requires !e.StoreFailed?
  {
    match e
    case BadArgument => "error: expecting a string, or a list of contract hashes"
    case NoAddress(hash, target) => "error: no deployment address for " + hash + " on target stage " + target
  }

  /** On one target the missing-address text names the hash: different hashes read differently. */
  lemma NoAddressNamesHash(h1: string, h2: string, target: string)
    ensures Message(NoAddress(h1, target)) == Message(NoAddress(h2, target)) ==> h1 == h2
  {
    var prefix := "error: no deployment address for ";
    var m1 := prefix + h1 + " on target stage " + target;
    var m2 := prefix + h2 + " on target stage " + target;
    if m1 == m2 {
      assert |h1| == |h2|;
      forall k | 0 <= k < |h1| ensures h1[k] == h2[k] {
        assert m1[|prefix| + k] == h1[k];
        assert m2[|prefix| + k] == h2[k];
      }
    }
  }

  /** `if not address`: None and "" are false. */
  predicate Truthy(address: Option<string>)
  {
    address.Some? && address.value != ""
  }

  /** Resolving one hash: start a job at this address, or stop the batch this way. */
  datatype Step = Spawn(address: string) | Halt(stop: Stop)

  /** `isinstance` tests of `start`: a string becomes a one-element list, other non-lists are refused. */
  function Normalise(arg: HashesArg): Option<seq<string>>
  {
    match arg
    case OneHash(h) => Some([h])
    case HashList(hs) => Some(hs)
    case NotHashes => None
  }

  /** One iteration of the loop in `start`: `create_from_hash`, then `get_address`. */
  function Resolve(contracts: seq<ContractDoc>, deployments: seq<DeploymentDoc>, online: bool,
                   target: string, hash: string): Step
  {
    match CreateFromHash(contracts, online, hash)
    case LoadFailed(e) => Halt(Returned(StoreFailed(e)))
    case NotRegistered => Halt(Raised(UnknownHash(hash)))
    case Loaded(_) =>
      var reply := GetAddress(deployments, online, hash, target);
      // Both queries see the same `online`, so this one cannot raise.
      assert !reply.QueryFailed?;
      if reply.NoDeployment? then Halt(Raised(NoDeploymentFor(hash)))
      else if Truthy(reply.address) then Spawn(reply.address.value)
      else Halt(Returned(NoAddress(hash, target)))
  }

  /**
   * A hash yields a job exactly when its contract loads and its first
   * deployment on the target holds a truthy address, which the job is bound to.
   */
  lemma ResolveSpawnsExactly(contracts: seq<ContractDoc>, deployments: seq<DeploymentDoc>, online: bool,
                             target: string, hash: string)
    ensures var step := Resolve(contracts, deployments, online, target, hash);
      var reply := GetAddress(deployments, online, hash, target);
      && (step.Spawn? <==> CreateFromHash(contracts, online, hash).Loaded? && reply.Stored? && Truthy(reply.address))
      && (step.Spawn? ==> reply.Stored? && Some(step.address) == reply.address)
  {
  }

  /**
   * The loop of `start` over a list of hashes, as a recursive reference
   * definition, for any way `resolve` of resolving one hash.
   */
  function Schedule(hashes: seq<string>, resolve: string -> Step): StartOutcome
    decreases |hashes|
  {
    if hashes == [] then StartOutcome([], Joined)
    else match resolve(hashes[0])
      case Halt(stop) => StartOutcome([], Stopped(stop))
      case Spawn(address) =>
        var rest := Schedule(hashes[1..], resolve);
        StartOutcome([Job(hashes[0], address)] + rest.started, rest.ending)
  }

  /**
   * The hashes are resolved strictly in list order; every hash before the
   * first one that does not resolve has exactly one job, bound to its
   * resolved address; that hash and every later one has none; the batch
   * ends by joining exactly when every hash resolved, and otherwise the way
   * the failing hash's resolution stopped it.
   */
  lemma {:induction false} ScheduleStopsAtFirstFailure(hashes: seq<string>, resolve: string -> Step)
    ensures var o := Schedule(hashes, resolve);
      && |o.started| <= |hashes|
      && (forall i :: 0 <= i < |o.started| ==>
            resolve(hashes[i]).Spawn? && o.started[i] == Job(hashes[i], resolve(hashes[i]).address))
      && (o.ending.Joined? <==> |o.started| == |hashes|)
      && (|o.started| < |hashes| ==> resolve(hashes[|o.started|]) == Halt(o.ending.stop))
    decreases |hashes|
  {
    if hashes != [] && resolve(hashes[0]).Spawn? {
      var rest := Schedule(hashes[1..], resolve);
      ScheduleStopsAtFirstFailure(hashes[1..], resolve);
      var o := Schedule(hashes, resolve);
      forall i | 0 <= i < |o.started|
        ensures resolve(hashes[i]).Spawn? && o.started[i] == Job(hashes[i], resolve(hashes[i]).address)
      {
        if i > 0 {
          assert o.started[i] == rest.started[i - 1];
          assert hashes[1..][i - 1] == hashes[i];
        }
      }
      if |o.started| < |hashes| {
        assert hashes[1..][|rest.started|] == hashes[|o.started|];
      }
    }
  }

  /**
   * Scheduling a concatenation: the second list is reached only when the
   * first one resolved completely, and its jobs then follow the first's.
   */
  lemma {:induction false} ScheduleAppend(first: seq<string>, second: seq<string>, resolve: string -> Step)
    ensures var o1, o2 := Schedule(first, resolve), Schedule(second, resolve);
      Schedule(first + second, resolve) ==
        if o1.ending.Joined? then StartOutcome(o1.started + o2.started, o2.ending) else o1
    decreases |first|
  {
    if first == [] {
      assert first + second == second;
    } else {
      assert (first + second)[0] == first[0];
      assert (first + second)[1..] == first[1..] + second;
      ScheduleAppend(first[1..], second, resolve);
      match resolve(first[0])
      case Halt(_) =>
      case Spawn(address) =>
        var rest, o2 := Schedule(first[1..], resolve), Schedule(second, resolve);
        assert [Job(first[0], address)] + rest.started + o2.started ==
          [Job(first[0], address)] + (rest.started + o2.started);
    }
  }

  /**
   * A batch of a deployed hash followed by an unregistered one: the first
   * hash's job is started and stays, and the call raises on the second.
   */
  lemma UnregisteredAfterDeployed(c: ContractDoc, d: DeploymentDoc, other: string)
    requires d.hash == c.hash && Truthy(d.address) && other != c.hash
    ensures var resolve := (h: string) => Resolve([c], [d], true, d.target, h);
      Schedule([c.hash, other], resolve) ==
        StartOutcome([Job(c.hash, d.address.value)], Stopped(Raised(UnknownHash(other))))
  {
    var resolve := (h: string) => Resolve([c], [d], true, d.target, h);
    assert FindFirst([c], HashIs(c.hash)) == Some(0);
    assert FindFirst([d], DeployedAs(c.hash, d.target)) == Some(0);
    assert resolve(c.hash) == Spawn(d.address.value);
    assert resolve(other) == Halt(Raised(UnknownHash(other)));
    assert [c.hash, other][1..] == [other];
    assert [other][1..] == [];
  }

  /** The loop invariant of `Start` carried over one started job. */
  lemma ScheduleStep(hashes: seq<string>, resolve: string -> Step, i: nat, jobs: seq<Job>, job: Job)
    requires i < |hashes| && resolve(hashes[i]) == Spawn(job.address) && job.hash == hashes[i]
    requires Schedule(hashes, resolve) ==
      StartOutcome(jobs + Schedule(hashes[i..], resolve).started, Schedule(hashes[i..], resolve).ending)
    ensures Schedule(hashes, resolve) ==
      StartOutcome((jobs + [job]) + Schedule(hashes[i + 1..], resolve).started, Schedule(hashes[i + 1..], resolve).ending)
  {
    assert hashes[i..][0] == hashes[i] && hashes[i..][1..] == hashes[i + 1..];
    var rest := Schedule(hashes[i + 1..], resolve);
    assert Schedule(hashes[i..], resolve) == StartOutcome([job] + rest.started, rest.ending);
    assert jobs + ([job] + rest.started) == (jobs + [job]) + rest.started;
  }

  /** The loop invariant of `Start` at a hash that stops the batch. */
  lemma ScheduleHalt(hashes: seq<string>, resolve: string -> Step, i: nat, jobs: seq<Job>, stop: Stop)
    requires i < |hashes| && resolve(hashes[i]) == Halt(stop)
    requires Schedule(hashes, resolve) ==
      StartOutcome(jobs + Schedule(hashes[i..], resolve).started, Schedule(hashes[i..], resolve).ending)
    ensures Schedule(hashes, resolve) == StartOutcome(jobs, Stopped(stop))
  {
    assert hashes[i..][0] == hashes[i];
    assert jobs + [] == jobs;
  }

  /** The EZO object: its configuration, current target stage and database handle. */
  class Ezo {
    const config: Value
    const target: string
    const db: Db

    constructor (config: Value, target: string, db: Db)
      ensures this.config == config && this.target == target && this.db == db
    {
      this.config := config;
      this.target := target;
      this.db := db;
    }

    /** How `start` resolves one hash against the current store and target. */
    function Resolver(): string -> Step
      reads db
    {
      var contracts, deployments, online := db.contracts, db.deployments, db.online;
      (hash: string) => Resolve(contracts, deployments, online, target, hash)
    }

    /** `start` as a whole, from its argument. */
    function Launch(arg: HashesArg): StartOutcome
      reads db
    {
      match Normalise(arg)
      case None => StartOutcome([], Stopped(Returned(BadArgument)))
      case Some(hashes) => Schedule(hashes, Resolver())
    }

    /**
     * A single hash is scheduled as a one-element list; any other argument
     * that is not a list is refused before any lookup, with no job.
     */
    lemma LaunchNormalises(arg: HashesArg)
      ensures arg.OneHash? ==> Launch(arg) == Schedule([arg.hash], Resolver())
      ensures arg.HashList? ==> Launch(arg) == Schedule(arg.hashes, Resolver())
      ensures arg.NotHashes? ==> Launch(arg) == StartOutcome([], Stopped(Returned(BadArgument)))
    {
    }

    /**
     * The body of the loop in `start` for one hash: load the contract, stop
     * on its error, look up the deployment address, stop when it is falsy.
     * This is the executable form of the step `Resolve` defines, not a second
     * model of it: `Start` calls it so that its loop reasons about one hash
     * through this contract instead of unfolding the lookups.
     */
    method ResolveOne(hash: string) returns (step: Step)
      ensures step == Resolve(db.contracts, db.deployments, db.online, target, hash)
    {
      var loaded := CreateFromHash(db.contracts, db.online, hash);
      if loaded.LoadFailed? {
        return Halt(Returned(StoreFailed(loaded.error)));
      }
      if loaded.NotRegistered? {
        return Halt(Raised(UnknownHash(hash)));
      }
      var reply := GetAddress(db.deployments, db.online, hash, target);
      // Both queries see the same `online`, so this one cannot raise.
      assert !reply.QueryFailed?;
      if reply.NoDeployment? {
        return Halt(Raised(NoDeploymentFor(hash)));
      }
      if !Truthy(reply.address) {
        return Halt(Returned(NoAddress(hash, target)));
      }
      return Spawn(reply.address.value);
    }

    /**
     * `EZO.start`. The jobs list is local; the job for a hash is appended
     * (and its process started) before the next hash is looked at, and the
     * early returns leave earlier jobs running.
     */
    method Start(arg: HashesArg) returns (outcome: StartOutcome)
      ensures outcome == Launch(arg)
    {
      var hashes: seq<string>;
      match arg {
        case OneHash(h) => hashes := [h];
        case HashList(hs) => hashes := hs;
        case NotHashes =>
          return StartOutcome([], Stopped(Returned(BadArgument)));
      }
      var resolve := Resolver();
      var jobs: seq<Job> := [];
      for i := 0 to |hashes|
        invariant Schedule(hashes, resolve) ==
          StartOutcome(jobs + Schedule(hashes[i..], resolve).started, Schedule(hashes[i..], resolve).ending)
      {
        var hash := hashes[i];
        var step := ResolveOne(hash);
        match step {
          case Halt(stop) =>
            ScheduleHalt(hashes, resolve, i, jobs, stop);
            return StartOutcome(jobs, Stopped(stop));
          case Spawn(address) =>
            var job := Job(hash, address);
            ScheduleStep(hashes, resolve, i, jobs, job);
            jobs := jobs + [job];
        }
      }
      assert hashes[|hashes|..] == [];
      return StartOutcome(jobs, Joined);
    }

    /** `view_contracts`: every contract document exactly once, newest first. */
    method ViewContracts() returns (r: Result<seq<ContractDoc>, StoreError>)
      ensures r.Err? <==> !db.online
      ensures r.Ok? ==> multiset(r.value) == multiset(db.contracts)
      ensures r.Ok? ==> NewestFirst(r.value, ContractStamp)
    {
      if !db.online {
        return Err(Unreachable);
      }
      var cursor := SortNewestFirst(db.contracts, ContractStamp);
      var contracts: seq<ContractDoc> := [];
      for i := 0 to |cursor|
        invariant contracts == cursor[..i]
      {
        contracts := contracts + [cursor[i]];
      }
      assert cursor[..|cursor|] == cursor;
      return Ok(contracts);
    }

    /** `view_deployments`: every deployment document exactly once, newest first. */
    method ViewDeployments() returns (r: Result<seq<DeploymentDoc>, StoreError>)
      ensures r.Err? <==> !db.online
      ensures r.Ok? ==> multiset(r.value) == multiset(db.deployments)
      ensures r.Ok? ==> NewestFirst(r.value, DeploymentStamp)
    {
      if !db.online {
        return Err(Unreachable);
      }
      var cursor := SortNewestFirst(db.deployments, DeploymentStamp);
      var deploys: seq<DeploymentDoc> := [];
      for i := 0 to |cursor|
        invariant deploys == cursor[..i]
      {
        deploys := deploys + [cursor[i]];
      }
      assert cursor[..|cursor|] == cursor;
      return Ok(deploys);
    }
  }
}
