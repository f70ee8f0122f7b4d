/**
 * The document store behind EZO: the `contracts` and `deployments`
 * collections, with the three operations the core uses — insert,
 * find_one (first match in insertion order) and a listing sorted on
 * `timestamp`, newest first.
 */
module Store {
  import opened Wrappers
  import Utils

  /** A `contracts` document as `Contract.save` writes it. */
  datatype ContractDoc = ContractDoc(
    name: string,
    abi: Utils.Value,
    bin: string,
    source: string,
    hash: string,
    timestamp: int)

  /**
   * A `deployments` document as `Contract.deploy` writes it. The address is
   * the receipt's contract address, which the chain may leave empty (None).
   */
  datatype DeploymentDoc = DeploymentDoc(
    contractName: string,
    hash: string,
    txHash: string,
    address: Option<string>,
    target: string,
    timestamp: int)

  /** The exception a query or an insert raises when the database cannot be reached. */
  datatype StoreError = Unreachable

  /** Index of the first document satisfying `p`, in insertion order. */
  function FindFirst<T>(docs: seq<T>, p: T -> bool): (r: Option<nat>)
    ensures r.Some? ==> r.value < |docs| && p(docs[r.value])
    ensures r.Some? ==> forall i :: 0 <= i < r.value ==> !p(docs[i])
    ensures r.None? ==> forall i :: 0 <= i < |docs| ==> !p(docs[i])
    decreases |docs|
  {
    if docs == [] then None
    else if p(docs[0]) then Some(0)
    else match FindFirst(docs[1..], p)
      case None => None
      case Some(i) => Some(i + 1)
  }

  /**
   * Appending a document never changes an existing first match; the new
   * document is found only when nothing before it matched.
   */
  lemma {:induction false} FindFirstAppend<T>(docs: seq<T>, x: T, p: T -> bool)
    ensures FindFirst(docs + [x], p) ==
      if FindFirst(docs, p).Some? then FindFirst(docs, p)
      else if p(x) then Some(|docs|)
      else None
    decreases |docs|
  {
    if docs == [] {
      assert [x][1..] == [];
    } else {
      assert (docs + [x])[0] == docs[0];
      assert (docs + [x])[1..] == docs[1..] + [x];
      FindFirstAppend(docs[1..], x, p);
    }
  }

  /** The query `{"hash": hash}`. */
  function HashIs(hash: string): ContractDoc -> bool
  {
    (d: ContractDoc) => d.hash == hash
  }

  /** The query `{"hash": hash, "target": target}`. */
  function DeployedAs(hash: string, target: string): DeploymentDoc -> bool
  {
    (d: DeploymentDoc) => d.hash == hash && d.target == target
  }

  /** `find_one({"hash": hash})` on the contracts collection. */
  function FindContract(docs: seq<ContractDoc>, hash: string): Option<ContractDoc>
  {
    match FindFirst(docs, HashIs(hash))
    case None => None
    case Some(i) => Some(docs[i])
  }

  /** `find_one({"hash": hash, "target": target})` on the deployments collection. */
  function FindDeployment(docs: seq<DeploymentDoc>, hash: string, target: string): Option<DeploymentDoc>
  {
    match FindFirst(docs, DeployedAs(hash, target))
    case None => None
    case Some(i) => Some(docs[i])
  }

  /** The sort key of each collection. */
  function ContractStamp(d: ContractDoc): int { d.timestamp }

  function DeploymentStamp(d: DeploymentDoc): int { d.timestamp }

  /** Non-increasing in `stamp`: the order of `sort('timestamp', DESCENDING)`. */
  ghost predicate NewestFirst<T>(s: seq<T>, stamp: T -> int)
  {
    forall i, j :: 0 <= i < j < |s| ==> stamp(s[i]) >= stamp(s[j])
  }

  /**
   * The cursor of `find({}).sort('timestamp', DESCENDING)`: every document
   * exactly once, newest first. Ties keep no promised order.
   */
  method SortNewestFirst<T>(docs: seq<T>, stamp: T -> int) returns (sorted: seq<T>)
    ensures multiset(sorted) == multiset(docs)
    ensures NewestFirst(sorted, stamp)
  {
    sorted := [];
    for n := 0 to |docs|
      invariant multiset(sorted) == multiset(docs[..n])
      invariant NewestFirst(sorted, stamp)
    {
      assert docs[..n + 1] == docs[..n] + [docs[n]];
      sorted := InsertByStamp(sorted, docs[n], stamp);
    }
    assert docs[..|docs|] == docs;
  }

  /** One step of the sort: `x` goes after every entry at least as new as it. */
  method InsertByStamp<T>(sorted: seq<T>, x: T, stamp: T -> int) returns (r: seq<T>)
    requires NewestFirst(sorted, stamp)
    ensures multiset(r) == multiset(sorted) + multiset{x}
    ensures NewestFirst(r, stamp)
  {
    var j := 0;
    while j < |sorted| && stamp(sorted[j]) >= stamp(x)
      invariant 0 <= j <= |sorted|
      invariant forall i :: 0 <= i < j ==> stamp(sorted[i]) >= stamp(x)
    {
      j := j + 1;
    }
    InsertKeepsNewestFirst(sorted, j, x, stamp);
    assert sorted == sorted[..j] + sorted[j..];
    r := sorted[..j] + [x] + sorted[j..];
  }

  /** Inserting `x` after every newer-or-equal entry and before the first older one keeps the order. */
  lemma InsertKeepsNewestFirst<T>(s: seq<T>, j: nat, x: T, stamp: T -> int)
    requires NewestFirst(s, stamp)
    requires j <= |s|
    requires forall i :: 0 <= i < j ==> stamp(s[i]) >= stamp(x)
    requires j < |s| ==> stamp(s[j]) < stamp(x)
    ensures NewestFirst(s[..j] + [x] + s[j..], stamp)
  {
    var t := s[..j] + [x] + s[j..];
    forall a, b | 0 <= a < b < |t| ensures stamp(t[a]) >= stamp(t[b]) {
      if b < j {
        assert t[a] == s[a] && t[b] == s[b];
      } else if b == j {
        assert t[a] == s[a] && t[b] == x;
      } else if a == j {
        assert t[a] == x && t[b] == s[b - 1] && stamp(s[j]) >= stamp(s[b - 1]);
      } else if a < j {
        assert t[a] == s[a] && t[b] == s[b - 1];
      } else {
        assert t[a] == s[a - 1] && t[b] == s[b - 1];
      }
    }
  }

  /**
   * The database handle: its two collections in insertion order, and whether
   * the server answers. When it does not, every query and insert raises.
   */
  class Db {
    var contracts: seq<ContractDoc>
    var deployments: seq<DeploymentDoc>
    var online: bool

    constructor (online: bool)
      ensures this.online == online
      ensures contracts == [] && deployments == []
    {
      this.online := online;
      contracts := [];
      deployments := [];
    }

    /** `contracts.insert(doc)`: appends, and answers the new document's position as its id. */
    method InsertContract(doc: ContractDoc) returns (r: Result<nat, StoreError>)
      modifies this
      ensures online == old(online) && deployments == old(deployments)
      ensures old(online) ==> contracts == old(contracts) + [doc] && r == Ok(|old(contracts)|)
      ensures !old(online) ==> contracts == old(contracts) && r == Err(Unreachable)
    {
      if !online {
        return Err(Unreachable);
      }
      r := Ok(|contracts|);
      contracts := contracts + [doc];
    }

    /** `deployments.insert(doc)`: appends, and answers the new document's position as its id. */
    method InsertDeployment(doc: DeploymentDoc) returns (r: Result<nat, StoreError>)
      modifies this
      ensures online == old(online) && contracts == old(contracts)
      ensures old(online) ==> deployments == old(deployments) + [doc] && r == Ok(|old(deployments)|)
      ensures !old(online) ==> deployments == old(deployments) && r == Err(Unreachable)
    {
      if !online {
        return Err(Unreachable);
      }
      r := Ok(|deployments|);
      deployments := deployments + [doc];
    }
  }
}
