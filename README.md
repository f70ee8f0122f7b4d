# ezo core, modelled in Dafny

ezo ("easy oracle") keeps compiled smart-contract artifacts and their
deployments in two document collections, `contracts` and `deployments`.
It then starts one event listener per deployed contract. This project models
the sequential core of that:

- the records `Contract.save` and `Contract.deploy` write;
- how `Contract.create_from_hash` and `Contract.get_address` read them back;
- the batch `EZO.start`, which resolves a list of contract hashes in order
  and starts one listener job per hash until the first one that fails;
- the `view_contracts` / `view_deployments` listings, newest first;
- `DB.pkey`, and the configuration and path helpers of `ezo/utils.py`.

Files:

- `wrappers.dfy`: `Option` and `Result`.
- `utils.dfy` (module `Utils`): the decoded JSON configuration (`Value`) and a
  reference path lookup `Lookup`. Also `get_url`, `get_account`, `get_db_url`,
  `get_contract_path`, and `get_hash` as a `Hasher` parameter.
- `store.dfy` (module `Store`): the document store.
  - The two record shapes.
  - `find_one` as a first match in insertion order (`FindFirst`).
  - The `find().sort('timestamp', DESCENDING)` cursor (`SortNewestFirst`).
  - The class `Db`: the two collections as sequences, plus an `online` flag.
    When `online` is false, every query and insert raises.
- `lib.dfy` (module `Lib`): `Save`, `Deploy`, `CreateFromHash`, `GetAddress`
  and `PKey`, plus the class `Ezo`. `Ezo` holds `Start`, with its recursive
  reference definition `Schedule`, and `ViewContracts` / `ViewDeployments`.

How `start` ends is a `StartOutcome`. It holds the jobs started, each a
(hash, address) pair, and one ending:

- `Joined`: every hash resolved, and the call then joins its jobs.
- `Returned(err)`: the `(None, err)` return.
- `Raised(fault)`: an exception escapes `start`. This happens for an
  unregistered hash, or for a hash with no deployment on the target. In both
  cases the empty `find_one` yields None. For an unregistered hash,
  `create_from_hash` then indexes that None; for a missing deployment,
  `get_address` tests `"address" in None`. Either raises.

Jobs started before a failure stay in the outcome. Nothing stops them.

Where the code departs from what a content-addressed registry suggests, the
model follows the code:

- Registration is not idempotent: saving the same source twice stores two
  documents, both with the same hash.
- `get_address` resolves the first matching deployment in insertion order, not
  the latest one by timestamp.
- An unknown hash makes `start` raise. No "not found" error is returned.

## Model

| member | source | states |
|---|---|---|
| `Utils.LookupAppend` | ezo/utils.py:25-27 | indexing in two steps (`cfg = config["stage"][stage]`, then `cfg[...]`) is indexing along the joined key path |
| `Utils.GetUrl` | ezo/utils.py:25-27 | the result is the value at path stage/<stage>/url of the configuration; a missing key is excluded by the requires (Python raises) |
| `Utils.GetAccount` | ezo/utils.py:31-33 | the result is the value at path stage/<stage>/account |
| `Utils.GetDbUrl` | ezo/utils.py:37-38 | the result is the value at path database/url |
| `Utils.ContractPathSplits` | ezo/utils.py:42-44 | with a non-empty file name (no "/" in it) the path splits at its last "/" back into the configured `contract-dir` and the file name |
| `Utils.ContractPathDefault` | ezo/utils.py:43-45 | with no file name or an empty one the path is `contract-dir` unchanged |
| `Utils.GetContractPath` | ezo/utils.py:42-45 | no contract of its own; its properties are `ContractPathSplits` and `ContractPathDefault` |
| `Utils.GetHash` | ezo/utils.py:49-51 | no contract of its own: the digest is a parameter (`Hasher`), a function of the text alone; how saved documents carry it is stated by `Save`, `CreateAfterSave` and `SaveTwiceKeepsBoth` |
| `Store.FindFirst` | ezo/core/lib.py:253 | `find_one`: the answer is the first index whose document matches; None exactly when nothing matches |
| `Store.FindFirstAppend` | ezo/core/lib.py:236 | an insert never changes an existing first match; the new document is found only if nothing earlier matched |
| `Store.SortNewestFirst` | ezo/core/lib.py:89 | the sorted cursor is a permutation of the collection, in non-increasing timestamp order |
| `Store.Db.InsertContract` | ezo/core/lib.py:236 | appends exactly the document to `contracts` and answers its id; raises (and changes nothing) when unreachable |
| `Store.Db.InsertDeployment` | ezo/core/lib.py:194 | appends exactly the document to `deployments` and answers its id; raises (and changes nothing) when unreachable |
| `Lib.ContractDocOf` | ezo/core/lib.py:227-233 | no contract of its own: the document `save` builds; `Save` states that exactly it is appended, and `CreateAfterSave` that loading it by hash returns the contract |
| `Lib.Save` | ezo/core/lib.py:221-239 | one `contracts` document with name, abi, bin, source, hash = get_hash(source) and timestamp is appended; `deployments` untouched; the store error is returned when unreachable |
| `Lib.CreateFromHash` | ezo/core/lib.py:252-255 | the error is returned exactly when the query raises |
| `Lib.CreateFromHashFinds` | ezo/core/lib.py:252-265 | "not registered" (indexing None, which raises) exactly when no document has the hash; otherwise a contract with that hash whose name, abi, bin, hash, source and timestamp are copied from the first document with it |
| `Lib.CreateAfterSave` | ezo/core/lib.py:227-263 | save then create_from_hash on the source's digest returns the saved contract, unless an earlier document had that digest, which then still wins |
| `Lib.SaveTwiceKeepsBoth` | ezo/core/lib.py:227-236 | two saves of one source store two documents with equal hash (the digest depends on the source alone), and loading yields the first |
| `Lib.Deploy` | ezo/core/lib.py:159-198 | on a mined deployment exactly one `deployments` record (contract-name, hash, tx-hash, address, target, timestamp) is appended and the address returned; chain or store failures are returned and add nothing |
| `Lib.GetAddress` | ezo/core/lib.py:318-321 | the error pair is returned exactly when the query raises |
| `Lib.GetAddressFinds` | ezo/core/lib.py:317-322 | the `address` of the first record matching both hash and target, with no ordering by timestamp; the crash case exactly when none matches |
| `Lib.AddressAfterDeploy` | ezo/core/lib.py:317-322 | after a new deployment record, get_address reports it only if no earlier record has the same hash and target |
| `Lib.FirstDeploymentWins` | ezo/core/lib.py:319-322 | of two deployments to one target, the older (first inserted) address is resolved, not the latest |
| `Lib.PKey` | ezo/core/lib.py:366-368 | no contract of its own; its properties are `PKeyRoundTrip` and `PKeyCollides` |
| `Lib.PKeyRoundTrip` | ezo/core/lib.py:366-368 | splitting the joined key at its first "__" recovers the storage type and the key exactly when the storage type holds no "__" and does not end in "_", for every key |
| `Lib.PKeyCollides` | ezo/core/lib.py:366-368 | two different (type, key) pairs give the same joined key, so without that condition `pkey` is not invertible |
| `Lib.Resolve` | ezo/core/lib.py:132-139 | no contract of its own: the reference step for one hash; its property is `ResolveSpawnsExactly`, and `Ezo.ResolveOne` is proved to compute it |
| `Lib.ResolveSpawnsExactly` | ezo/core/lib.py:133-139 | a hash yields a job exactly when its contract loads and its first matching deployment holds a truthy address, which is the job's address |
| `Lib.Ezo.ResolveOne` | ezo/core/lib.py:132-139 | one loop iteration (create_from_hash, stop on its error, get_address, stop on a falsy address) gives exactly the reference step `Resolve` |
| `Lib.Schedule` | ezo/core/lib.py:130-144 | no contract of its own: the reference definition of the loop over the hashes; its properties are `ScheduleStopsAtFirstFailure` and `ScheduleAppend` |
| `Lib.ScheduleStopsAtFirstFailure` | ezo/core/lib.py:130-144 | hashes are handled in list order; each hash before the first failure has exactly one job with its resolved address; no later hash has one; success exactly when all resolved, otherwise the first failing hash's ending |
| `Lib.ScheduleAppend` | ezo/core/lib.py:130-144 | a concatenated list reaches its second part only if the first part fully resolved, and its jobs follow the first part's |
| `Lib.UnregisteredAfterDeployed` | ezo/core/lib.py:131-144 | for the batch [deployed hash, unregistered hash] the first job is started and kept, and the call raises on the second hash |
| `Lib.NoAddressNamesHash` | ezo/core/lib.py:139 | on one target, the missing-address error text differs for different hashes, so it names the hash that failed |
| `Lib.Ezo.Launch` | ezo/core/lib.py:116-147 | no contract of its own: the reference outcome of `start`; its properties are `LaunchNormalises` and the schedule lemmas, and `Ezo.Start` is proved equal to it |
| `Lib.Ezo.LaunchNormalises` | ezo/core/lib.py:124-128 | a string is scheduled as a one-element list, a list as itself; any other argument returns the argument error with no lookup and no job |
| `Lib.Ezo.Start` | ezo/core/lib.py:116-147 | the loop's outcome (jobs started in order, and how it ended) equals the reference schedule `Launch` of the argument, whose properties are the lemmas above and below |
| `Lib.Ezo.ViewContracts` | ezo/core/lib.py:95-102 | every contract document exactly once, in non-increasing timestamp order; the store error when unreachable |
| `Lib.Ezo.ViewDeployments` | ezo/core/lib.py:86-93 | every deployment document exactly once, in non-increasing timestamp order; the store error when unreachable |

## Left out

- Process creation, the daemon flag and `join`: a started job is a (hash, address) entry. `Joined` stands for the join, which blocks as long as the listeners run.
- `Contract.listen`, `event_loop` and `handle_event`: the asyncio polling loop, and the fixed address that `listen` writes over its argument. This is concurrent I/O against a node.
- Printing in `start`, `event_loop`, `handle_event`, `load_configuration` and `display_*`.
- `EZO.dial`, `EZO.connect`, `EZO.close` and the web3 contract deployment with its receipt wait. These are foreign I/O. `Deploy` takes the chain's answer (transaction hash and contract address, or an exception) as an input. The account it looks up only signs that transaction.
- `EZO.target` is not assigned anywhere in the modelled source; the caller sets it on the object. Here it is a constructor argument.
- `Contract.load`: a file read. `Contract.compile`: the solc compiler.
- `DB.__init__`, `DB.save`, `DB.replace`, `DB.load` and `DB.delete`: unfinished stubs. `__init__` has an `if` with no body, and `pickle` is never imported. Only `DB.pkey` is modelled.
- `EZO.view_source` and `initialize`: empty bodies.
- `load_configuration`: file I/O and JSON decoding. The configuration is taken as an already decoded `Value`.
- ezo/core/utils.py is not part of this model. It holds key generation with printing, text templates and a constant JSON document.
- Clocks: `datetime.utcnow()` timestamps are integers supplied by the caller. For `Save`, that is the `Contract`'s own timestamp.
- xxh64 and the UTF-8 encoding inside `get_hash`: the digest is a function parameter (`Hasher`). Its 16-hex-digit format is not modelled.
- Store failures: one `online` flag covers both collections. A store that answers `contracts` queries but fails on `deployments` is not modelled. In the source, `get_address` would then return the pair `(None, e)`, which `start` treats as an address. Under the single flag, that case cannot follow a successful `create_from_hash`.
- Documents written by anything other than `save` and `deploy`: every stored document has all of its fields. So `"address" in address` is always true, and a missing `name` or `abi` field does not arise.
- Utils.GetContractPath: formatting a `contract-dir` that is not a string is not modelled. It is excluded when a file name is given.
- MongoDB's order among documents with equal timestamps: `SortNewestFirst` promises none.
