/**
 * Configuration and path helpers of ezo/utils.py.
 *
 * The configuration is the decoded JSON document; Python's `config[k]` on a
 * missing key (or on something that is not a dictionary) raises, so every
 * accessor requires the path it follows to exist.
 */
module Utils {
  import opened Wrappers

  /** A decoded JSON value. */
  datatype Value =
    | Null
    | Bool(b: bool)
    | Int(i: int)
    | Str(s: string)
    | Arr(items: seq<Value>)
    | Obj(fields: map<string, Value>)

  /** `v[key]`, or None where Python would raise. */
  function Get(v: Value, key: string): Option<Value>
  {
    if v.Obj? && key in v.fields then Some(v.fields[key]) else None
  }

  /** Reference definition of nested indexing `v[p0][p1]...`: None as soon as a key is missing. */
  function Lookup(v: Value, path: seq<string>): Option<Value>
    decreases |path|
  {
    if path == [] then Some(v)
    else match Get(v, path[0])
      case None => None
      case Some(w) => Lookup(w, path[1..])
  }

  /** Continue a lookup from an optional intermediate value. */
  function LookupFrom(o: Option<Value>, path: seq<string>): Option<Value>
  {
    match o
    case None => None
    case Some(w) => Lookup(w, path)
  }

  /** Indexing in two steps (`cfg = config[a]...; cfg[b]...`) is indexing along the joined path. */
  lemma {:induction false} LookupAppend(v: Value, p: seq<string>, q: seq<string>)
    ensures Lookup(v, p + q) == LookupFrom(Lookup(v, p), q)
  {
    if p == [] {
      assert p + q == q;
    } else {
      assert (p + q)[0] == p[0];
      assert (p + q)[1..] == p[1..] + q;
      match Get(v, p[0])
      case None =>
      case Some(w) => LookupAppend(w, p[1..], q);
    }
  }

  /** Indexing along a one-key path is a single `Get`. */
  lemma Lookup1(v: Value, a: string)
    ensures Lookup(v, [a]) == Get(v, a)
  {
    assert [a][1..] == [];
  }

  /** Indexing along a two-key path, one key at a time. */
  lemma Lookup2(v: Value, a: string, b: string)
    ensures Lookup(v, [a, b]) == LookupFrom(Get(v, a), [b])
  {
    assert [a, b][1..] == [b];
    assert [b][1..] == [];
  }

  /** The per-stage section `config["stage"][stage]`. */
  function StageConfig(config: Value, stage: string): (cfg: Value)
    requires Lookup(config, ["stage", stage]).Some?
    ensures Lookup(config, ["stage", stage]) == Some(cfg)
  {
    Lookup2(config, "stage", stage);
    Lookup1(config.fields["stage"], stage);
    config.fields["stage"].fields[stage]
  }

  /** `get_url`: the node URL of a stage, `config["stage"][stage]["url"]`. */
  function GetUrl(config: Value, stage: string): (url: Value)
    requires Lookup(config, ["stage", stage, "url"]).Some?
    ensures Lookup(config, ["stage", stage, "url"]) == Some(url)
  {
    LookupAppend(config, ["stage", stage], ["url"]);
    assert ["stage", stage] + ["url"] == ["stage", stage, "url"];
    assert ["url"][1..] == [];
    var cfg := StageConfig(config, stage);
    cfg.fields["url"]
  }

  /** `get_account`: the sending account of a stage, `config["stage"][stage]["account"]`. */
  function GetAccount(config: Value, stage: string): (account: Value)
    requires Lookup(config, ["stage", stage, "account"]).Some?
    ensures Lookup(config, ["stage", stage, "account"]) == Some(account)
  {
    LookupAppend(config, ["stage", stage], ["account"]);
    assert ["stage", stage] + ["account"] == ["stage", stage, "account"];
    assert ["account"][1..] == [];
    var cfg := StageConfig(config, stage);
    cfg.fields["account"]
  }

  /** `get_db_url`: `config["database"]["url"]`. */
  function GetDbUrl(config: Value): (url: Value)
    requires Lookup(config, ["database", "url"]).Some?
    ensures Lookup(config, ["database", "url"]) == Some(url)
  {
    Lookup2(config, "database", "url");
    assert ["url"][1..] == [];
    config.fields["database"].fields["url"]
  }

  /** Python truthiness of the optional `filename` argument: neither None nor "". */
  predicate Given(filename: Option<string>)
  {
    filename.Some? && filename.value != ""
  }

  /**
   * `get_contract_path`: the contract directory, joined with "/" and the file
   * name when one is given. Formatting a directory that is not a string is
   * not modelled, hence the second requires.
   */
  function GetContractPath(config: Value, filename: Option<string>): (path: Value)
    requires Get(config, "contract-dir").Some?
    requires Given(filename) ==> Get(config, "contract-dir").value.Str?
  {
    var dir := config.fields["contract-dir"];
    if Given(filename) then Str(dir.s + "/" + filename.value) else dir
  }

  /** Position of the last occurrence of `c` in `s`. */
  function LastIndexOf(s: string, c: char): (r: Option<nat>)
    ensures r.Some? ==> r.value < |s| && s[r.value] == c
    ensures r.Some? ==> forall i :: r.value < i < |s| ==> s[i] != c
    ensures r.None? ==> c !in s
    decreases |s|
  {
    if s == [] then None
    else if s[|s| - 1] == c then Some(|s| - 1)
    else LastIndexOf(s[..|s| - 1], c)
  }

  /** Split a path at its last "/" into (directory, file name); ("", s) when there is none. */
  function SplitPath(s: string): (string, string)
  {
    match LastIndexOf(s, '/')
    case None => ("", s)
    case Some(i) => (s[..i], s[i + 1..])
  }

  /**
   * A path built from a file name splits back into the configured directory
   * and that file name, provided the name holds no "/" of its own.
   */
  lemma ContractPathSplits(config: Value, filename: string)
    requires Get(config, "contract-dir").Some? && Get(config, "contract-dir").value.Str?
    requires filename != "" && '/' !in filename
    ensures var path := GetContractPath(config, Some(filename));
      path.Str? && SplitPath(path.s) == (config.fields["contract-dir"].s, filename)
  {
    var dir := config.fields["contract-dir"].s;
    var s := dir + "/" + filename;
    assert s[|dir|] == '/';
    forall i | |dir| < i < |s| ensures s[i] != '/' {
      assert s[i] == filename[i - |dir| - 1];
    }
    var r := LastIndexOf(s, '/');
    assert r.Some? && r.value == |dir|;
    assert s[..|dir|] == dir;
    assert s[|dir| + 1..] == filename;
  }

  /** With no file name, or an empty one, the path is the configured directory unchanged. */
  lemma ContractPathDefault(config: Value)
    requires Get(config, "contract-dir").Some?
    ensures GetContractPath(config, None) == config.fields["contract-dir"]
    ensures GetContractPath(config, Some("")) == GetContractPath(config, None)
  {
  }

  /** The source digest `get_hash` (xxh64 of the UTF-8 bytes, as hex), taken as a parameter. */
  type Hasher = string -> string

  /** `get_hash`: a function of the text alone. */
  function GetHash(hasher: Hasher, text: string): string
  {
    hasher(text)
  }
}
