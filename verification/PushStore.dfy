/**
 `InMemoryPushNotificationConfigStore` (ra2a/src/server/push.rs): a map of maps that behaves as one
 flat map, and the handlers over it (ra2a/src/server/handler/default.rs).
 */
module PushStore {
  import opened Wrappers
  import Pagination

  datatype Config = Config(id: Option<string>, url: string, token: Option<string>, auth: Option<(string, string)>)

  datatype PushError = EmptyUrl | UnsupportedScheme | ConfigNotFound

  type Nested = map<string, map<string, Config>>
  type Flat = map<(string, string), Config>

  function Validate(url: string): Option<PushError> {
    if url == "" then Some(EmptyUrl)
    else if !("http://" <= url) && !("https://" <= url) then Some(UnsupportedScheme)
    else None
  }

  /** The configuration as it will be stored: with its own id, or the generated one. */
  function WithId(c: Config, freshId: string): Config {
    if c.id.UnwrapOr("") == "" then c.(id := Some(freshId)) else c
  }

  /** Exactly the http and https addresses are accepted. */
  lemma AcceptedIff(url: string)
    ensures Validate(url).None? <==> "http://" <= url || "https://" <= url
  {
    assert "http://"[0] == 'h' && "https://"[0] == 'h';
  }

  // ---- The nested store --------------------------------------------------------------------

  datatype Operation =
    | Save(taskId: string, config: Config, freshId: string)
    | Delete(taskId: string, configId: string)
    | DeleteAll(taskId: string)

  function Apply(n: Nested, op: Operation): Nested {
    match op
    case Save(t, c, freshId) =>
      if Validate(c.url).Some? then n
      else
        var saved := WithId(c, freshId);
        n[t := (if t in n then n[t] else map[])[saved.id.UnwrapOr("") := saved]]
    case Delete(t, k) => if t in n then n[t := n[t] - {k}] else n
    case DeleteAll(t) => n - {t}
  }

  function Get(n: Nested, t: string, k: string): Option<Config> {
    if t in n && k in n[t] then Some(n[t][k]) else None
  }

  class InMemoryPushStore {
    var configs: Nested

    constructor ()
      ensures configs == map[]
    {
      configs := map[];
    }

    /**
     Accepts web addresses only. What it returns is the caller's configuration, with the generated id if
     the caller gave none, and it is found under that id; all other entries are as they were.
     */
    method SaveConfig(taskId: string, config: Config, freshId: string) returns (r: Result<Config, PushError>)
      modifies this
      ensures r.Ok? <==> "http://" <= config.url || "https://" <= config.url
      ensures r.Err? ==> configs == old(configs)
      ensures r.Ok? ==>
                var id := if config.id.Some? && config.id.value != "" then config.id.value else freshId;
                && r.value == Config(Some(id), config.url, config.token, config.auth)
                && Get(configs, taskId, id) == Some(r.value)
                && forall t, k :: (t, k) != (taskId, id) ==> Get(configs, t, k) == Get(old(configs), t, k)
      ensures configs == Apply(old(configs), Save(taskId, config, freshId))
      ensures r == match Validate(config.url) case Some(e) => Err(e) case None => Ok(WithId(config, freshId))
    {
      if config.url == "" {
        return Err(EmptyUrl);
      }
      if !("http://" <= config.url) && !("https://" <= config.url) {
        return Err(UnsupportedScheme);
      }
      var toSave := config;
      if toSave.id.UnwrapOr("") == "" {
        toSave := toSave.(id := Some(freshId));
      }
      var inner := if taskId in configs then configs[taskId] else map[];
      configs := configs[taskId := inner[toSave.id.UnwrapOr("") := toSave]];
      r := Ok(toSave);
    }

    method GetConfig(taskId: string, configId: string) returns (r: Result<Config, PushError>)
      ensures r == match Get(configs, taskId, configId) case Some(c) => Ok(c) case None => Err(ConfigNotFound)
    {
      if taskId in configs && configId in configs[taskId] {
        r := Ok(configs[taskId][configId]);
      } else {
        r := Err(ConfigNotFound);
      }
    }

    method ListConfigs(taskId: string) returns (r: seq<Config>)
      ensures exists keys :: Lists(configs, taskId, r, keys)
    {
      r := [];
      ghost var keys := [];
      if taskId in configs {
        r, keys := Values(configs[taskId]);
      }
      assert Lists(configs, taskId, r, keys);
    }

    method DeleteConfig(taskId: string, configId: string)
      modifies this
      ensures Get(configs, taskId, configId).None?
      ensures forall t, k :: (t, k) != (taskId, configId) ==> Get(configs, t, k) == Get(old(configs), t, k)
      ensures configs == Apply(old(configs), Delete(taskId, configId))
    {
      if taskId in configs {
        configs := configs[taskId := configs[taskId] - {configId}];
      }
    }

    method DeleteAllConfigs(taskId: string)
      modifies this
      ensures forall t, k :: Get(configs, t, k) == if t == taskId then None else Get(old(configs), t, k)
      ensures configs == Apply(old(configs), DeleteAll(taskId))
    {
      configs := configs - {taskId};
    }
  }

  ghost predicate Distinct(keys: seq<string>) {
    forall i, j :: 0 <= i < j < |keys| ==> keys[i] != keys[j]
  }

  /** Each entry of the task once, in an order the hash map chooses. */
  ghost predicate Lists(n: Nested, t: string, values: seq<Config>, keys: seq<string>) {
    && |values| == |keys| && Distinct(keys)
    && (forall i :: 0 <= i < |keys| ==> Get(n, t, keys[i]) == Some(values[i]))
    && (forall k :: Get(n, t, k).Some? ==> k in keys)
  }

  /** `values().cloned().collect()`. */
  method Values(inner: map<string, Config>) returns (r: seq<Config>, ghost keys: seq<string>)
    ensures |r| == |keys| && Distinct(keys)
    ensures forall i :: 0 <= i < |keys| ==> keys[i] in inner && inner[keys[i]] == r[i]
    ensures forall k :: k in inner ==> k in keys
  {
    r, keys := [], [];
    var left := inner.Keys;
    while left != {}
      invariant left <= inner.Keys && |r| == |keys| && Distinct(keys)
      invariant forall i :: 0 <= i < |keys| ==> keys[i] in inner && keys[i] !in left && r[i] == inner[keys[i]]
      invariant forall k :: k in inner && k !in left ==> k in keys
      decreases |left|
    {
      var k :| k in left;
      left := left - {k};
      r, keys := r + [inner[k]], keys + [k];
    }
  }

  // ---- The flat store ----------------------------------------------------------------------

  function ApplyFlat(m: Flat, op: Operation): Flat {
    match op
    case Save(t, c, freshId) =>
      if Validate(c.url).Some? then m
      else m[(t, WithId(c, freshId).id.UnwrapOr("")) := WithId(c, freshId)]
    case Delete(t, k) => m - {(t, k)}
    case DeleteAll(t) => map x | x in m && x.0 != t :: m[x]
  }

  function Run(n: Nested, ops: seq<Operation>): Nested
    decreases ops
  {
    if ops == [] then n else Run(Apply(n, ops[0]), ops[1..])
  }

  function RunFlat(m: Flat, ops: seq<Operation>): Flat
    decreases ops
  {
    if ops == [] then m else RunFlat(ApplyFlat(m, ops[0]), ops[1..])
  }

  function GetFlat(m: Flat, t: string, k: string): Option<Config> {
    if (t, k) in m then Some(m[(t, k)]) else None
  }

  /** What gets can see of the two stores is the same; empty inner maps are invisible. */
  ghost predicate Agree(n: Nested, m: Flat) {
    forall t, k :: Get(n, t, k) == GetFlat(m, t, k)
  }

  lemma ApplyAgrees(n: Nested, m: Flat, op: Operation)
    requires Agree(n, m)
    ensures Agree(Apply(n, op), ApplyFlat(m, op))
  {
    var n', m' := Apply(n, op), ApplyFlat(m, op);
    forall t, k ensures Get(n', t, k) == GetFlat(m', t, k) {
      assert Get(n, t, k) == GetFlat(m, t, k);
    }
  }

  /** After every run of saves and deletions the nested store answers like the flat one. */
  lemma {:induction false} NestedRefinesFlat(n: Nested, m: Flat, ops: seq<Operation>)
    requires Agree(n, m)
    ensures Agree(Run(n, ops), RunFlat(m, ops))
    decreases ops
  {
    if ops != [] {
      ApplyAgrees(n, m, ops[0]);
      NestedRefinesFlat(Apply(n, ops[0]), ApplyFlat(m, ops[0]), ops[1..]);
    }
  }

  // ---- What is stored ----------------------------------------------------------------------

  /** Every stored configuration is filed under its own non-empty id and has a web address. */
  ghost predicate Filed(n: Nested) {
    forall t, k :: Get(n, t, k).Some? ==>
      k != "" && Get(n, t, k).value.id == Some(k)
      && ("http://" <= Get(n, t, k).value.url || "https://" <= Get(n, t, k).value.url)
  }

  /** Generated ids are not empty. */
  predicate FreshIds(ops: seq<Operation>) {
    forall i :: 0 <= i < |ops| && ops[i].Save? ==> ops[i].freshId != ""
  }

  lemma ApplyKeepsFiled(n: Nested, op: Operation)
    requires Filed(n) && (op.Save? ==> op.freshId != "")
    ensures Filed(Apply(n, op))
  {
    var n' := Apply(n, op);
    forall t, k | Get(n', t, k).Some?
      ensures k != "" && Get(n', t, k).value.id == Some(k)
           && ("http://" <= Get(n', t, k).value.url || "https://" <= Get(n', t, k).value.url)
    {
      if Get(n', t, k) == Get(n, t, k) {
        assert Get(n, t, k).Some?;
      }
    }
  }

  lemma {:induction false} EveryRunIsFiled(n: Nested, ops: seq<Operation>)
    requires Filed(n) && FreshIds(ops)
    ensures Filed(Run(n, ops))
    decreases ops
  {
    if ops != [] {
      ApplyKeepsFiled(n, ops[0]);
      EveryRunIsFiled(Apply(n, ops[0]), ops[1..]);
    }
  }

  /** The same of any store: a saved configuration is the caller's, is found, and displaces nothing else. */
  lemma SavedIsFound(n: Nested, t: string, c: Config, freshId: string)
    requires "http://" <= c.url || "https://" <= c.url
    ensures var id := if c.id.Some? && c.id.value != "" then c.id.value else freshId;
            var after := Apply(n, Save(t, c, freshId));
            && Get(after, t, id) == Some(Config(Some(id), c.url, c.token, c.auth))
            && forall t', k :: (t', k) != (t, id) ==> Get(after, t', k) == Get(n, t', k)
  {
    AcceptedIff(c.url);
  }

  // ---- The handlers ------------------------------------------------------------------------

  /** The ids `on_list_task_push_configs` answers with: an entry without id would go by its index. */
  function ListedIds(values: seq<Config>): (ids: seq<string>)
    ensures |ids| == |values|
  {
    seq(|values|, i requires 0 <= i < |values| => values[i].id.UnwrapOr(Pagination.Print(i)))
  }

  /**
   After any run from the empty store, in whatever order the entries are listed: the listed ids are
   exactly the ids under which gets find something, each once, and deleting one removes it alone.
   */
  lemma ListedIdsWork(ops: seq<Operation>, t: string, values: seq<Config>, keys: seq<string>, i: nat)
    requires FreshIds(ops) && Lists(Run(map[], ops), t, values, keys) && i < |values|
    ensures ListedIds(values) == keys
    ensures var n, id := Run(map[], ops), ListedIds(values)[i];
            && Get(n, t, id) == Some(values[i])
            && Get(Apply(n, Delete(t, id)), t, id).None?
            && forall t', k :: (t', k) != (t, id) ==> Get(Apply(n, Delete(t, id)), t', k) == Get(n, t', k)
  {
    EveryRunIsFiled(map[], ops);
    var n := Run(map[], ops);
    forall j | 0 <= j < |values| ensures ListedIds(values)[j] == keys[j] {
      assert Get(n, t, keys[j]) == Some(values[j]);
    }
  }
}
