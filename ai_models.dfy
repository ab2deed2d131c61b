// ai_scholar/ai_models.py: AIModelManager, which registers one model per
// configured API key, picks the enabled, non-exhausted model of least
// priority, and retries a failed generation on the next pick at most
// len(available_models) + 1 times. The API keys are parameters (an unset
// variable is ""), each attempt's reply is given by a function of the
// attempt number and the model picked, and each attempt reads the clock
// once.

module AiModels {
  import opened Base
  import opened Text
  import opened Config
  import opened Lists
  import opened AiUtils
  import opened Quotas

  datatype Backend = Google | OpenRouter

  /** One `models_config` entry (the key itself, the model name and the sampling settings are left out). */
  datatype ModelConfig = ModelConfig(enabled: bool, quotaExceeded: bool, lastErrorTime: Option<real>,
                                     priority: int, batchSize: int, keyName: string, provider: Backend)

  /** A `models_config` item, in insertion order. */
  datatype Entry = Entry(name: string, config: ModelConfig)

  function KeyName(i: nat): string
  {
    "key" + NatToString(i + 1)
  }

  const GooglePrefix: string := "gemini-2.5-flash-lite-key"

  /** The dict key of Google key i: the prefix followed by i + 1. */
  function GoogleModelName(i: nat): string
  {
    GooglePrefix + NatToString(i + 1)
  }

  const HorizonName: string := "horizon-alpha"

  /** A model as `_init_models` registers it: enabled, not exhausted. */
  function Fresh(priority: int, batchSize: int, keyName: string, provider: Backend): ModelConfig
  {
    ModelConfig(true, false, None, priority, batchSize, keyName, provider)
  }

  /** The entries for the non-empty keys among the first n Google keys. */
  function GoogleEntries(keys: seq<string>, n: nat): seq<Entry>
    requires n <= |keys|
  {
    if n == 0 then []
    else
      GoogleEntries(keys, n - 1) +
      (if keys[n - 1] != "" then [Entry(GoogleModelName(n - 1), Fresh(n, GoogleBatchSize, KeyName(n - 1), Google))] else [])
  }

  /** Every entry `_init_models` registers, in order. */
  function Registered(keys: seq<string>, openRouterKey: string): seq<Entry>
  {
    var google := GoogleEntries(keys, |keys|);
    if openRouterKey != "" then google + [Entry(HorizonName, Fresh(4, OpenRouterBatchSize, "horizon", OpenRouter))]
    else google
  }

  predicate DistinctNames(entries: seq<Entry>)
  {
    forall i, j :: 0 <= i < j < |entries| ==> entries[i].name != entries[j].name
  }

  /** `_init_models`: the registered entries, or the ValueError without any key. */
  method InitModels(keys: seq<string>, openRouterKey: string) returns (r: Result<seq<Entry>>)
    ensures r == if Registered(keys, openRouterKey) == [] then Err("ValueError: At least one API key required")
                 else Ok(Registered(keys, openRouterKey))
  {
    var entries: seq<Entry> := [];
    for i := 0 to |keys|
      invariant entries == GoogleEntries(keys, i)
    {
      if keys[i] != "" {
        entries := entries + [Entry(GoogleModelName(i), Fresh(i + 1, GoogleBatchSize, KeyName(i), Google))];
      }
    }
    if openRouterKey != "" {
      entries := entries + [Entry(HorizonName, Fresh(4, OpenRouterBatchSize, "horizon", OpenRouter))];
    }
    if entries == [] {
      return Err("ValueError: At least one API key required");
    }
    return Ok(entries);
  }

  /** Every Google entry is a fresh Google model, registered for a non-empty key i with priority i + 1. */
  lemma {:induction false} GoogleEntriesFields(keys: seq<string>, n: nat)
    requires n <= |keys|
    ensures forall e :: e in GoogleEntries(keys, n) ==>
      (e.config == Fresh(e.config.priority, GoogleBatchSize, e.config.keyName, Google) &&
       exists i :: 0 <= i < n && keys[i] != "" && e.name == GoogleModelName(i) && e.config.priority == i + 1)
  {
    if n > 0 {
      GoogleEntriesFields(keys, n - 1);
    }
  }

  /** Every non-empty key among the first n has its entry; there is none exactly when all of them are empty. */
  lemma {:induction false} GoogleEntriesCover(keys: seq<string>, n: nat)
    requires n <= |keys|
    ensures forall i :: 0 <= i < n && keys[i] != "" ==>
      Entry(GoogleModelName(i), Fresh(i + 1, GoogleBatchSize, KeyName(i), Google)) in GoogleEntries(keys, n)
    ensures GoogleEntries(keys, n) == [] <==> forall i :: 0 <= i < n ==> keys[i] == ""
  {
    if n > 0 {
      GoogleEntriesCover(keys, n - 1);
    }
  }

  /** The number after the Google prefix of a model name (0 when there is none). */
  function KeyNumber(name: string): nat
  {
    if |name| < |GooglePrefix| || !IsDigits(name[|GooglePrefix|..]) then 0
    else DigitsValue(name[|GooglePrefix|..])
  }

  lemma KeyNumberOfName(i: nat)
    ensures KeyNumber(GoogleModelName(i)) == i + 1
    ensures GoogleModelName(i)[0] == GooglePrefix[0]
  {
    DigitsValueOfNatToString(i + 1);
    assert GoogleModelName(i)[|GooglePrefix|..] == NatToString(i + 1);
  }

  /** Different keys give different model names. */
  lemma GoogleNamesDiffer(i: nat, j: nat)
    requires i != j
    ensures GoogleModelName(i) != GoogleModelName(j)
  {
    KeyNumberOfName(i);
    KeyNumberOfName(j);
  }

  /** The Google entries have distinct names, numbered 1..n after the prefix. */
  lemma {:induction false} GoogleEntriesDistinct(keys: seq<string>, n: nat)
    requires n <= |keys|
    ensures DistinctNames(GoogleEntries(keys, n))
    ensures forall e :: e in GoogleEntries(keys, n) ==> 0 < KeyNumber(e.name) <= n && e.name[0] == GooglePrefix[0]
  {
    if n > 0 {
      GoogleEntriesDistinct(keys, n - 1);
      KeyNumberOfName(n - 1);
      var es := GoogleEntries(keys, n - 1);
      if keys[n - 1] != "" {
        var e := Entry(GoogleModelName(n - 1), Fresh(n, GoogleBatchSize, KeyName(n - 1), Google));
        assert GoogleEntries(keys, n) == es + [e];
        forall k | 0 <= k < |es|
          ensures es[k].name != e.name
        {
          assert es[k] in es;
        }
      }
    }
  }

  /** `_init_models` raises exactly when no key is set. */
  lemma RegisteredEmpty(keys: seq<string>, openRouterKey: string)
    ensures Registered(keys, openRouterKey) == [] <==> openRouterKey == "" && forall i :: 0 <= i < |keys| ==> keys[i] == ""
  {
    GoogleEntriesCover(keys, |keys|);
  }

  /**
   * Every registered model starts enabled and not exhausted; Google key i,
   * when set, is registered with priority i + 1, and the OpenRouter model,
   * when its key is set, comes last with priority 4.
   */
  lemma RegisteredModels(keys: seq<string>, openRouterKey: string)
    ensures var es := Registered(keys, openRouterKey);
      (forall e :: e in es ==> e.config.enabled && !e.config.quotaExceeded && e.config.lastErrorTime == None) &&
      (forall i :: 0 <= i < |keys| && keys[i] != "" ==>
         Entry(GoogleModelName(i), Fresh(i + 1, GoogleBatchSize, KeyName(i), Google)) in es) &&
      (openRouterKey != "" ==> es[|es| - 1] == Entry(HorizonName, Fresh(4, OpenRouterBatchSize, "horizon", OpenRouter)))
  {
    GoogleEntriesFields(keys, |keys|);
    GoogleEntriesCover(keys, |keys|);
    var g := GoogleEntries(keys, |keys|);
    var es := Registered(keys, openRouterKey);
    assert forall e :: e in g ==> e.config.enabled && !e.config.quotaExceeded && e.config.lastErrorTime == None;
    if openRouterKey != "" {
      var h := Entry(HorizonName, Fresh(4, OpenRouterBatchSize, "horizon", OpenRouter));
      assert es == g + [h];
      forall e | e in es
        ensures e.config.enabled && !e.config.quotaExceeded && e.config.lastErrorTime == None
      {
        if e !in g {
          assert e == h;
        }
      }
    }
  }

  /** The registered names are distinct, so every entry has its own dict key. */
  lemma RegisteredDistinct(keys: seq<string>, openRouterKey: string)
    ensures DistinctNames(Registered(keys, openRouterKey))
  {
    GoogleEntriesDistinct(keys, |keys|);
    var g := GoogleEntries(keys, |keys|);
    if openRouterKey != "" {
      assert HorizonName[0] != GooglePrefix[0];
      forall k | 0 <= k < |g|
        ensures g[k].name != HorizonName
      {
        assert g[k] in g;
      }
    }
  }

  /** The dict built from the entries. */
  function ConfigMap(entries: seq<Entry>): map<string, ModelConfig>
  {
    if entries == [] then map[]
    else ConfigMap(entries[..|entries| - 1])[entries[|entries| - 1].name := entries[|entries| - 1].config]
  }

  function Names(entries: seq<Entry>): seq<string>
  {
    Map(entries, (e: Entry) => e.name)
  }

  lemma {:induction false} ConfigMapKeys(entries: seq<Entry>)
    ensures forall n :: n in ConfigMap(entries) <==> n in Names(entries)
  {
    if entries != [] {
      var init := entries[..|entries| - 1];
      ConfigMapKeys(init);
      assert Names(entries) == Names(init) + [entries[|entries| - 1].name];
    }
  }

  // ---------------------------------------------------------------- choosing a model

  predicate Usable(c: ModelConfig)
  {
    c.enabled && !c.quotaExceeded
  }

  function UsableIn(configs: map<string, ModelConfig>): string -> bool
  {
    (n: string) => n in configs && Usable(configs[n])
  }

  /** The `available` list: the usable models, in dict order. */
  function Available(order: seq<string>, configs: map<string, ModelConfig>): seq<string>
  {
    Filter(order, UsableIn(configs))
  }

  /** The available list holds exactly the usable models of the order. */
  lemma AvailableMembers(order: seq<string>, configs: map<string, ModelConfig>)
    ensures forall n :: n in Available(order, configs) <==> n in order && n in configs && Usable(configs[n])
    ensures forall k :: 0 <= k < |Available(order, configs)| ==> Available(order, configs)[k] in configs
  {
    FilterMembers(order, UsableIn(configs));
    var av := Available(order, configs);
    forall k | 0 <= k < |av|
      ensures av[k] in configs
    {
      assert av[k] in av;
    }
  }

  /** One model after the cooldown check: the flag is cleared once the last error is older than the cooldown. */
  function Cool(c: ModelConfig, now: real): ModelConfig
  {
    if Stamped(c.lastErrorTime) && now - c.lastErrorTime.value > Cooldown then c.(quotaExceeded := false) else c
  }

  function CooledDown(configs: map<string, ModelConfig>, now: real): map<string, ModelConfig>
  {
    map n | n in configs :: Cool(configs[n], now)
  }

  /** The index of the first model of least priority (what `min` with a key returns). */
  function BestIndex(names: seq<string>, configs: map<string, ModelConfig>): (i: nat)
    requires names != [] && forall k :: 0 <= k < |names| ==> names[k] in configs
    ensures i < |names|
  {
    if |names| == 1 then 0
    else
      var b := BestIndex(names[..|names| - 1], configs);
      if configs[names[|names| - 1]].priority < configs[names[b]].priority then |names| - 1 else b
  }

  /** The chosen model has the least priority, and every model before it a greater one. */
  lemma {:induction false} BestIndexSpec(names: seq<string>, configs: map<string, ModelConfig>)
    requires names != [] && forall k :: 0 <= k < |names| ==> names[k] in configs
    ensures var b := BestIndex(names, configs);
      forall k :: 0 <= k < |names| ==>
        configs[names[k]].priority >= configs[names[b]].priority &&
        (k < b ==> configs[names[k]].priority > configs[names[b]].priority)
  {
    if |names| > 1 {
      BestIndexSpec(names[..|names| - 1], configs);
    }
  }

  /**
   * `_select_best_model` on the dict: the dict afterwards (cooled down only
   * when no model was usable) and the model picked, None when still no
   * model is usable.
   */
  function Select(order: seq<string>, configs: map<string, ModelConfig>, now: real): (map<string, ModelConfig>, Option<string>)
  {
    var c := if Available(order, configs) == [] then CooledDown(configs, now) else configs;
    var av := Available(order, c);
    if av == [] then (c, None)
    else
      AvailableMembers(order, c);
      (c, Some(av[BestIndex(av, c)]))
  }

  /** Selection keeps the dict's keys and picks a model of the order. */
  lemma SelectDomain(order: seq<string>, configs: map<string, ModelConfig>, now: real)
    ensures Select(order, configs, now).0.Keys == configs.Keys
    ensures Select(order, configs, now).1.Some? ==> Select(order, configs, now).1.value in order
  {
    var c := Select(order, configs, now).0;
    AvailableMembers(order, c);
  }

  /**
   * The pick is a usable model of least priority, ahead of every other
   * usable model of that priority; the cooldown pass clears only flags
   * whose error is older than the cooldown and keeps every error time.
   */
  lemma SelectSpec(order: seq<string>, configs: map<string, ModelConfig>, now: real)
    ensures var (c, pick) := Select(order, configs, now);
      c.Keys == configs.Keys &&
      (forall n :: n in c ==> c[n].lastErrorTime == configs[n].lastErrorTime && c[n].priority == configs[n].priority) &&
      (forall n :: n in c && c[n] != configs[n] ==>
         Available(order, configs) == [] && configs[n].quotaExceeded && !c[n].quotaExceeded &&
         Stamped(configs[n].lastErrorTime) && now - configs[n].lastErrorTime.value > Cooldown) &&
      (pick.Some? ==>
         (pick.value in order && pick.value in c && Usable(c[pick.value]) &&
          forall n :: n in order && UsableIn(c)(n) ==> c[n].priority >= c[pick.value].priority)) &&
      (pick.None? ==> forall n :: n in order ==> !UsableIn(c)(n))
  {
    var (c, pick) := Select(order, configs, now);
    var av := Available(order, c);
    AvailableMembers(order, c);
    if av != [] {
      BestIndexSpec(av, c);
      forall n | n in order && UsableIn(c)(n)
        ensures c[n].priority >= c[pick.value].priority
      {
        assert n in av;
        var k :| 0 <= k < |av| && av[k] == n;
      }
    }
  }

  // ---------------------------------------------------------------- generating with retries

  /** What one attempt's call gives: the stripped text ("" for an empty or missing reply), or an exception's message. */
  datatype Reply = Answer(text: string) | Failure(message: string)

  /** The exception generate_content raises itself for an empty reply. */
  const EmptyResponse: string := "Empty response"

  /** The dict and `current_model`. */
  datatype Manager = Manager(configs: map<string, ModelConfig>, current: string)

  /** What the manager needs to run: a non-empty dict order naming exactly the dict's keys, and a current model in it. */
  predicate Sound(m: Manager, order: seq<string>)
  {
    order != [] && (forall n :: n in order ==> n in m.configs) && (forall n :: n in m.configs ==> n in order) &&
    m.current in m.configs
  }

  predicate Succeeded(reply: Reply)
  {
    reply.Answer? && reply.text != ""
  }

  /** The message the `except` clause sees for a failed attempt. */
  function FailureMessage(reply: Reply): string
  {
    if reply.Answer? then EmptyResponse else reply.message
  }

  /**
   * The dict after calling `name`: a success clears its flag and time when
   * the flag is set, a quota error sets the flag and stamps the time, and
   * any other failure changes nothing.
   */
  function Recorded(c: map<string, ModelConfig>, name: string, reply: Reply, now: real): (r: map<string, ModelConfig>)
    requires name in c
    ensures r.Keys == c.Keys
  {
    var config := c[name];
    if Succeeded(reply) then
      if config.quotaExceeded then c[name := config.(quotaExceeded := false, lastErrorTime := None)] else c
    else if IsQuotaError(FailureMessage(reply)) then
      c[name := config.(quotaExceeded := true, lastErrorTime := Some(now))]
    else c
  }

  /** One pass of the `while` body: the manager afterwards and the text, if this attempt succeeded. */
  function Attempt(m: Manager, order: seq<string>, reply: Reply, now: real): (r: (Manager, Option<string>))
    requires Sound(m, order)
    ensures Sound(r.0, order) && r.0.configs.Keys == m.configs.Keys
    ensures r.1.Some? ==> r.1.value != "" && reply == Answer(r.1.value)
  {
    var sel := Select(order, m.configs, now);
    SelectDomain(order, m.configs, now);
    var name := if sel.1.Some? then sel.1.value else order[0];
    assert name in sel.0;
    var current := if sel.1.Some? then name else m.current;
    (Manager(Recorded(sel.0, name, reply, now), current), if Succeeded(reply) then Some(reply.text) else None)
  }

  /** The model an attempt calls: the pick, or the first model when none is usable. */
  function Called(m: Manager, order: seq<string>, now: real): string
    requires Sound(m, order)
  {
    var pick := Select(order, m.configs, now).1;
    if pick.Some? then pick.value else order[0]
  }

  /**
   * Attempts k, k + 1, ... up to `max`: `call(k, name)` is the reply of
   * attempt k to the model it calls, and `clock(k)` the time it reads.
   */
  function Run(m: Manager, order: seq<string>, call: (nat, string) -> Reply, clock: nat -> real, k: nat, max: nat): (Manager, Option<string>)
    requires Sound(m, order)
    decreases max - k
  {
    if k >= max then (m, None)
    else
      var (m', text) := Attempt(m, order, call(k, Called(m, order, clock(k))), clock(k));
      if text.Some? then (m', text) else Run(m', order, call, clock, k + 1, max)
  }

  /** generate_content on the manager: attempts 0 to len(order). */
  function Generated(m: Manager, order: seq<string>, call: (nat, string) -> Reply, clock: nat -> real): (Manager, Option<string>)
    requires Sound(m, order)
  {
    Run(m, order, call, clock, 0, |order| + 1)
  }

  /** Run unfolded once: attempt k, then the rest unless it succeeded. */
  lemma RunStep(m: Manager, order: seq<string>, call: (nat, string) -> Reply, clock: nat -> real, k: nat, max: nat)
    requires Sound(m, order) && k < max
    ensures var a := Attempt(m, order, call(k, Called(m, order, clock(k))), clock(k));
      Run(m, order, call, clock, k, max) == if a.1.Some? then a else Run(a.0, order, call, clock, k + 1, max)
  {
  }

  /** Only the replies of attempts k..max-1 matter: at most len(available_models) + 1 calls are made. */
  lemma {:induction false} RunUsesBudget(m: Manager, order: seq<string>, call: (nat, string) -> Reply,
                                         call': (nat, string) -> Reply, clock: nat -> real, k: nat, max: nat)
    requires Sound(m, order)
    requires forall j: nat, n: string :: k <= j < max ==> call(j, n) == call'(j, n)
    ensures Run(m, order, call, clock, k, max) == Run(m, order, call', clock, k, max)
    decreases max - k
  {
    if k < max {
      var name := Called(m, order, clock(k));
      assert call(k, name) == call'(k, name);
      var (m', text) := Attempt(m, order, call(k, name), clock(k));
      if text.None? {
        RunUsesBudget(m', order, call, call', clock, k + 1, max);
      }
    }
  }

  /** The text returned is the non-empty reply of one attempt, and the dict keeps its keys. */
  lemma {:induction false} RunSpec(m: Manager, order: seq<string>, call: (nat, string) -> Reply, clock: nat -> real, k: nat, max: nat)
    requires Sound(m, order)
    ensures var (m', text) := Run(m, order, call, clock, k, max);
      Sound(m', order) && m'.configs.Keys == m.configs.Keys &&
      (text.Some? ==> text.value != "" && exists j: nat, n: string :: k <= j < max && call(j, n) == Answer(text.value))
    decreases max - k
  {
    if k < max {
      var name := Called(m, order, clock(k));
      var (m', text) := Attempt(m, order, call(k, name), clock(k));
      if text.None? {
        RunSpec(m', order, call, clock, k + 1, max);
      } else {
        assert call(k, name) == Answer(text.value);
      }
    }
  }

  /** get_optimal_batch_size: the current model's size (five more for descriptions), else 30. */
  function BatchSizeOf(m: Manager, operation: string): (r: int)
    ensures (forall n :: n in m.configs ==> m.configs[n].batchSize > 0) ==> r > 0
  {
    if m.current != "" && m.current in m.configs then OptimalBatchSize(m.configs[m.current].batchSize, operation)
    else 30
  }

  /** Every registered model has a positive batch size, so the batch loops always make progress. */
  lemma RegisteredBatchSizes(keys: seq<string>, openRouterKey: string)
    ensures forall e :: e in Registered(keys, openRouterKey) ==> e.config.batchSize > 0
  {
    GoogleEntriesFields(keys, |keys|);
  }

  class AIModelManager {
    var configs: map<string, ModelConfig>
    var availableModels: seq<string>
    var currentModel: string

    function State(): Manager
      reads this
    {
      Manager(configs, currentModel)
    }

    ghost predicate Valid()
      reads this
    {
      Sound(State(), availableModels)
    }

    /** `__init__` once `_init_models` has found at least one key. */
    constructor (entries: seq<Entry>)
      requires entries != []
      ensures configs == ConfigMap(entries) && availableModels == Names(entries)
      ensures currentModel == entries[0].name && Valid()
    {
      ConfigMapKeys(entries);
      configs := ConfigMap(entries);
      availableModels := Names(entries);
      currentModel := entries[0].name;
      assert entries[0].name in Names(entries);
    }

    /** The loop of `_select_best_model` that re-enables the models whose cooldown has passed. */
    method CoolDownAll(now: real)
      requires Valid()
      modifies this
      ensures configs == CooledDown(old(configs), now)
      ensures availableModels == old(availableModels) && currentModel == old(currentModel) && Valid()
    {
      var order := availableModels;
      ghost var start := configs;
      for i := 0 to |order|
        invariant configs.Keys == start.Keys && availableModels == order && currentModel == old(currentModel)
        invariant forall n :: n in configs ==>
          configs[n] == if n in order[..i] then Cool(start[n], now) else start[n]
      {
        var n := order[i];
        var c := configs[n];
        if Stamped(c.lastErrorTime) && now - c.lastErrorTime.value > Cooldown {
          configs := configs[n := c.(quotaExceeded := false)];
        }
        assert order[..i + 1] == order[..i] + [n];
      }
      assert order[..|order|] == order;
    }

    /** `_select_best_model`. */
    method SelectBestModel(now: real) returns (name: string)
      requires Valid()
      modifies this
      ensures Valid() && availableModels == old(availableModels)
      ensures var (c, pick) := Select(availableModels, old(configs), now);
        configs == c && name == Called(old(State()), availableModels, now) &&
        currentModel == (if pick.Some? then pick.value else old(currentModel))
    {
      var usable := Available(availableModels, configs);
      if usable == [] {
        CoolDownAll(now);
        usable := Available(availableModels, configs);
      }
      AvailableMembers(availableModels, configs);
      if usable != [] {
        name := usable[BestIndex(usable, configs)];
        currentModel := name;
      } else {
        name := availableModels[0];
      }
    }

    /** One pass of the retry loop: pick a model, call it, and record the outcome. */
    method TryModel(k: nat, call: (nat, string) -> Reply, now: real) returns (text: Option<string>)
      requires Valid()
      modifies this
      ensures Valid() && availableModels == old(availableModels)
      ensures (State(), text) == Attempt(old(State()), availableModels, call(k, Called(old(State()), availableModels, now)), now)
    {
      var name := SelectBestModel(now);
      var reply := call(k, name);
      if Succeeded(reply) {
        var config := configs[name];
        if config.quotaExceeded {
          configs := configs[name := config.(quotaExceeded := false, lastErrorTime := None)];
        }
        return Some(reply.text);
      }
      if IsQuotaError(FailureMessage(reply)) {
        MarkModelQuotaExceeded(name, now);
      }
      return None;
    }

    /** `_mark_model_quota_exceeded`. */
    method MarkModelQuotaExceeded(name: string, now: real)
      modifies this
      ensures availableModels == old(availableModels) && currentModel == old(currentModel)
      ensures configs == if name in old(configs) then old(configs)[name := old(configs)[name].(quotaExceeded := true, lastErrorTime := Some(now))]
                         else old(configs)
    {
      if name in configs {
        configs := configs[name := configs[name].(quotaExceeded := true, lastErrorTime := Some(now))];
      }
    }

    /** Attempt k of at most max, as a step of Run. */
    method RetryStep(k: nat, max: nat, call: (nat, string) -> Reply, clock: nat -> real) returns (text: Option<string>)
      requires Valid() && k < max
      modifies this
      ensures Valid() && availableModels == old(availableModels)
      ensures Run(old(State()), availableModels, call, clock, k, max) ==
              if text.Some? then (State(), text) else Run(State(), availableModels, call, clock, k + 1, max)
    {
      RunStep(State(), availableModels, call, clock, k, max);
      text := TryModel(k, call, clock(k));
    }

    /** generate_content: at most len(available_models) + 1 attempts. */
    method GenerateContent(call: (nat, string) -> Reply, clock: nat -> real) returns (r: Option<string>)
      requires Valid()
      modifies this
      ensures Valid() && availableModels == old(availableModels)
      ensures (State(), r) == Generated(old(State()), availableModels, call, clock)
    {
      var attempts := 0;
      var maxAttempts := |availableModels| + 1;
      ghost var goal := Generated(State(), availableModels, call, clock);
      while attempts < maxAttempts
        invariant 0 <= attempts <= maxAttempts && Valid() && availableModels == old(availableModels)
        invariant goal == Run(State(), availableModels, call, clock, attempts, maxAttempts)
        decreases maxAttempts - attempts
      {
        var text := RetryStep(attempts, maxAttempts, call, clock);
        if text.Some? {
          return text;
        }
        attempts := attempts + 1;
      }
      return None;
    }

    function GetOptimalBatchSize(operation: string): int
      reads this
    {
      BatchSizeOf(State(), operation)
    }
  }

  /** `AIModelManager()`: the ValueError without keys, else a manager over the registered models. */
  method NewManager(keys: seq<string>, openRouterKey: string) returns (r: Result<AIModelManager>)
    ensures r.Err? <==> Registered(keys, openRouterKey) == []
    ensures r.Ok? ==>
      (fresh(r.value) && r.value.Valid() &&
       r.value.configs == ConfigMap(Registered(keys, openRouterKey)) &&
       r.value.availableModels == Names(Registered(keys, openRouterKey)))
  {
    var entries := InitModels(keys, openRouterKey);
    if entries.Err? {
      return Err(entries.error);
    }
    var m := new AIModelManager(entries.value);
    return Ok(m);
  }
}
