/**
 * The context-window size of a model: the `limit.context` value that a
 * provider's model metadata advertises, or else an estimate from a fixed
 * table of model-name patterns.
 */
module ModelLimits {
  import opened Wrappers
  import opened Text

  /** The token counts the fallback table can give. */
  const FallbackValues: set<nat> := {128000, 32768, 16384, 8192, 4096, 200000, 100000}

  /** The estimate for a model with no usable metadata: the first pattern that
      occurs in the lower-cased name decides, and 8192 is the default. */
  function FallbackLimit(model: string): (r: nat)
    ensures r in FallbackValues
    ensures r > 0
  {
    var m := Lower(model);
    if Contains(m, "gpt-4-turbo") || Contains(m, "gpt-4-1106") then 128000
    else if Contains(m, "gpt-4-32k") then 32768
    else if Contains(m, "gpt-4") then 8192
    else if Contains(m, "gpt-3.5-turbo-16k") then 16384
    else if Contains(m, "gpt-3.5-turbo") then 4096
    else if Contains(m, "claude-3-opus") || Contains(m, "claude-3-sonnet") || Contains(m, "claude-3-haiku") then 200000
    else if Contains(m, "claude-2") then 100000
    else if Contains(m, "claude") then 100000
    else if Contains(m, "llama") || Contains(m, "mistral") || Contains(m, "mixtral") then
      if Contains(m, "32k") then 32768
      else if Contains(m, "16k") then 16384
      else 8192
    else 8192
  }

  /** The table sees only the lower-cased name. */
  lemma FallbackIgnoresCase(model: string)
    ensures FallbackLimit(model) == FallbackLimit(Lower(model))
  {
    LowerIdempotent(model);
  }

  /** Names that differ only in letter case get the same estimate. */
  lemma FallbackSameLowerSameLimit(a: string, b: string)
    requires Lower(a) == Lower(b)
    ensures FallbackLimit(a) == FallbackLimit(b)
  {
  }

  /** The name mentions none of the families the table knows. Every pattern of
      the table contains one of these six words. */
  predicate UnknownFamily(m: string)
  {
    !Contains(m, "gpt-4") && !Contains(m, "gpt-3.5-turbo") && !Contains(m, "claude")
    && !Contains(m, "llama") && !Contains(m, "mistral") && !Contains(m, "mixtral")
  }

  /** If `m` lacks `short` it lacks every pattern that starts with `short`. */
  lemma LacksLonger(m: string, short: string, long: string)
    requires StartsWith(long, short) && !Contains(m, short)
    ensures !Contains(m, long)
  {
    if Contains(m, long) {
      ContainsTransitive(m, long, short);
    }
  }

  /** None of the OpenAI or Anthropic rows of the table matches `m`. */
  predicate NoCloudPattern(m: string)
  {
    !Contains(m, "gpt-4-turbo") && !Contains(m, "gpt-4-1106") && !Contains(m, "gpt-4-32k")
    && !Contains(m, "gpt-4") && !Contains(m, "gpt-3.5-turbo-16k") && !Contains(m, "gpt-3.5-turbo")
    && !Contains(m, "claude-3-opus") && !Contains(m, "claude-3-sonnet") && !Contains(m, "claude-3-haiku")
    && !Contains(m, "claude-2") && !Contains(m, "claude")
  }

  /** Lacking the three family words, a name lacks every cloud row. */
  lemma LacksCloudRows(m: string)
    requires !Contains(m, "gpt-4") && !Contains(m, "gpt-3.5-turbo") && !Contains(m, "claude")
    ensures NoCloudPattern(m)
  {
    LacksLonger(m, "gpt-4", "gpt-4-turbo");
    LacksLonger(m, "gpt-4", "gpt-4-1106");
    LacksLonger(m, "gpt-4", "gpt-4-32k");
    LacksLonger(m, "gpt-3.5-turbo", "gpt-3.5-turbo-16k");
    LacksLonger(m, "claude", "claude-3-opus");
    LacksLonger(m, "claude", "claude-3-sonnet");
    LacksLonger(m, "claude", "claude-3-haiku");
    LacksLonger(m, "claude", "claude-2");
  }

  /** A name outside every known family gets the default 8192. */
  lemma FallbackDefault(model: string)
    requires UnknownFamily(Lower(model))
    ensures FallbackLimit(model) == 8192
  {
    LacksCloudRows(Lower(model));
  }

  /** An earlier row wins: a `gpt-4-turbo` name is not read as plain `gpt-4`. */
  lemma FallbackTurboBeforeGpt4(model: string)
    requires Contains(Lower(model), "gpt-4-turbo")
    ensures Contains(Lower(model), "gpt-4")
    ensures FallbackLimit(model) == 128000
  {
    ContainsTransitive(Lower(model), "gpt-4-turbo", "gpt-4");
  }

  /** Local model families: 32768 for a `32k` name, 16384 for a `16k` name,
      8192 otherwise, provided no OpenAI or Anthropic pattern comes first. */
  lemma FallbackLocalModels(model: string)
    requires var m := Lower(model);
      (Contains(m, "llama") || Contains(m, "mistral") || Contains(m, "mixtral"))
      && !Contains(m, "gpt-4") && !Contains(m, "gpt-3.5-turbo") && !Contains(m, "claude")
    ensures var m := Lower(model);
      FallbackLimit(model) == if Contains(m, "32k") then 32768 else if Contains(m, "16k") then 16384 else 8192
  {
    LacksCloudRows(Lower(model));
  }

  /** What `model_info(model)` returns for a model a provider knows: the value
      at `limit.context`, `None` when that key or `limit` is missing. */
  datatype ModelInfo = ModelInfo(context: Option<int>)

  /** A provider of the host registry. `hasModelInfo` is whether the provider
      object offers `model_info` at all; `models` holds the models for which
      `model_info` returns a non-empty record. */
  datatype Provider = Provider(name: string, hasModelInfo: bool, models: map<string, ModelInfo>)

  /** The context limit `p` advertises for `model`, when it is truthy (non-zero). */
  function Advertised(p: Provider, model: string): Option<int>
  {
    if p.hasModelInfo && model in p.models && p.models[model].context.Some? && p.models[model].context.value != 0
    then p.models[model].context
    else None
  }

  /** `get_provider(name)`: the registry entry with that name, if any. */
  function FindProvider(registry: seq<Provider>, name: string): (r: Option<Provider>)
    ensures r.Some? ==> r.value in registry && r.value.name == name
    ensures r.None? ==> forall p :: p in registry ==> p.name != name
  {
    if registry == [] then None
    else if registry[0].name == name then Some(registry[0])
    else FindProvider(registry[1..], name)
  }

  /** The first truthy advertised limit, in registry order. */
  function FirstAdvertised(registry: seq<Provider>, model: string): Option<int>
  {
    if registry == [] then None
    else if Advertised(registry[0], model).Some? then Advertised(registry[0], model)
    else FirstAdvertised(registry[1..], model)
  }

  /** The metadata answer: the named provider's (a non-empty name only),
      otherwise the first provider in the registry that advertises one. */
  function MetadataLimit(registry: seq<Provider>, providerName: string, model: string): Option<int>
  {
    var named := if providerName != "" then FindProvider(registry, providerName) else None;
    if named.Some? && Advertised(named.value, model).Some? then Advertised(named.value, model)
    else FirstAdvertised(registry, model)
  }

  /** What `get_model_context_limit` returns. */
  function ContextLimit(registry: seq<Provider>, providerName: string, model: string): int
  {
    match MetadataLimit(registry, providerName, model)
    case Some(v) => v
    case None => FallbackLimit(model)
  }

  /** Resolution of the context limit: the named provider, then every provider
      in turn, then the fallback table. */
  method GetModelContextLimit(registry: seq<Provider>, providerName: string, model: string)
    returns (limit: int)
    ensures limit == ContextLimit(registry, providerName, model)
  {
    if providerName != "" {
      var named := FindProvider(registry, providerName);
      if named.Some? {
        var advertised := Advertised(named.value, model);
        if advertised.Some? {
          return advertised.value;
        }
      }
    }
    var i := 0;
    while i < |registry|
      invariant 0 <= i <= |registry|
      invariant FirstAdvertised(registry, model) == FirstAdvertised(registry[i..], model)
    {
      var advertised := Advertised(registry[i], model);
      if advertised.Some? {
        return advertised.value;
      }
      assert registry[i..][1..] == registry[i + 1..];
      i := i + 1;
    }
    return FallbackLimit(model);
  }

  /** The first advertised value comes from some provider and is truthy. */
  lemma {:induction false} FirstAdvertisedFound(registry: seq<Provider>, model: string)
    ensures FirstAdvertised(registry, model).Some? ==>
      FirstAdvertised(registry, model).value != 0
      && exists p :: p in registry && Advertised(p, model) == FirstAdvertised(registry, model)
  {
    if registry != [] && Advertised(registry[0], model).None? {
      FirstAdvertisedFound(registry[1..], model);
      if FirstAdvertised(registry[1..], model).Some? {
        var p :| p in registry[1..] && Advertised(p, model) == FirstAdvertised(registry[1..], model);
        assert p in registry;
      }
    }
  }

  /** When no provider advertises a limit, the first-found search finds nothing. */
  lemma {:induction false} FirstAdvertisedNone(registry: seq<Provider>, model: string)
    requires forall p :: p in registry ==> Advertised(p, model).None?
    ensures FirstAdvertised(registry, model).None?
  {
    if registry != [] {
      assert registry[0] in registry;
      FirstAdvertisedNone(registry[1..], model);
    }
  }

  /** The scan returns the limit of the first provider, in registry order,
      that advertises one: providers before it advertise nothing. */
  lemma {:induction false} FirstAdvertisedIsFirst(registry: seq<Provider>, model: string, i: nat)
    requires i < |registry| && Advertised(registry[i], model).Some?
    requires forall j :: 0 <= j < i ==> Advertised(registry[j], model).None?
    ensures FirstAdvertised(registry, model) == Advertised(registry[i], model)
  {
    if i > 0 {
      FirstAdvertisedIsFirst(registry[1..], model, i - 1);
    }
  }

  /** A limit advertised by any provider is found by the scan. */
  lemma AdvertisedIsFound(registry: seq<Provider>, model: string, p: Provider)
    requires p in registry && Advertised(p, model).Some?
    ensures FirstAdvertised(registry, model).Some?
  {
    if FirstAdvertised(registry, model).None? {
      var k :| 0 <= k < |registry| && registry[k] == p;
      FirstAdvertisedNoneMeansNone(registry, model, k);
    }
  }

  /** When the scan finds nothing, no provider advertises a limit. */
  lemma {:induction false} FirstAdvertisedNoneMeansNone(registry: seq<Provider>, model: string, k: nat)
    requires k < |registry| && FirstAdvertised(registry, model).None?
    ensures Advertised(registry[k], model).None?
  {
    if k > 0 {
      FirstAdvertisedNoneMeansNone(registry[1..], model, k - 1);
    }
  }

  /** The resolved limit is never zero, so the caller's zero check cannot fire. */
  lemma ContextLimitNonZero(registry: seq<Provider>, providerName: string, model: string)
    ensures ContextLimit(registry, providerName, model) != 0
  {
    FirstAdvertisedFound(registry, model);
  }

  /** When every advertised limit is non-negative, the resolved limit is positive. */
  lemma ContextLimitPositive(registry: seq<Provider>, providerName: string, model: string)
    requires forall p, m :: p in registry && m in p.models && p.models[m].context.Some? ==> p.models[m].context.value >= 0
    ensures ContextLimit(registry, providerName, model) > 0
  {
    FirstAdvertisedFound(registry, model);
  }

  /** A truthy limit advertised by the named provider is returned as it is. */
  lemma NamedProviderWins(registry: seq<Provider>, providerName: string, model: string, p: Provider)
    requires providerName != "" && FindProvider(registry, providerName) == Some(p)
    requires Advertised(p, model).Some?
    ensures ContextLimit(registry, providerName, model) == Advertised(p, model).value
  {
  }

  /** With no truthy metadata anywhere, the result is exactly the fallback estimate. */
  lemma NoMetadataFallsBack(registry: seq<Provider>, providerName: string, model: string)
    requires forall p :: p in registry ==> Advertised(p, model).None?
    ensures ContextLimit(registry, providerName, model) == FallbackLimit(model)
  {
    FirstAdvertisedNone(registry, model);
  }

  /** Any metadata answer is a truthy value that some provider advertises. */
  lemma MetadataComesFromRegistry(registry: seq<Provider>, providerName: string, model: string)
    requires MetadataLimit(registry, providerName, model).Some?
    ensures MetadataLimit(registry, providerName, model).value != 0
    ensures exists p :: p in registry && Advertised(p, model) == MetadataLimit(registry, providerName, model)
  {
    FirstAdvertisedFound(registry, model);
  }
}
