/** The registry of OpenAI-compatible API providers: a dictionary of provider entries
    keyed by id, a fixed table of well-known providers that can be added by key, and
    the rule that picks a provider for a model name. */
module Providers {
  import opened Wrappers
  import opened Text
  import opened Seqs
  import opened Models
  import opened Dicts

  // ---------------------------------------------------------------- the table of known providers

  /** A row of the table of well-known providers (every row's default key is empty). */
  datatype DefaultEntry = DefaultEntry(key: string, name: string, providerType: APIProviderType, apiBase: string)

  /** The only key that is usable, and enabled, without an API key. */
  const LocalKey: string := "ollama"

  /** The table, in its listed order. */
  const DefaultProviders: seq<DefaultEntry> := [
    DefaultEntry("ollama", "Ollama (Local)", Ollama, "http://localhost:11434/v1"),
    DefaultEntry("openai", "OpenAI", OpenAI, "https://api.openai.com/v1"),
    DefaultEntry("anthropic", "Anthropic (Claude)", Anthropic, "https://api.anthropic.com/v1"),
    DefaultEntry("groq", "Groq", Groq, "https://api.groq.com/openai/v1"),
    DefaultEntry("xai", "xAI (Grok)", XAI, "https://api.x.ai/v1"),
    DefaultEntry("together", "Together AI", Together, "https://api.together.xyz/v1"),
    DefaultEntry("mistral", "Mistral AI", Mistral, "https://api.mistral.ai/v1"),
    DefaultEntry("openrouter", "OpenRouter", OpenRouter, "https://openrouter.ai/api/v1")
  ]

  /** The table row with key `key`. */
  function TableEntry(table: seq<DefaultEntry>, key: string): (r: Option<DefaultEntry>)
    ensures r.Some? ==> r.value in table && r.value.key == key
    ensures r.None? <==> forall e :: e in table ==> e.key != key
  {
    if table == [] then None
    else if table[0].key == key then Some(table[0])
    else TableEntry(table[1..], key)
  }

  /** The entry `add_preset_provider` stores for a table key, enabled iff an API key is
      given or the key is the local one. */
  function PresetProvider(key: string, apiKey: string): (r: Option<APIProvider>)
    ensures r.Some? <==> exists e :: e in DefaultProviders && e.key == key
    ensures r.Some? ==> r.value.id == key && r.value.apiKey == apiKey && r.value.models == []
    ensures r.Some? ==> (r.value.enabled <==> apiKey != "" || key == LocalKey)
    ensures r.Some? ==> exists e :: e in DefaultProviders && e.key == key && r.value.name == e.name
                                      && r.value.providerType == e.providerType && r.value.apiBase == e.apiBase
  {
    EntryFrom(DefaultProviders, key, apiKey)
  }

  /** The entry built from the row of `table` with key `key`. */
  function EntryFrom(table: seq<DefaultEntry>, key: string, apiKey: string): (r: Option<APIProvider>)
    ensures r.Some? <==> exists e :: e in table && e.key == key
    ensures r.Some? ==> r.value.id == key && r.value.apiKey == apiKey && r.value.models == []
    ensures r.Some? ==> (r.value.enabled <==> apiKey != "" || key == LocalKey)
    ensures r.Some? ==> exists e :: e in table && e.key == key && r.value.name == e.name
                                      && r.value.providerType == e.providerType && r.value.apiBase == e.apiBase
  {
    match TableEntry(table, key)
    case None => None
    case Some(e) => Some(APIProvider(key, e.name, e.providerType, e.apiBase, apiKey, apiKey != "" || key == LocalKey, []))
  }

  /** What `get_available_presets` lists for one table row. */
  datatype PresetOffer = PresetOffer(key: string, name: string, providerType: APIProviderType, apiBase: string, requiresKey: bool)

  function OfferOf(e: DefaultEntry): PresetOffer {
    PresetOffer(e.key, e.name, e.providerType, e.apiBase, e.key != LocalKey)
  }

  /** The rows of `table` whose key is not configured yet, in table order. */
  function Offers(table: seq<DefaultEntry>, configured: set<string>): (r: seq<PresetOffer>)
    ensures IsSubsequence(r, seq(|table|, i requires 0 <= i < |table| => OfferOf(table[i])))
    ensures forall o :: o in r <==> exists e :: e in table && e.key !in configured && o == OfferOf(e)
    ensures forall o :: o in r ==> o.key !in configured && (o.requiresKey <==> o.key != LocalKey)
  {
    if table == [] then []
    else
      var prefix := table[..|table| - 1];
      var e := table[|table| - 1];
      var rest := Offers(prefix, configured);
      var all := seq(|table|, i requires 0 <= i < |table| => OfferOf(table[i]));
      var allPrefix := seq(|prefix|, i requires 0 <= i < |prefix| => OfferOf(prefix[i]));
      assert all == allPrefix + [OfferOf(e)];
      assert table == prefix + [e];
      if e.key !in configured then
        SubsequenceSnoc(rest, allPrefix, OfferOf(e));
        rest + [OfferOf(e)]
      else
        SubsequenceExtend(rest, allPrefix, OfferOf(e));
        rest
  }

  /** One more table row adds its offer exactly when its key is not configured. */
  lemma OffersStep(table: seq<DefaultEntry>, configured: set<string>, i: nat)
    requires i < |table|
    ensures Offers(table[..i + 1], configured)
            == Offers(table[..i], configured) + (if table[i].key !in configured then [OfferOf(table[i])] else [])
  {
    var p := table[..i + 1];
    assert p[..|p| - 1] == table[..i] && p[|p| - 1] == table[i];
  }

  // ---------------------------------------------------------------- provider entries

  /** Every entry is stored under its own id. */
  ghost predicate Keyed(providers: Dict<string, APIProvider>) {
    providers.Valid() && forall k :: k in providers.items ==> providers.items[k].id == k
  }

  /** Storing an entry under its own id keeps every entry under its own id. */
  lemma PutKeyed(providers: Dict<string, APIProvider>, p: APIProvider)
    requires Keyed(providers)
    ensures Keyed(providers.Put(p.id, p))
  {
  }

  /** Without trailing slashes (`rstrip("/")`). */
  function NormalizedBase(apiBase: string): (r: string)
    ensures |r| <= |apiBase| && r == apiBase[..|r|]
    ensures r == [] || r[|r| - 1] != '/'
    ensures forall i :: |r| <= i < |apiBase| ==> apiBase[i] == '/'
  {
    TrimRight(apiBase, {'/'})
  }

  /** An entry after `update_provider`: only the fields passed change. */
  function Patched(p: APIProvider, name: Option<string>, apiBase: Option<string>,
                   apiKey: Option<string>, enabled: Option<bool>): (q: APIProvider)
    ensures q.id == p.id && q.providerType == p.providerType && q.models == p.models
    ensures q.name == if name.Some? then name.value else p.name
    ensures q.apiBase == if apiBase.Some? then NormalizedBase(apiBase.value) else p.apiBase
    ensures q.apiKey == if apiKey.Some? then apiKey.value else p.apiKey
    ensures q.enabled == if enabled.Some? then enabled.value else p.enabled
  {
    var p1 := if name.Some? then p.(name := name.value) else p;
    var p2 := if apiBase.Some? then p1.(apiBase := NormalizedBase(apiBase.value)) else p1;
    var p3 := if apiKey.Some? then p2.(apiKey := apiKey.value) else p2;
    if enabled.Some? then p3.(enabled := enabled.value) else p3
  }

  /** An update that passes nothing leaves the entry as it was. */
  lemma PatchWithNothing(p: APIProvider)
    ensures Patched(p, None, None, None, None) == p
  {
  }

  /** The enabled entries, in order. */
  function Enabled(ps: seq<APIProvider>): (r: seq<APIProvider>)
    ensures IsSubsequence(r, ps)
    ensures forall p :: p in r <==> p in ps && p.enabled
  {
    if ps == [] then []
    else
      var rest := Enabled(ps[1..]);
      assert ps == [ps[0]] + ps[1..];
      if ps[0].enabled then
        SubsequenceCons(ps[0], rest, ps[1..]);
        [ps[0]] + rest
      else
        SubsequenceSkip(rest, ps);
        rest
  }

  /** The dictionary `_init_default_providers` creates: the local provider alone, enabled. */
  function InitialProviders(): (d: Dict<string, APIProvider>)
    ensures Keyed(d)
    ensures d.keys == [LocalKey] && d.items[LocalKey].enabled
    ensures PresetProvider(LocalKey, "") == Some(d.items[LocalKey])
  {
    Dict.Empty().Put(LocalKey, APIProvider(LocalKey, "Ollama (Local)", Ollama, "http://localhost:11434/v1", "", true, []))
  }

  /** A fresh install offers every known provider but the local one, and each needs a key. */
  lemma InitialOffersNeedKeys()
    ensures forall o :: o in Offers(DefaultProviders, InitialProviders().items.Keys) ==> o.requiresKey
    ensures forall e :: e in DefaultProviders && e.key != LocalKey ==>
              OfferOf(e) in Offers(DefaultProviders, InitialProviders().items.Keys)
  {
    var configured := InitialProviders().items.Keys;
    assert configured == {LocalKey};
    OffersBeyondLocal(DefaultProviders, configured);
  }

  /** With only the local provider configured, every other row is offered, and needs a key. */
  lemma OffersBeyondLocal(table: seq<DefaultEntry>, configured: set<string>)
    requires configured == {LocalKey}
    ensures forall o :: o in Offers(table, configured) ==> o.requiresKey
    ensures forall e :: e in table && e.key != LocalKey ==> OfferOf(e) in Offers(table, configured)
  {
    var offers := Offers(table, configured);
    forall e | e in table && e.key != LocalKey ensures OfferOf(e) in offers {
      assert e.key !in configured;
    }
  }

  // ---------------------------------------------------------------- choosing a provider for a model

  /** The first entry whose cached model list holds `modelId`. */
  function FirstCaching(ps: seq<APIProvider>, modelId: string): (r: Option<APIProvider>)
    ensures r.Some? ==> r.value in ps && modelId in r.value.models
    ensures r.None? <==> forall p :: p in ps ==> modelId !in p.models
  {
    if ps == [] then None
    else if modelId in ps[0].models then Some(ps[0])
    else FirstCaching(ps[1..], modelId)
  }

  /** The first entry of one of the given kinds. */
  function FirstOfTypes(ps: seq<APIProvider>, types: set<APIProviderType>): (r: Option<APIProvider>)
    ensures r.Some? ==> r.value in ps && r.value.providerType in types
    ensures r.None? <==> forall p :: p in ps ==> p.providerType !in types
  {
    if ps == [] then None
    else if ps[0].providerType in types then Some(ps[0])
    else FirstOfTypes(ps[1..], types)
  }

  const MistralTypes: set<APIProviderType> := {Mistral, Groq, Together}
  const LlamaTypes: set<APIProviderType> := {Ollama, Groq, Together}

  /** A lowercase model name that is routed to one fixed provider id, enabled or not. */
  predicate NamedRoute(lower: string) {
    Contains(lower, "claude") || Contains(lower, "gpt") || Contains(lower, "o1") || Contains(lower, "grok")
  }

  /** The values of the dictionary are exactly its stored entries. */
  lemma ValuesAreStored(providers: Dict<string, APIProvider>)
    requires providers.Valid()
    ensures forall p :: p in providers.Values() ==> exists k :: k in providers.items && providers.items[k] == p
  {
    var vs := providers.Values();
    forall p | p in vs ensures exists k :: k in providers.items && providers.items[k] == p {
      var j :| 0 <= j < |vs| && vs[j] == p;
      assert providers.keys[j] in providers.items;
    }
  }

  /** The name rules of `get_provider_for_model` on the lowercase model name `m`, applied
      when no enabled provider caches the model; `enabled` are the enabled entries. */
  function ByName(providers: Dict<string, APIProvider>, enabled: seq<APIProvider>, m: string): (r: Option<APIProvider>)
    ensures r.Some? ==> r.value in enabled || (NamedRoute(m) && exists k :: k in providers.items && providers.items[k] == r.value)
    ensures r.None? ==> enabled == [] || NamedRoute(m)
  {
    if Contains(m, "claude") then providers.Get("anthropic")
    else if Contains(m, "gpt") || Contains(m, "o1") then providers.Get("openai")
    else if Contains(m, "grok") then providers.Get("xai")
    else
      var routed :=
        if Contains(m, "mixtral") || Contains(m, "mistral") then FirstOfTypes(enabled, MistralTypes)
        else if Contains(m, "llama") then FirstOfTypes(enabled, LlamaTypes)
        else None;
      if routed.Some? then routed
      else if enabled != [] then Some(enabled[0])
      else None
  }

  /** `get_provider_for_model`: a provider caching the model, else the name rules in
      order, else the first enabled provider. */
  function ProviderForModel(providers: Dict<string, APIProvider>, modelId: string): (r: Option<APIProvider>)
    requires providers.Valid()
    ensures r.Some? && !r.value.enabled ==> NamedRoute(Lower(modelId))
    ensures r.None? ==> Enabled(providers.Values()) == [] || NamedRoute(Lower(modelId))
  {
    var enabled := Enabled(providers.Values());
    var cached := FirstCaching(enabled, modelId);
    if cached.Some? then cached else ByName(providers, enabled, Lower(modelId))
  }

  /** Whatever provider is chosen is one of the configured entries. */
  lemma ChosenProviderIsConfigured(providers: Dict<string, APIProvider>, modelId: string)
    requires providers.Valid()
    ensures ProviderForModel(providers, modelId).Some? ==>
              exists k :: k in providers.items && providers.items[k] == ProviderForModel(providers, modelId).value
  {
    ValuesAreStored(providers);
  }

  /** A provider whose cached model list holds the model is always preferred: the answer is
      then an enabled provider that caches it. */
  lemma CachedModelWins(providers: Dict<string, APIProvider>, modelId: string, p: APIProvider)
    requires providers.Valid()
    requires p in Enabled(providers.Values()) && modelId in p.models
    ensures ProviderForModel(providers, modelId).Some?
    ensures ProviderForModel(providers, modelId).value.enabled
    ensures modelId in ProviderForModel(providers, modelId).value.models
    ensures ProviderForModel(providers, modelId) == FirstCaching(Enabled(providers.Values()), modelId)
  {
  }

  /** No enabled provider caches the model, so the name rules decide. */
  ghost predicate Uncached(providers: Dict<string, APIProvider>, modelId: string)
    requires providers.Valid()
  {
    forall p :: p in Enabled(providers.Values()) ==> modelId !in p.models
  }

  /** The fallback: the first enabled provider, if any. */
  function FirstEnabled(providers: Dict<string, APIProvider>): (r: Option<APIProvider>)
    requires providers.Valid()
    ensures r.None? <==> Enabled(providers.Values()) == []
    ensures r.Some? ==> r.value == Enabled(providers.Values())[0]
  {
    var enabled := Enabled(providers.Values());
    if enabled == [] then None else Some(enabled[0])
  }

  /** A "gpt" or "o1" model that is not a "claude" one and that no provider caches goes to
      the "openai" entry, whether or not it exists or is enabled. */
  lemma GptGoesToOpenAI(providers: Dict<string, APIProvider>, modelId: string)
    requires providers.Valid() && Uncached(providers, modelId)
    requires !Contains(Lower(modelId), "claude")
    requires Contains(Lower(modelId), "gpt") || Contains(Lower(modelId), "o1")
    ensures ProviderForModel(providers, modelId) == providers.Get("openai")
  {
  }

  /** A "grok" model matching none of the earlier names goes to the "xai" entry. */
  lemma GrokGoesToXai(providers: Dict<string, APIProvider>, modelId: string)
    requires providers.Valid() && Uncached(providers, modelId)
    requires !Contains(Lower(modelId), "claude") && !Contains(Lower(modelId), "gpt") && !Contains(Lower(modelId), "o1")
    requires Contains(Lower(modelId), "grok")
    ensures ProviderForModel(providers, modelId) == providers.Get("xai")
  {
  }

  /** A "mistral" or "mixtral" model matching no fixed route goes to the first enabled
      Mistral, Groq or Together provider, and to the first enabled provider when there is
      none of those. */
  lemma MistralPrefersListedTypes(providers: Dict<string, APIProvider>, modelId: string)
    requires providers.Valid() && Uncached(providers, modelId)
    requires !NamedRoute(Lower(modelId))
    requires Contains(Lower(modelId), "mistral") || Contains(Lower(modelId), "mixtral")
    ensures var r := ProviderForModel(providers, modelId);
            && ((exists p :: p in Enabled(providers.Values()) && p.providerType in MistralTypes) ==>
                  r == FirstOfTypes(Enabled(providers.Values()), MistralTypes))
            && ((forall p :: p in Enabled(providers.Values()) ==> p.providerType !in MistralTypes) ==>
                  r == FirstEnabled(providers))
  {
  }

  /** A "llama" model matching no earlier name goes to the first enabled Ollama, Groq or
      Together provider, and to the first enabled provider when there is none of those. */
  lemma LlamaPrefersListedTypes(providers: Dict<string, APIProvider>, modelId: string)
    requires providers.Valid() && Uncached(providers, modelId)
    requires !NamedRoute(Lower(modelId))
    requires !Contains(Lower(modelId), "mistral") && !Contains(Lower(modelId), "mixtral")
    requires Contains(Lower(modelId), "llama")
    ensures var r := ProviderForModel(providers, modelId);
            && ((exists p :: p in Enabled(providers.Values()) && p.providerType in LlamaTypes) ==>
                  r == FirstOfTypes(Enabled(providers.Values()), LlamaTypes))
            && ((forall p :: p in Enabled(providers.Values()) ==> p.providerType !in LlamaTypes) ==>
                  r == FirstEnabled(providers))
  {
  }

  /** Any other uncached model goes to the first enabled provider, or to none. */
  lemma OtherNamesGoToFirstEnabled(providers: Dict<string, APIProvider>, modelId: string)
    requires providers.Valid() && Uncached(providers, modelId)
    requires !NamedRoute(Lower(modelId))
    requires !Contains(Lower(modelId), "mistral") && !Contains(Lower(modelId), "mixtral")
    requires !Contains(Lower(modelId), "llama")
    ensures ProviderForModel(providers, modelId) == FirstEnabled(providers)
  {
  }

  /** A "claude" model that no provider caches goes to the "anthropic" entry, even when
      that entry is missing or disabled and other providers are enabled. */
  lemma ClaudeHasNoFallback(providers: Dict<string, APIProvider>, modelId: string)
    requires providers.Valid()
    requires forall p :: p in Enabled(providers.Values()) ==> modelId !in p.models
    requires Contains(Lower(modelId), "claude")
    ensures ProviderForModel(providers, modelId) == providers.Get("anthropic")
  {
  }

  /** Any model name is served as long as some provider is enabled, unless it is routed to
      a fixed provider id. */
  lemma SomeProviderServes(providers: Dict<string, APIProvider>, modelId: string)
    requires providers.Valid()
    requires Enabled(providers.Values()) != [] && !NamedRoute(Lower(modelId))
    ensures ProviderForModel(providers, modelId).Some?
    ensures ProviderForModel(providers, modelId).value.enabled
  {
  }

  // ---------------------------------------------------------------- the service

  class ProviderService {
    var providers: Dict<string, APIProvider>

    ghost predicate Valid()
      reads this
    {
      Keyed(providers)
    }

    /** Starts from the entries read back from the providers file, or from the default
        entry when there is no readable file (reading and parsing are not modelled). */
    constructor(stored: Option<seq<APIProvider>>)
      ensures Valid()
      ensures providers == if stored.Some? then FromList(stored.value, (p: APIProvider) => p.id) else InitialProviders()
    {
      if stored.Some? {
        providers := FromList(stored.value, (p: APIProvider) => p.id);
      } else {
        providers := InitialProviders();
      }
    }

    method GetAllProviders() returns (all: seq<APIProvider>)
      requires Valid()
      ensures all == providers.Values()
    {
      all := providers.Values();
    }

    method GetEnabledProviders() returns (enabled: seq<APIProvider>)
      requires Valid()
      ensures enabled == Enabled(providers.Values())
    {
      enabled := Enabled(providers.Values());
    }

    method GetProvider(id: string) returns (r: Option<APIProvider>)
      requires Valid()
      ensures r == providers.Get(id)
    {
      r := providers.Get(id);
    }

    /** Adds an enabled provider under the fresh `id` (a random UUID in the program). */
    method AddProvider(id: string, name: string, providerType: APIProviderType, apiBase: string, apiKey: string)
      returns (p: APIProvider)
      requires Valid()
      modifies this
      ensures Valid()
      ensures p == APIProvider(id, name, providerType, NormalizedBase(apiBase), apiKey, true, [])
      ensures providers == old(providers).Put(id, p)
    {
      p := APIProvider(id, name, providerType, NormalizedBase(apiBase), apiKey, true, []);
      providers := providers.Put(id, p);
    }

    /** Adds, or overwrites, the entry for a key of the table; an unknown key changes nothing. */
    method AddPresetProvider(presetKey: string, apiKey: string) returns (r: Option<APIProvider>)
      requires Valid()
      modifies this
      ensures Valid()
      ensures r == PresetProvider(presetKey, apiKey)
      ensures providers == if r.Some? then old(providers).Put(presetKey, r.value) else old(providers)
    {
      r := PresetProvider(presetKey, apiKey);
      if r.Some? {
        PutKeyed(providers, r.value);
        providers := providers.Put(presetKey, r.value);
      }
    }

    method UpdateProvider(id: string, name: Option<string>, apiBase: Option<string>,
                          apiKey: Option<string>, enabled: Option<bool>)
      returns (r: Option<APIProvider>)
      requires Valid()
      modifies this
      ensures Valid()
      ensures r.None? <==> id !in old(providers.items)
      ensures r.Some? ==> r.value == Patched(old(providers.items[id]), name, apiBase, apiKey, enabled)
      ensures providers == if r.Some? then old(providers).Put(id, r.value) else old(providers)
    {
      if id !in providers.items {
        return None;
      }
      var p := Patched(providers.items[id], name, apiBase, apiKey, enabled);
      providers := providers.Put(id, p);
      r := Some(p);
    }

    method DeleteProvider(id: string) returns (deleted: bool)
      requires Valid()
      modifies this
      ensures Valid()
      ensures deleted <==> id in old(providers.items)
      ensures providers == if deleted then old(providers).Remove(id) else old(providers)
    {
      if id in providers.items {
        providers := providers.Remove(id);
        return true;
      }
      return false;
    }

    method ToggleProvider(id: string) returns (r: Option<APIProvider>)
      requires Valid()
      modifies this
      ensures Valid()
      ensures r.None? <==> id !in old(providers.items)
      ensures r.Some? ==> r.value == old(providers.items[id]).(enabled := !old(providers.items[id]).enabled)
      ensures providers == if r.Some? then old(providers).Put(id, r.value) else old(providers)
    {
      if id !in providers.items {
        return None;
      }
      var p := providers.items[id];
      p := p.(enabled := !p.enabled);
      providers := providers.Put(id, p);
      r := Some(p);
    }

    /** The first enabled provider of one of `types`. */
    method FirstEnabledOfTypes(types: set<APIProviderType>) returns (r: Option<APIProvider>)
      requires Valid()
      ensures r == FirstOfTypes(Enabled(providers.Values()), types)
    {
      var enabled := GetEnabledProviders();
      var j := 0;
      while j < |enabled|
        invariant j <= |enabled|
        invariant FirstOfTypes(enabled[j..], types) == FirstOfTypes(enabled, types)
      {
        if enabled[j].providerType in types {
          return Some(enabled[j]);
        }
        assert enabled[j..][1..] == enabled[j + 1..];
        j := j + 1;
      }
      return None;
    }

    method GetProviderForModel(modelId: string) returns (r: Option<APIProvider>)
      requires Valid()
      ensures r == ProviderForModel(providers, modelId)
    {
      var enabled := GetEnabledProviders();
      var i := 0;
      while i < |enabled|
        invariant i <= |enabled|
        invariant FirstCaching(enabled[i..], modelId) == FirstCaching(enabled, modelId)
      {
        if modelId in enabled[i].models {
          assert FirstCaching(enabled[i..], modelId) == Some(enabled[i]);
          return Some(enabled[i]);
        }
        assert enabled[i..][1..] == enabled[i + 1..];
        i := i + 1;
      }
      assert enabled[i..] == [];
      r := RouteByName(Lower(modelId));
    }

    /** The name rules, tried in order, then the first enabled provider. */
    method RouteByName(m: string) returns (r: Option<APIProvider>)
      requires Valid()
      ensures r == ByName(providers, Enabled(providers.Values()), m)
    {
      if Contains(m, "claude") {
        return providers.Get("anthropic");
      } else if Contains(m, "gpt") || Contains(m, "o1") {
        return providers.Get("openai");
      } else if Contains(m, "grok") {
        return providers.Get("xai");
      } else if Contains(m, "mixtral") || Contains(m, "mistral") {
        r := FirstEnabledOfTypes(MistralTypes);
        if r.Some? {
          return r;
        }
      } else if Contains(m, "llama") {
        r := FirstEnabledOfTypes(LlamaTypes);
        if r.Some? {
          return r;
        }
      }
      var enabled := GetEnabledProviders();
      r := if enabled != [] then Some(enabled[0]) else None;
    }

    /** The table rows not configured yet, in table order. */
    method GetAvailablePresets() returns (available: seq<PresetOffer>)
      requires Valid()
      ensures available == Offers(DefaultProviders, providers.items.Keys)
    {
      available := [];
      for i := 0 to |DefaultProviders|
        invariant available == Offers(DefaultProviders[..i], providers.items.Keys)
      {
        var e := DefaultProviders[i];
        OffersStep(DefaultProviders, providers.items.Keys, i);
        if e.key !in providers.items {
          available := available + [OfferOf(e)];
        }
      }
      assert DefaultProviders[..|DefaultProviders|] == DefaultProviders;
    }
  }
}
