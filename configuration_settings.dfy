/**
 * The extension's settings façade (`ConfigurationSettingService`): typed
 * properties over the editor's `vscode-openai` settings section, the URLs and
 * request options derived from them, the reset and load of the nine provider
 * properties, and the one-time migration of five legacy keys.
 *
 * The editor's settings section is a map from key to string; a key that is
 * absent reads as `undefined`, and writing `undefined` removes the key.
 */
module ConfigurationSettings {
  import opened Wrappers

  // ---------------------------------------------------------------------------
  // Setting keys and fixed strings
  // ---------------------------------------------------------------------------

  const ServiceProviderKey := "serviceProvider"
  const BaseUrlKey := "baseUrl"
  const DefaultModelKey := "defaultModel"
  const AzureDeploymentKey := "azureDeployment"
  const ScmModelKey := "scmModel"
  const ScmDeploymentKey := "scmDeployment"
  const EmbeddingModelKey := "embeddingModel"
  const EmbeddingsDeploymentKey := "embeddingsDeployment"
  const AzureApiVersionKey := "azureApiVersion"

  /** The keys of the nine provider properties. */
  const ProviderKeys: set<string> := {
    ServiceProviderKey, BaseUrlKey, DefaultModelKey, AzureDeploymentKey, ScmModelKey,
    ScmDeploymentKey, EmbeddingModelKey, EmbeddingsDeploymentKey, AzureApiVersionKey
  }

  /** The deployment name of a provider whose deployments are not configured. */
  const SetupRequired := "setup-required"
  const DeploymentsSegment := "/deployments/"

  const VscodeOpenaiProvider := "VSCode-OpenAI"
  const AzureOpenaiProvider := "Azure-OpenAI"
  const VscodeOpenaiHost := "vscode-openai"
  const VscodeOpenaiHeader := "vscode-openai"
  const ApiKeyHeader := "api-key"
  const ApiVersionParam := "api-version"

  /** Numeric values of the editor's `UIKind` enumeration. */
  const UIKindDesktop := 1
  const UIKindWeb := 2

  // ---------------------------------------------------------------------------
  // The settings section as a value
  // ---------------------------------------------------------------------------

  type Settings = map<string, string>

  /** `getConfigValue(key)`: the stored string, or `undefined`. */
  function Lookup(s: Settings, key: string): Option<string>
  {
    if key in s then Some(s[key]) else None
  }

  /** `setConfigValue(key, value)`: a read of `key` now gives `value`. */
  function Assign(s: Settings, key: string, value: Option<string>): (r: Settings)
    ensures Lookup(r, key) == value
  {
    match value
    case None => s - {key}
    case Some(v) => s[key := v]
  }

  /** `setConfigValue(key, value)` changes no key but `key`. */
  lemma AssignFrame(s: Settings, key: string, value: Option<string>, k: string)
    requires k != key
    ensures Lookup(Assign(s, key, value), k) == Lookup(s, k)
  {
  }

  /** Two settings sections that read the same under every key are equal. */
  lemma LookupExtensional(a: Settings, b: Settings)
    requires forall k :: Lookup(a, k) == Lookup(b, k)
    ensures a == b
  {
    assert a.Keys == b.Keys by {
      forall k ensures k in a <==> k in b {
        assert Lookup(a, k) == Lookup(b, k);
      }
    }
    forall k | k in a ensures a[k] == b[k] {
      assert Lookup(a, k) == Lookup(b, k);
    }
  }

  // ---------------------------------------------------------------------------
  // The nine typed provider properties
  // ---------------------------------------------------------------------------

  datatype Property =
    | ServiceProvider | BaseUrl | DefaultModel | AzureDeployment | ScmModel
    | ScmDeployment | EmbeddingModel | EmbeddingsDeployment | AzureApiVersion

  /** The fixed setting key each property getter and setter uses. */
  function KeyOf(p: Property): (key: string)
    ensures key in ProviderKeys
  {
    match p
    case ServiceProvider => ServiceProviderKey
    case BaseUrl => BaseUrlKey
    case DefaultModel => DefaultModelKey
    case AzureDeployment => AzureDeploymentKey
    case ScmModel => ScmModelKey
    case ScmDeployment => ScmDeploymentKey
    case EmbeddingModel => EmbeddingModelKey
    case EmbeddingsDeployment => EmbeddingsDeploymentKey
    case AzureApiVersion => AzureApiVersionKey
  }

  /** The `scmModel` getter: the stored SCM model, falling back to the default model with `??`. */
  function ScmModelOf(s: Settings): (model: Option<string>)
    ensures ScmModelKey in s ==> model == Some(s[ScmModelKey])
    ensures ScmModelKey !in s ==> model == Lookup(s, DefaultModelKey)
  {
    Lookup(s, ScmModelKey).OrElse(Lookup(s, DefaultModelKey))
  }

  /** What the getter of property `p` returns. */
  function PropertyValue(s: Settings, p: Property): (v: Option<string>)
    ensures p != ScmModel ==> v == Lookup(s, KeyOf(p))
    ensures v.Some? <==> KeyOf(p) in s || (p == ScmModel && DefaultModelKey in s)
  {
    if p == ScmModel then ScmModelOf(s) else Lookup(s, KeyOf(p))
  }

  /** An empty stored SCM model is returned as is: `??` only falls back on `undefined`. */
  lemma EmptyScmModelIsKept(s: Settings)
    requires Lookup(s, ScmModelKey) == Some("")
    ensures PropertyValue(s, ScmModel) == Some("")
  {
  }

  /** Reading a property back after its setter stored a string gives that string. */
  lemma SetThenGet(s: Settings, p: Property, v: string)
    ensures PropertyValue(Assign(s, KeyOf(p), Some(v)), p) == Some(v)
  {
  }

  /** Setting a property to `undefined` reads back as `undefined`, except `scmModel`, which then reads the default model. */
  lemma UnsetThenGet(s: Settings, p: Property)
    ensures p != ScmModel ==> PropertyValue(Assign(s, KeyOf(p), None), p) == None
    ensures p == ScmModel ==> PropertyValue(Assign(s, KeyOf(p), None), p) == Lookup(s, DefaultModelKey)
  {
  }

  // ---------------------------------------------------------------------------
  // Derived getters: URLs, host, UI kind
  // ---------------------------------------------------------------------------

  /** A JavaScript template literal's rendering of `string | undefined`. */
  function Interpolate(v: Option<string>): string
  {
    v.GetOr("undefined")
  }

  /**
   * `${baseUrl}/deployments/${deployment}` unless `gate` is the sentinel
   * `setup-required`, in which case just `${baseUrl}`.
   */
  function DeploymentUrl(baseUrl: Option<string>, gate: Option<string>, deployment: Option<string>): (url: string)
    ensures Interpolate(baseUrl) <= url
    ensures url == Interpolate(baseUrl) <==> gate == Some(SetupRequired)
    ensures gate != Some(SetupRequired) ==>
              url[|Interpolate(baseUrl)|..] == DeploymentsSegment + Interpolate(deployment)
  {
    if gate != Some(SetupRequired) then
      var url := Interpolate(baseUrl) + DeploymentsSegment + Interpolate(deployment);
      assert url[|Interpolate(baseUrl)|..] == DeploymentsSegment + Interpolate(deployment);
      url
    else
      Interpolate(baseUrl)
  }

  /** The `inferenceUrl` getter: keyed and suffixed on `azureDeployment`. */
  function InferenceUrlOf(s: Settings): (url: string)
    ensures Lookup(s, AzureDeploymentKey) != Some(SetupRequired) ==>
              url == Interpolate(Lookup(s, BaseUrlKey)) + DeploymentsSegment + Interpolate(Lookup(s, AzureDeploymentKey))
    ensures Lookup(s, AzureDeploymentKey) == Some(SetupRequired) ==> url == Interpolate(Lookup(s, BaseUrlKey))
  {
    DeploymentUrl(Lookup(s, BaseUrlKey), Lookup(s, AzureDeploymentKey), Lookup(s, AzureDeploymentKey))
  }

  /** The `scmUrl` getter: keyed and suffixed on `scmDeployment`. */
  function ScmUrlOf(s: Settings): (url: string)
    ensures Lookup(s, ScmDeploymentKey) != Some(SetupRequired) ==>
              url == Interpolate(Lookup(s, BaseUrlKey)) + DeploymentsSegment + Interpolate(Lookup(s, ScmDeploymentKey))
    ensures Lookup(s, ScmDeploymentKey) == Some(SetupRequired) ==> url == Interpolate(Lookup(s, BaseUrlKey))
  {
    DeploymentUrl(Lookup(s, BaseUrlKey), Lookup(s, ScmDeploymentKey), Lookup(s, ScmDeploymentKey))
  }

  /** The `embeddingUrl` getter: keyed on `azureDeployment` but suffixed with `embeddingsDeployment`. */
  function EmbeddingUrlOf(s: Settings): (url: string)
    ensures Lookup(s, AzureDeploymentKey) != Some(SetupRequired) ==>
              url == Interpolate(Lookup(s, BaseUrlKey)) + DeploymentsSegment + Interpolate(Lookup(s, EmbeddingsDeploymentKey))
    ensures Lookup(s, AzureDeploymentKey) == Some(SetupRequired) ==> url == Interpolate(Lookup(s, BaseUrlKey))
  {
    DeploymentUrl(Lookup(s, BaseUrlKey), Lookup(s, AzureDeploymentKey), Lookup(s, EmbeddingsDeploymentKey))
  }

  /**
   * The embedding URL ignores whether `embeddingsDeployment` is itself the
   * sentinel: with `azureDeployment` configured it appends
   * `/deployments/setup-required`, and with `azureDeployment` unconfigured it
   * drops a configured embeddings deployment.
   */
  lemma EmbeddingUrlGatedOnAzureDeployment(s: Settings, azure: string, embeddings: string)
    requires azure != SetupRequired
    ensures EmbeddingUrlOf(s[AzureDeploymentKey := azure][EmbeddingsDeploymentKey := SetupRequired])
            == Interpolate(Lookup(s, BaseUrlKey)) + DeploymentsSegment + SetupRequired
    ensures EmbeddingUrlOf(s[AzureDeploymentKey := SetupRequired][EmbeddingsDeploymentKey := embeddings])
            == Interpolate(Lookup(s, BaseUrlKey))
  {
    var s1 := s[AzureDeploymentKey := azure][EmbeddingsDeploymentKey := SetupRequired];
    assert Lookup(s1, AzureDeploymentKey) == Some(azure);
    assert Lookup(s1, EmbeddingsDeploymentKey) == Some(SetupRequired);
    var s2 := s[AzureDeploymentKey := SetupRequired][EmbeddingsDeploymentKey := embeddings];
    assert Lookup(s2, AzureDeploymentKey) == Some(SetupRequired);
  }

  /** The `host` getter, given the host the editor parses out of `baseUrl`. */
  function HostOf(provider: Option<string>, baseUrlHost: string): (host: string)
    ensures provider == Some(VscodeOpenaiProvider) ==> host == VscodeOpenaiHost
    ensures provider != Some(VscodeOpenaiProvider) ==> host == baseUrlHost
  {
    if provider == Some(VscodeOpenaiProvider) then VscodeOpenaiHost else baseUrlHost
  }

  /** The `vscodeUiKind` getter over the numeric `env.uiKind`. */
  function UiKindName(uiKind: int): (name: string)
    ensures name == "desktop" <==> uiKind == UIKindDesktop
    ensures name == "web" <==> uiKind == UIKindWeb
    ensures name == "unknown" <==> uiKind != UIKindDesktop && uiKind != UIKindWeb
  {
    if uiKind == UIKindDesktop then "desktop"
    else if uiKind == UIKindWeb then "web"
    else "unknown"
  }

  // ---------------------------------------------------------------------------
  // Request headers and options
  // ---------------------------------------------------------------------------

  /** One entry of the `conversation-configuration.api-headers` setting. */
  datatype ApiHeader = ApiHeader(name: string, value: string)

  /**
   * The one name a plain JavaScript object does not store as its own key:
   * assigning to `__proto__` calls the prototype setter, which ignores a
   * string value.
   */
  const ProtoName := "__proto__"

  /** The header names that become keys of a plain object. */
  function Names(list: seq<ApiHeader>): set<string>
  {
    set i | 0 <= i < |list| && list[i].name != ProtoName :: list[i].name
  }

  /**
   * The `apiHeaders` getter: the header list folded into a plain object, left
   * to right; an entry named `__proto__` adds no key.
   */
  function HeadersOf(list: seq<ApiHeader>): (headers: map<string, string>)
    ensures headers.Keys == Names(list)
    ensures ProtoName !in headers
    decreases |list|
  {
    if list == [] then map[]
    else
      var init, last := list[..|list| - 1], list[|list| - 1];
      var added := if last.name == ProtoName then {} else {last.name};
      assert Names(list) == Names(init) + added by {
        forall n | n in Names(list) ensures n in Names(init) + added {
          var i :| 0 <= i < |list| && list[i].name != ProtoName && list[i].name == n;
          if i < |list| - 1 { assert init[i] == list[i]; }
        }
        forall n | n in Names(init) ensures n in Names(list) {
          var i :| 0 <= i < |init| && init[i].name != ProtoName && init[i].name == n;
          assert list[i] == init[i];
        }
      }
      if last.name == ProtoName then HeadersOf(init) else HeadersOf(init)[last.name := last.value]
  }

  /**
   * For a name listed more than once, the last entry in list order gives the
   * value (a `__proto__` entry gives none).
   */
  lemma {:induction false} HeadersOfLastWins(list: seq<ApiHeader>, i: nat)
    requires i < |list|
    requires forall j :: i < j < |list| ==> list[j].name != list[i].name
    ensures list[i].name != ProtoName ==> list[i].name in HeadersOf(list)
    ensures list[i].name != ProtoName ==> HeadersOf(list)[list[i].name] == list[i].value
    decreases |list|
  {
    var init := list[..|list| - 1];
    if i < |list| - 1 {
      assert init[i] == list[i];
      forall j | i < j < |init| ensures init[j].name != init[i].name {
        assert init[j] == list[j];
      }
      HeadersOfLastWins(init, i);
    }
  }

  /** The options object `getRequestConfig` resolves to. */
  datatype RequestConfig = RequestConfig(headers: map<string, string>, params: Option<map<string, Option<string>>>)

  /** `headers` is `base` spread with one more entry `name: value`, which overrides `base`'s. */
  ghost predicate ExtendsWith(headers: map<string, string>, base: map<string, string>, name: string, value: string)
  {
    && headers.Keys == base.Keys + {name}
    && name in headers && headers[name] == value
    && forall k :: k in base && k != name ==> headers[k] == base[k]
  }

  /** The text whose SHA-512 digest identifies the extension to the vscode-openai service. */
  function VersionHashInput(extensionVersion: string): string
  {
    "vscode-openai::" + extensionVersion
  }

  /** `getRequestConfig`, given the user headers, the digest, the stored API key and the API version. */
  function RequestConfigOf(provider: Option<string>, userHeaders: map<string, string>, versionHash: string,
                           apiKey: string, apiVersion: Option<string>): (config: RequestConfig)
    ensures provider == Some(VscodeOpenaiProvider) ==>
              ExtendsWith(config.headers, userHeaders, VscodeOpenaiHeader, versionHash) && config.params == None
    ensures provider == Some(AzureOpenaiProvider) ==>
              && ExtendsWith(config.headers, userHeaders, ApiKeyHeader, apiKey)
              && config.params == Some(map[ApiVersionParam := apiVersion])
    ensures provider != Some(VscodeOpenaiProvider) && provider != Some(AzureOpenaiProvider) ==>
              config.headers == userHeaders && config.params == None
  {
    if provider == Some(VscodeOpenaiProvider) then
      RequestConfig(userHeaders[VscodeOpenaiHeader := versionHash], None)
    else if provider == Some(AzureOpenaiProvider) then
      RequestConfig(userHeaders[ApiKeyHeader := apiKey], Some(map[ApiVersionParam := apiVersion]))
    else
      RequestConfig(userHeaders, None)
  }

  // ---------------------------------------------------------------------------
  // Reset and load of the provider properties
  // ---------------------------------------------------------------------------

  /** The settings after `ResetConfigurationService`. */
  function ResetSettings(s: Settings): (r: Settings)
    ensures forall p :: KeyOf(p) !in r
    ensures forall k :: k !in ProviderKeys ==> Lookup(r, k) == Lookup(s, k)
  {
    s - ProviderKeys
  }

  /** The nine arguments of `loadConfigurationService`. */
  datatype ProviderConfig = ProviderConfig(
    serviceProvider: string,
    baseUrl: string,
    defaultModel: string,
    scmModel: string,
    embeddingModel: string,
    azureDeployment: string,
    scmDeployment: string,
    embeddingsDeployment: string,
    azureApiVersion: string)

  /** The argument of `loadConfigurationService` written to property `p`. */
  function FieldOf(cfg: ProviderConfig, p: Property): string
  {
    match p
    case ServiceProvider => cfg.serviceProvider
    case BaseUrl => cfg.baseUrl
    case DefaultModel => cfg.defaultModel
    case AzureDeployment => cfg.azureDeployment
    case ScmModel => cfg.scmModel
    case ScmDeployment => cfg.scmDeployment
    case EmbeddingModel => cfg.embeddingModel
    case EmbeddingsDeployment => cfg.embeddingsDeployment
    case AzureApiVersion => cfg.azureApiVersion
  }

  /** The settings after `loadConfigurationService(cfg)` on an existing instance. */
  function LoadedSettings(s: Settings, cfg: ProviderConfig): (r: Settings)
    ensures forall p :: Lookup(r, KeyOf(p)) == Some(FieldOf(cfg, p))
    ensures forall k :: k !in ProviderKeys ==> Lookup(r, k) == Lookup(s, k)
  {
    s + map[
      ServiceProviderKey := cfg.serviceProvider,
      BaseUrlKey := cfg.baseUrl,
      DefaultModelKey := cfg.defaultModel,
      AzureDeploymentKey := cfg.azureDeployment,
      ScmModelKey := cfg.scmModel,
      ScmDeploymentKey := cfg.scmDeployment,
      EmbeddingModelKey := cfg.embeddingModel,
      EmbeddingsDeploymentKey := cfg.embeddingsDeployment,
      AzureApiVersionKey := cfg.azureApiVersion]
  }

  /** The nine setter calls of `ResetConfigurationService`, in source order, clear exactly the provider keys. */
  lemma ResetBySetters(s: Settings)
    ensures
      Assign(Assign(Assign(Assign(Assign(Assign(Assign(Assign(Assign(s,
        KeyOf(ServiceProvider), None), KeyOf(BaseUrl), None), KeyOf(DefaultModel), None), KeyOf(AzureDeployment), None),
        KeyOf(ScmModel), None), KeyOf(ScmDeployment), None), KeyOf(EmbeddingModel), None), KeyOf(EmbeddingsDeployment), None),
        KeyOf(AzureApiVersion), None)
      == ResetSettings(s)
  {
  }

  /** The nine setter calls of `loadConfigurationService`, in source order, give the loaded settings. */
  lemma LoadBySetters(s: Settings, cfg: ProviderConfig)
    ensures
      Assign(Assign(Assign(Assign(Assign(Assign(Assign(Assign(Assign(s,
        KeyOf(ServiceProvider), Some(cfg.serviceProvider)), KeyOf(BaseUrl), Some(cfg.baseUrl)),
        KeyOf(DefaultModel), Some(cfg.defaultModel)), KeyOf(AzureDeployment), Some(cfg.azureDeployment)),
        KeyOf(ScmModel), Some(cfg.scmModel)), KeyOf(ScmDeployment), Some(cfg.scmDeployment)),
        KeyOf(EmbeddingModel), Some(cfg.embeddingModel)), KeyOf(EmbeddingsDeployment), Some(cfg.embeddingsDeployment)),
        KeyOf(AzureApiVersion), Some(cfg.azureApiVersion))
      == LoadedSettings(s, cfg)
  {
  }

  /** After a reset every property getter returns `undefined`, `scmModel` included. */
  lemma ResetThenGet(s: Settings, p: Property)
    ensures PropertyValue(ResetSettings(s), p) == None
  {
    assert KeyOf(DefaultModel) !in ResetSettings(s);
  }

  /** After a load every property getter returns the loaded argument. */
  lemma LoadThenGet(s: Settings, cfg: ProviderConfig, p: Property)
    ensures PropertyValue(LoadedSettings(s, cfg), p) == Some(FieldOf(cfg, p))
  {
    assert Lookup(LoadedSettings(s, cfg), KeyOf(ScmModel)) == Some(FieldOf(cfg, ScmModel));
  }

  /** Every provider key is the key of some property. */
  lemma ProviderKeyOfSomeProperty(k: string)
    requires k in ProviderKeys
    ensures exists p :: KeyOf(p) == k
  {
    if k == ServiceProviderKey { assert KeyOf(ServiceProvider) == k; }
    else if k == BaseUrlKey { assert KeyOf(BaseUrl) == k; }
    else if k == DefaultModelKey { assert KeyOf(DefaultModel) == k; }
    else if k == AzureDeploymentKey { assert KeyOf(AzureDeployment) == k; }
    else if k == ScmModelKey { assert KeyOf(ScmModel) == k; }
    else if k == ScmDeploymentKey { assert KeyOf(ScmDeployment) == k; }
    else if k == EmbeddingModelKey { assert KeyOf(EmbeddingModel) == k; }
    else if k == EmbeddingsDeploymentKey { assert KeyOf(EmbeddingsDeployment) == k; }
    else { assert KeyOf(AzureApiVersion) == k; }
  }

  /** A load overwrites everything a reset cleared: resetting first makes no difference. */
  lemma LoadAfterReset(s: Settings, cfg: ProviderConfig)
    ensures LoadedSettings(ResetSettings(s), cfg) == LoadedSettings(s, cfg)
  {
    var a, b := LoadedSettings(ResetSettings(s), cfg), LoadedSettings(s, cfg);
    forall k ensures Lookup(a, k) == Lookup(b, k) {
      if k in ProviderKeys {
        ProviderKeyOfSomeProperty(k);
        var p :| KeyOf(p) == k;
        assert Lookup(a, KeyOf(p)) == Some(FieldOf(cfg, p));
      }
    }
    LookupExtensional(a, b);
  }

  // ---------------------------------------------------------------------------
  // The one-time migration of legacy keys
  // ---------------------------------------------------------------------------

  /** A legacy key and the key that replaces it. */
  datatype Rename = Rename(oldKey: string, newKey: string)

  /** The five renames of `_upgradeV1`, in the order they run. */
  const V1Renames: seq<Rename> := [
    Rename("prompt-editor.comment", "editor.code.comment"),
    Rename("prompt-editor.explain", "editor.code.explain"),
    Rename("prompt-editor.bounty", "editor.code.bounty"),
    Rename("prompt-editor.optimize", "editor.code.optimize"),
    Rename("prompt-editor.patterns", "editor.code.pattern")
  ]

  /** JavaScript truthiness of a `string | undefined`. */
  predicate Truthy(v: Option<string>)
  {
    v.Some? && v.value != ""
  }

  /** `upgradeConfigProperty`: a truthy legacy value moves to the new key and the legacy key is removed. */
  function UpgradeProperty(s: Settings, oldKey: string, newKey: string): (r: Settings)
    ensures !Truthy(Lookup(s, oldKey)) ==> r == s
    ensures Truthy(Lookup(s, oldKey)) ==> oldKey !in r
    ensures Truthy(Lookup(s, oldKey)) && oldKey != newKey ==> Lookup(r, newKey) == Lookup(s, oldKey)
    ensures r.Keys <= s.Keys + {newKey}
    ensures forall k :: k != oldKey && k != newKey ==> Lookup(r, k) == Lookup(s, k)
  {
    var value := Lookup(s, oldKey);
    if Truthy(value) then Assign(Assign(s, newKey, value), oldKey, None) else s
  }

  /** The keys a migration may write to. */
  function NewKeys(renames: seq<Rename>): set<string>
  {
    set i | 0 <= i < |renames| :: renames[i].newKey
  }

  /** The renames applied one after the other; they add no key other than a new key. */
  function UpgradeAll(s: Settings, renames: seq<Rename>): (r: Settings)
    ensures r.Keys <= s.Keys + NewKeys(renames)
    decreases |renames|
  {
    if renames == [] then s
    else
      assert NewKeys(renames) == {renames[0].newKey} + NewKeys(renames[1..]) by {
        forall k | k in NewKeys(renames[1..]) ensures k in NewKeys(renames) {
          var i :| 0 <= i < |renames[1..]| && renames[1..][i].newKey == k;
          assert renames[i + 1] == renames[1..][i];
        }
        forall k | k in NewKeys(renames) ensures k in {renames[0].newKey} + NewKeys(renames[1..]) {
          var i :| 0 <= i < |renames| && renames[i].newKey == k;
          if i > 0 { assert renames[1..][i - 1] == renames[i]; }
        }
      }
      UpgradeAll(UpgradeProperty(s, renames[0].oldKey, renames[0].newKey), renames[1..])
  }

  /** The settings after `_upgradeV1`. */
  function UpgradedV1(s: Settings): (r: Settings)
    ensures r.Keys <= s.Keys + {"editor.code.comment", "editor.code.explain", "editor.code.bounty",
                                "editor.code.optimize", "editor.code.pattern"}
  {
    UpgradeAll(s, V1Renames)
  }

  /** No key takes part in two renames, and no key is both a legacy and a new key. */
  ghost predicate DisjointRenames(renames: seq<Rename>)
  {
    forall i, j :: 0 <= i < |renames| && 0 <= j < |renames| ==>
      && renames[i].oldKey != renames[j].newKey
      && (i != j ==> renames[i].oldKey != renames[j].oldKey && renames[i].newKey != renames[j].newKey)
  }

  /** `k` takes part in none of the renames. */
  ghost predicate Untouched(renames: seq<Rename>, k: string)
  {
    forall i :: 0 <= i < |renames| ==> k != renames[i].oldKey && k != renames[i].newKey
  }

  /** A migration leaves every key outside the renames as it was. */
  lemma {:induction false} UpgradeAllUntouched(s: Settings, renames: seq<Rename>, k: string)
    requires Untouched(renames, k)
    ensures Lookup(UpgradeAll(s, renames), k) == Lookup(s, k)
    decreases |renames|
  {
    if renames != [] {
      var s' := UpgradeProperty(s, renames[0].oldKey, renames[0].newKey);
      assert Lookup(s', k) == Lookup(s, k);
      assert Untouched(renames[1..], k) by {
        forall i | 0 <= i < |renames[1..]|
          ensures k != renames[1..][i].oldKey && k != renames[1..][i].newKey
        {
          assert renames[1..][i] == renames[i + 1];
        }
      }
      UpgradeAllUntouched(s', renames[1..], k);
    }
  }

  /** What one rename of a disjoint migration does to its own two keys. */
  ghost predicate RenameEffect(s: Settings, r: Settings, rn: Rename)
  {
    if Truthy(Lookup(s, rn.oldKey)) then
      Lookup(r, rn.newKey) == Lookup(s, rn.oldKey) && Lookup(r, rn.oldKey) == None
    else
      Lookup(r, rn.newKey) == Lookup(s, rn.newKey) && Lookup(r, rn.oldKey) == Lookup(s, rn.oldKey)
  }

  /** Each rename of a disjoint migration moves a truthy legacy value and otherwise touches neither key. */
  lemma {:induction false} UpgradeAllMoves(s: Settings, renames: seq<Rename>, i: nat)
    requires DisjointRenames(renames)
    requires i < |renames|
    ensures RenameEffect(s, UpgradeAll(s, renames), renames[i])
    decreases |renames|
  {
    var first, rest := renames[0], renames[1..];
    var s' := UpgradeProperty(s, first.oldKey, first.newKey);
    assert UpgradeAll(s, renames) == UpgradeAll(s', rest);
    if i == 0 {
      assert Untouched(rest, first.oldKey) && Untouched(rest, first.newKey) by {
        forall j | 0 <= j < |rest| ensures first.oldKey != rest[j].oldKey && first.oldKey != rest[j].newKey
          && first.newKey != rest[j].oldKey && first.newKey != rest[j].newKey
        {
          assert rest[j] == renames[j + 1];
        }
      }
      UpgradeAllUntouched(s', rest, first.oldKey);
      UpgradeAllUntouched(s', rest, first.newKey);
    } else {
      assert DisjointRenames(rest) by {
        forall a, b | 0 <= a < |rest| && 0 <= b < |rest|
          ensures rest[a].oldKey != rest[b].newKey
          ensures a != b ==> rest[a].oldKey != rest[b].oldKey && rest[a].newKey != rest[b].newKey
        {
          assert rest[a] == renames[a + 1] && rest[b] == renames[b + 1];
        }
      }
      assert rest[i - 1] == renames[i];
      assert Lookup(s', renames[i].oldKey) == Lookup(s, renames[i].oldKey);
      assert Lookup(s', renames[i].newKey) == Lookup(s, renames[i].newKey);
      UpgradeAllMoves(s', rest, i - 1);
    }
  }

  /** Running a disjoint migration a second time changes nothing. */
  lemma UpgradeAllIdempotent(s: Settings, renames: seq<Rename>)
    requires DisjointRenames(renames)
    ensures UpgradeAll(UpgradeAll(s, renames), renames) == UpgradeAll(s, renames)
  {
    var r := UpgradeAll(s, renames);
    var r2 := UpgradeAll(r, renames);
    forall k ensures Lookup(r2, k) == Lookup(r, k) {
      if i :| 0 <= i < |renames| && (k == renames[i].oldKey || k == renames[i].newKey) {
        UpgradeAllMoves(s, renames, i);
        UpgradeAllMoves(r, renames, i);
      } else {
        UpgradeAllUntouched(r, renames, k);
      }
    }
    LookupExtensional(r2, r);
  }

  /** The five renames of `_upgradeV1` share no key. */
  lemma V1RenamesDisjoint()
    ensures DisjointRenames(V1Renames)
  {
    forall i, j | 0 <= i < 5 && 0 <= j < 5
      ensures V1Renames[i].oldKey != V1Renames[j].newKey
      ensures i != j ==> V1Renames[i].oldKey != V1Renames[j].oldKey && V1Renames[i].newKey != V1Renames[j].newKey
    {
      assert V1Renames[i].oldKey[0] == 'p' && V1Renames[j].newKey[0] == 'e';
      if i != j {
        // the first characters after `prompt-editor.` (index 14) and after
        // `editor.code.` (index 12) already differ between any two renames
        assert V1Renames[i].oldKey[14] != V1Renames[j].oldKey[14];
        assert V1Renames[i].newKey[12] != V1Renames[j].newKey[12];
      }
    }
  }

  /**
   * `_upgradeV1`: for each of the five renames, a truthy legacy value moves to
   * the new key and the legacy key is removed, otherwise both keys are left
   * alone; every other key keeps its value; and the migration is idempotent.
   */
  lemma UpgradeV1Effect(s: Settings)
    ensures forall i :: 0 <= i < |V1Renames| ==> RenameEffect(s, UpgradedV1(s), V1Renames[i])
    ensures forall k :: Untouched(V1Renames, k) ==> Lookup(UpgradedV1(s), k) == Lookup(s, k)
    ensures UpgradedV1(UpgradedV1(s)) == UpgradedV1(s)
  {
    V1RenamesDisjoint();
    forall i | 0 <= i < |V1Renames| ensures RenameEffect(s, UpgradedV1(s), V1Renames[i]) {
      UpgradeAllMoves(s, V1Renames, i);
    }
    forall k | Untouched(V1Renames, k) ensures Lookup(UpgradedV1(s), k) == Lookup(s, k) {
      UpgradeAllUntouched(s, V1Renames, k);
    }
    UpgradeAllIdempotent(s, V1Renames);
  }

  // ---------------------------------------------------------------------------
  // The editor's settings store and the service over it
  // ---------------------------------------------------------------------------

  /** The editor's `vscode-openai` settings section, updated in place. */
  class SettingsStore {
    var values: Settings
    var apiHeaderList: seq<ApiHeader>

    constructor (values: Settings, apiHeaderList: seq<ApiHeader>)
      ensures this.values == values && this.apiHeaderList == apiHeaderList
    {
      this.values := values;
      this.apiHeaderList := apiHeaderList;
    }

    /** `setConfigValue(key, value)`. */
    method SetConfigValue(key: string, value: Option<string>)
      modifies this
      ensures values == Assign(old(values), key, value)
      ensures apiHeaderList == old(apiHeaderList)
    {
      values := Assign(values, key, value);
    }
  }

  class ConfigurationSettingService {
    const store: SettingsStore

    constructor (store: SettingsStore)
      ensures this.store == store
    {
      this.store := store;
    }

    /** The setter of property `p`. */
    method SetProperty(p: Property, value: Option<string>)
      modifies store
      ensures store.values == Assign(old(store.values), KeyOf(p), value)
      ensures store.apiHeaderList == old(store.apiHeaderList)
    {
      store.SetConfigValue(KeyOf(p), value);
    }

    /** `ResetConfigurationService`: the nine provider properties become `undefined`. */
    method ResetConfigurationService()
      modifies store
      ensures store.values == ResetSettings(old(store.values))
      ensures store.apiHeaderList == old(store.apiHeaderList)
    {
      ghost var s0 := store.values;
      SetProperty(ServiceProvider, None);
      SetProperty(BaseUrl, None);
      SetProperty(DefaultModel, None);
      SetProperty(AzureDeployment, None);
      SetProperty(ScmModel, None);
      SetProperty(ScmDeployment, None);
      SetProperty(EmbeddingModel, None);
      SetProperty(EmbeddingsDeployment, None);
      SetProperty(AzureApiVersion, None);
      ResetBySetters(s0);
    }

    /** The body of `loadConfigurationService` once an instance exists. */
    method Load(cfg: ProviderConfig)
      modifies store
      ensures store.values == LoadedSettings(old(store.values), cfg)
      ensures store.apiHeaderList == old(store.apiHeaderList)
    {
      ghost var s0 := store.values;
      SetProperty(ServiceProvider, Some(cfg.serviceProvider));
      SetProperty(BaseUrl, Some(cfg.baseUrl));
      SetProperty(DefaultModel, Some(cfg.defaultModel));
      SetProperty(AzureDeployment, Some(cfg.azureDeployment));
      SetProperty(ScmModel, Some(cfg.scmModel));
      SetProperty(ScmDeployment, Some(cfg.scmDeployment));
      SetProperty(EmbeddingModel, Some(cfg.embeddingModel));
      SetProperty(EmbeddingsDeployment, Some(cfg.embeddingsDeployment));
      SetProperty(AzureApiVersion, Some(cfg.azureApiVersion));
      LoadBySetters(s0, cfg);
    }

    /** `upgradeConfigProperty(oldKey, newKey)`. */
    method UpgradeConfigProperty(oldKey: string, newKey: string)
      modifies store
      ensures store.values == UpgradeProperty(old(store.values), oldKey, newKey)
      ensures store.apiHeaderList == old(store.apiHeaderList)
    {
      var value := Lookup(store.values, oldKey);
      if Truthy(value) {
        store.SetConfigValue(newKey, value);
        store.SetConfigValue(oldKey, None);
      }
    }

    /** `_upgradeV1`: the five legacy renames, in order. */
    method UpgradeV1()
      modifies store
      ensures store.values == UpgradedV1(old(store.values))
      ensures store.apiHeaderList == old(store.apiHeaderList)
    {
      ghost var s0 := store.values;
      UpgradeConfigProperty("prompt-editor.comment", "editor.code.comment");
      ghost var s1 := store.values;
      UpgradeConfigProperty("prompt-editor.explain", "editor.code.explain");
      ghost var s2 := store.values;
      UpgradeConfigProperty("prompt-editor.bounty", "editor.code.bounty");
      ghost var s3 := store.values;
      UpgradeConfigProperty("prompt-editor.optimize", "editor.code.optimize");
      ghost var s4 := store.values;
      UpgradeConfigProperty("prompt-editor.patterns", "editor.code.pattern");
      calc {
        UpgradedV1(s0);
        UpgradeAll(s1, V1Renames[1..]);
        UpgradeAll(s2, V1Renames[2..]);
        UpgradeAll(s3, V1Renames[3..]);
        UpgradeAll(s4, V1Renames[4..]);
        UpgradeAll(store.values, []);
      }
    }

    /** The `apiHeaders` getter: a loop over the header list. */
    method ApiHeaders() returns (headers: map<string, string>)
      ensures headers == HeadersOf(store.apiHeaderList)
    {
      var list := store.apiHeaderList;
      headers := map[];
      var i := 0;
      while i < |list|
        invariant 0 <= i <= |list|
        invariant headers == HeadersOf(list[..i])
      {
        assert list[..i + 1][..i] == list[..i];
        // `headers[name] = value` on a plain object: `__proto__` stores nothing
        if list[i].name != ProtoName {
          headers := headers[list[i].name := list[i].value];
        }
        i := i + 1;
      }
      assert list[..i] == list;
    }

    /**
     * `getRequestConfig`: `sha512` is the digest function, `extensionVersion`
     * the installed version and `apiKey` the key from secret storage.
     */
    method GetRequestConfig(sha512: string -> string, extensionVersion: string, apiKey: string)
      returns (config: RequestConfig)
      ensures config == RequestConfigOf(
                Lookup(store.values, ServiceProviderKey), HeadersOf(store.apiHeaderList),
                sha512(VersionHashInput(extensionVersion)), apiKey, Lookup(store.values, AzureApiVersionKey))
    {
      var headers := ApiHeaders();
      var hash := sha512(VersionHashInput(extensionVersion));
      config := RequestConfigOf(Lookup(store.values, ServiceProviderKey), headers, hash, apiKey,
                                Lookup(store.values, AzureApiVersionKey));
    }
  }

  /** The static side of `ConfigurationSettingService`: the lazily created singleton. */
  class ConfigurationSettingStatics {
    var instance: ConfigurationSettingService?
    const store: SettingsStore

    ghost predicate Valid()
      reads this
    {
      instance != null ==> instance.store == store
    }

    constructor (store: SettingsStore)
      ensures Valid() && instance == null && this.store == store
    {
      this.store := store;
      instance := null;
    }

    /** `getInstance`: the first call creates the singleton and runs `_upgradeV1`; later calls return it. */
    method GetInstance() returns (service: ConfigurationSettingService)
      requires Valid()
      modifies this, store
      ensures Valid() && instance == service && service.store == store
      ensures old(instance) != null ==> service == old(instance) && store.values == old(store.values)
      ensures old(instance) == null ==> fresh(service) && store.values == UpgradedV1(old(store.values))
      ensures store.apiHeaderList == old(store.apiHeaderList)
    {
      if instance == null {
        instance := new ConfigurationSettingService(store);
        instance.UpgradeV1();
      }
      service := instance;
    }

    /** `loadConfigurationService`: writes the nine properties, and only when the singleton exists. */
    method LoadConfigurationService(cfg: ProviderConfig)
      requires Valid()
      modifies store
      ensures instance == null ==> store.values == old(store.values)
      ensures instance != null ==> store.values == LoadedSettings(old(store.values), cfg)
      ensures store.apiHeaderList == old(store.apiHeaderList)
    {
      if instance != null {
        instance.Load(cfg);
      }
    }
  }
}
