# vscode-openai: settings façade, provider quick pick and embedding delete, in Dafny

This project models three small parts of the vscode-openai editor extension and proves what they promise.

- **`ConfigurationSettings`** (`configuration_settings.dfy`) models the settings façade `ConfigurationSettingService`.
  - The editor's `vscode-openai` settings section is a map from key to string. An absent key reads as `undefined`, and writing `undefined` removes the key.
  - The header list `conversation-configuration.api-headers` is a sequence of `{name, value}` records.
  - The class `SettingsStore` holds both and is updated in place. `ConfigurationSettingService` writes to it through its nine typed property setters, `ResetConfigurationService`, the body of `loadConfigurationService` and the `_upgradeV1` migration.
  - The static `instance` field lives in `ConfigurationSettingStatics`. Its `GetInstance` creates the singleton and runs `_upgradeV1` once.
  - The getters are functions of the stored values. `scmModel` falls back to `defaultModel` with `??`. The inference, SCM and embedding URLs are built from `baseUrl` unless a deployment is the sentinel `setup-required`. `apiHeaders` folds the header list into a dictionary. `getRequestConfig` adds the per-provider header and params.
- **`OpenaiQuickPick`** (`openai_quick_pick.dfy`) models `BuildOpenAiServiceTypes`, the label dispatch of `OpenaiQuickPickCommand.execute` and its `getInstance` singleton.
  - The menu is five fixed items plus a "Models" section. That section appears only when the feature flag is on and the provider is `OpenAI` or `Azure-OpenAI`.
  - `execute` starts the one setup routine whose label was picked, or none.
- **`EmbeddingsDelete`** (`embeddings_delete.dfy`) models `RefreshCommand.execute` of the embeddings tree.
  - A missing or empty selection does nothing.
  - Otherwise the command shows a singular or plural confirmation. On "Yes" it deletes every selected embedding id from the store and then refreshes the tree once.
- **`Wrappers`** (`wrappers.dfy`) holds `Option`, which stands for JavaScript's `undefined` and its `??`.

Host inputs are parameters:

- the SHA-512 digest function;
- the extension version;
- the API key from secret storage;
- the feature flag and the configured provider seen by the quick pick;
- `env.uiKind`;
- the host parsed out of `baseUrl`;
- the item the user picks;
- the button the user presses in the confirmation dialog.

The text of the `VSCODE_OPENAI_SERVICE_PROVIDER` labels is defined in a constants file that is not part of this model. The labels are therefore a `ProviderLabels` parameter. The dispatch lemmas assume the five labels are distinct from each other and from the two separator labels.

`embeddingUrl` checks `azureDeployment` against the sentinel but appends `embeddingsDeployment`. The model keeps this, and `EmbeddingUrlGatedOnAzureDeployment` shows both consequences.

## Model

| member | source | states |
|---|---|---|
| `ConfigurationSettings.Assign` | src/services/configurationServices/configurationSettingService.ts:85-87 | after a setter writes a value (or `undefined`) to a key, reading that key gives exactly that value |
| `ConfigurationSettings.AssignFrame` | src/services/configurationServices/configurationSettingService.ts:85-87 | writing one key leaves every other key's value as it was |
| `ConfigurationSettings.KeyOf` | src/services/configurationServices/configurationSettingService.ts:82-146 | each typed property reads and writes one fixed key, which is one of the nine provider keys |
| `ConfigurationSettings.ScmModelOf` | src/services/configurationServices/configurationSettingService.ts:110-115 | `scmModel` is the stored SCM model whenever one is stored (even an empty one), and the stored `defaultModel` (possibly `undefined`) otherwise |
| `ConfigurationSettings.EmptyScmModelIsKept` | src/services/configurationServices/configurationSettingService.ts:110-115 | an empty stored SCM model does not trigger the fallback to the default model |
| `ConfigurationSettings.SetThenGet` | src/services/configurationServices/configurationSettingService.ts:82-146 | for every property, the getter returns the string its setter stored last |
| `ConfigurationSettings.PropertyValue` | src/services/configurationServices/configurationSettingService.ts:82-146 | every getter but `scmModel` returns what is stored under its own key; a getter returns a value exactly when its key is stored, or, for `scmModel`, when the SCM model or the default model is stored |
| `ConfigurationSettings.UnsetThenGet` | src/services/configurationServices/configurationSettingService.ts:110-118 | after setting a property to `undefined` its getter returns `undefined`, except `scmModel`, which then returns the default model |
| `ConfigurationSettings.DeploymentUrl` | src/services/configurationServices/configurationSettingService.ts:173-192 | a deployment URL always starts with the rendered `baseUrl`; it equals `baseUrl` exactly when the gating deployment is `setup-required`; otherwise the rest is `/deployments/` followed by the deployment |
| `ConfigurationSettings.InferenceUrlOf` | src/services/configurationServices/configurationSettingService.ts:173-178 | `inferenceUrl` is `baseUrl/deployments/azureDeployment` unless `azureDeployment` is `setup-required`, in which case it is `baseUrl`; `undefined` parts render as the text "undefined" |
| `ConfigurationSettings.ScmUrlOf` | src/services/configurationServices/configurationSettingService.ts:180-185 | `scmUrl` follows the same rule, gated and suffixed on `scmDeployment` |
| `ConfigurationSettings.EmbeddingUrlOf` | src/services/configurationServices/configurationSettingService.ts:187-192 | `embeddingUrl` is gated on `azureDeployment` but suffixed with `embeddingsDeployment` |
| `ConfigurationSettings.EmbeddingUrlGatedOnAzureDeployment` | src/services/configurationServices/configurationSettingService.ts:187-192 | with `azureDeployment` configured, an `embeddingsDeployment` of `setup-required` is still appended; with `azureDeployment` unconfigured, a configured embeddings deployment is dropped |
| `ConfigurationSettings.HostOf` | src/services/configurationServices/configurationSettingService.ts:168-171 | the `VSCode-OpenAI` provider's host is `vscode-openai`; any other provider's host is the one parsed from `baseUrl` |
| `ConfigurationSettings.UiKindName` | src/services/configurationServices/configurationSettingService.ts:153-162 | the UI kind name is `desktop` exactly for Desktop, `web` exactly for Web, and `unknown` exactly for every other value |
| `ConfigurationSettings.HeadersOf` | src/services/configurationServices/configurationSettingService.ts:194-204 | the keys of `apiHeaders` are exactly the names in the configured header list other than `__proto__`, which a plain object's assignment does not store as a key |
| `ConfigurationSettings.HeadersOfLastWins` | src/services/configurationServices/configurationSettingService.ts:194-204 | for a name (other than `__proto__`) listed more than once, `apiHeaders` holds the value of its last entry in list order |
| `ConfigurationSettings.RequestConfigOf` | src/services/configurationServices/configurationSettingService.ts:206-228 | `VSCode-OpenAI`: the user headers plus a `vscode-openai` digest header that overrides a user header of that name, with no params. `Azure-OpenAI`: the user headers plus `api-key`, and params `api-version = azureApiVersion`. Any other provider: the user headers alone, with no params. In every case the other user headers keep their values |
| `ConfigurationSettings.ResetSettings` | src/services/configurationServices/configurationSettingService.ts:245-255 | a reset removes all nine provider keys and keeps every other key's value |
| `ConfigurationSettings.ResetBySetters` | src/services/configurationServices/configurationSettingService.ts:245-255 | the nine setter calls of the reset, in source order, amount to removing exactly the provider keys |
| `ConfigurationSettings.ResetThenGet` | src/services/configurationServices/configurationSettingService.ts:245-255 | after a reset every property getter returns `undefined`, `scmModel` included |
| `ConfigurationSettings.LoadedSettings` | src/services/configurationServices/configurationSettingService.ts:63-72 | a load stores each of the nine arguments under its own key and keeps every other key's value |
| `ConfigurationSettings.LoadBySetters` | src/services/configurationServices/configurationSettingService.ts:63-72 | the nine setter calls of the load, in source order, give exactly the loaded settings |
| `ConfigurationSettings.LoadThenGet` | src/services/configurationServices/configurationSettingService.ts:63-72 | after a load every property getter returns the loaded argument |
| `ConfigurationSettings.LoadAfterReset` | src/services/configurationServices/configurationSettingService.ts:63-72 | a reset followed by a load gives the same settings as the load alone |
| `ConfigurationSettings.UpgradeProperty` | src/services/configurationServices/configurationSettingService.ts:291-308 | a falsy or missing legacy value leaves the settings as they were; a truthy one is removed from the legacy key and (for two different keys) is readable under the new key; every other key keeps its value, and no key other than the new key is added |
| `ConfigurationSettings.UpgradeAll` | src/services/configurationServices/configurationSettingService.ts:284-289 | running the renames one after the other adds no key other than one of their new keys |
| `ConfigurationSettings.UpgradedV1` | src/services/configurationServices/configurationSettingService.ts:284-289 | `_upgradeV1` adds no key other than the five `editor.code.*` keys |
| `ConfigurationSettings.UpgradeAllUntouched` | src/services/configurationServices/configurationSettingService.ts:284-309 | a migration leaves every key that takes part in no rename unchanged |
| `ConfigurationSettings.UpgradeAllMoves` | src/services/configurationServices/configurationSettingService.ts:291-308 | in a migration whose keys are disjoint, each rename with a truthy legacy value moves that value to the new key and removes the legacy key; with a falsy or missing legacy value both keys are left alone |
| `ConfigurationSettings.UpgradeAllIdempotent` | src/services/configurationServices/configurationSettingService.ts:284-309 | running a disjoint migration a second time changes nothing |
| `ConfigurationSettings.V1RenamesDisjoint` | src/services/configurationServices/configurationSettingService.ts:285-289 | the five renames of `_upgradeV1` share no key |
| `ConfigurationSettings.UpgradeV1Effect` | src/services/configurationServices/configurationSettingService.ts:284-309 | `_upgradeV1` moves each truthy legacy value to its new key and removes the legacy key, leaves both keys alone otherwise, changes no other key, and is idempotent |
| `ConfigurationSettings.SettingsStore.SetConfigValue` | src/services/configurationServices/configurationSettingService.ts:85-87 | a settings write changes the stored values as `Assign` says and leaves the header list alone |
| `ConfigurationSettings.ConfigurationSettingService.SetProperty` | src/services/configurationServices/configurationSettingService.ts:82-146 | a property setter writes its one fixed key and nothing else |
| `ConfigurationSettings.ConfigurationSettingService.ResetConfigurationService` | src/services/configurationServices/configurationSettingService.ts:245-255 | the nine setter calls leave the store equal to `ResetSettings` of the old store, with the header list unchanged |
| `ConfigurationSettings.ConfigurationSettingService.Load` | src/services/configurationServices/configurationSettingService.ts:63-72 | the nine setter calls leave the store equal to `LoadedSettings` of the old store, with the header list unchanged |
| `ConfigurationSettings.ConfigurationSettingService.UpgradeConfigProperty` | src/services/configurationServices/configurationSettingService.ts:291-308 | one legacy rename performed in place, as `UpgradeProperty` describes |
| `ConfigurationSettings.ConfigurationSettingService.UpgradeV1` | src/services/configurationServices/configurationSettingService.ts:284-309 | the five in-place renames leave the store equal to `UpgradedV1` of the old store |
| `ConfigurationSettings.ConfigurationSettingService.ApiHeaders` | src/services/configurationServices/configurationSettingService.ts:194-204 | the `forEach` loop over the header list builds exactly `HeadersOf` of that list |
| `ConfigurationSettings.ConfigurationSettingService.GetRequestConfig` | src/services/configurationServices/configurationSettingService.ts:206-228 | the request options are `RequestConfigOf` the stored provider, the folded headers, the SHA-512 digest of `vscode-openai::<extension version>`, the API key and the stored API version |
| `ConfigurationSettings.ConfigurationSettingStatics.GetInstance` | src/services/configurationServices/configurationSettingService.ts:30-36 | the first call creates the singleton and runs `_upgradeV1` on the store; later calls return the same instance and change nothing |
| `ConfigurationSettings.ConfigurationSettingStatics.LoadConfigurationService` | src/services/configurationServices/configurationSettingService.ts:38-80 | with no instance nothing changes; with one, the nine arguments are written as `LoadedSettings` says |
| `OpenaiQuickPick.BuildOpenAiServiceTypes` | src/contexts/quickPickSetup/openaiQuickPickCommand.ts:84-130 | the menu has 5 or 7 items. It always starts with the "Service Provider" separator followed by the VSCODE_OPENAI, OPENAI, AZURE_OPENAI and CREDAL items. It has 7 items exactly when the feature flag is on and the provider is `OpenAI` or `Azure-OpenAI`, and then ends with the "Models" separator and the CHANGE_MODEL item |
| `OpenaiQuickPick.ModelSelectionAllowed` | src/contexts/quickPickSetup/openaiQuickPickCommand.ts:109-115 | model selection is allowed exactly when the feature flag is on and the configured provider is `OpenAI` or `Azure-OpenAI` |
| `OpenaiQuickPick.MenuPrefixIsFixed` | src/contexts/quickPickSetup/openaiQuickPickCommand.ts:84-130 | the first five items are the same whatever the flag and the provider |
| `OpenaiQuickPick.RoutineFor` | src/contexts/quickPickSetup/openaiQuickPickCommand.ts:41-64 | the `switch` picks a routine only for that routine's own label, and picks none exactly when the label matches no routine |
| `OpenaiQuickPick.RoutineForLabelOf` | src/contexts/quickPickSetup/openaiQuickPickCommand.ts:41-60 | with distinct labels, picking a routine's label starts exactly that routine |
| `OpenaiQuickPick.SeparatorsStartNothing` | src/contexts/quickPickSetup/openaiQuickPickCommand.ts:62-63 | with distinct labels, picking either separator starts no routine |
| `OpenaiQuickPick.MenuDispatch` | src/contexts/quickPickSetup/openaiQuickPickCommand.ts:41-64 | with distinct labels, a menu item starts a routine exactly when it is not a separator, and the change-model routine can be reached from the menu exactly when model selection is allowed |
| `OpenaiQuickPick.OpenaiQuickPickCommand.Execute` | src/contexts/quickPickSetup/openaiQuickPickCommand.ts:37-65 | `execute` starts at most one routine: the one `RoutineFor` gives for the picked item's label, with the command's own context; a dismissed pick starts none |
| `OpenaiQuickPick.OpenaiQuickPickStatics.GetInstance` | src/contexts/quickPickSetup/openaiQuickPickCommand.ts:30-35 | the first call creates the command with the given context; later calls return that same command |
| `OpenaiQuickPick.OpenaiQuickPickStatics.GetInstanceTwice` | src/contexts/quickPickSetup/openaiQuickPickCommand.ts:30-35 | two calls return the same command, which keeps the context of the call that created it |
| `EmbeddingsDelete.NatToString` | src/commands/embeddings/delete.ts:13-15 | a count renders as a non-empty string of decimal digits with no leading zero |
| `EmbeddingsDelete.ParseNatToString` | src/commands/embeddings/delete.ts:13-15 | reading the rendered digits back gives the count |
| `EmbeddingsDelete.ConfirmationMessage` | src/commands/embeddings/delete.ts:13-15 | the message is the singular prompt exactly for one node; for more nodes it starts with the plural prefix |
| `EmbeddingsDelete.ConfirmationMessageNamesCount` | src/commands/embeddings/delete.ts:13-15 | one node gets the singular message; more nodes get the plural message, and the digits between its fixed prefix and suffix read back as the node count |
| `EmbeddingsDelete.ConfirmationMessageInjective` | src/commands/embeddings/delete.ts:13-15 | different counts give different confirmation messages |
| `EmbeddingsDelete.PromptFor` | src/commands/embeddings/delete.ts:11-15 | a missing or empty selection shows no prompt; any other selection shows the confirmation message for its size |
| `EmbeddingsDelete.AfterDelete` | src/commands/embeddings/delete.ts:20-24 | after a confirmed delete the store keeps exactly the ids that were not selected, with their values, and no selected id remains |
| `EmbeddingsDelete.EmbeddingStorageService.Delete` | src/commands/embeddings/delete.ts:22 | deleting an id removes it from the store and changes nothing else |
| `EmbeddingsDelete.EmbeddingTreeDataProvider.Refresh` | src/commands/embeddings/delete.ts:24 | a refresh makes the tree show the store's current ids and counts one refresh |
| `EmbeddingsDelete.RefreshCommand.Execute` | src/commands/embeddings/delete.ts:10-27 | the prompt shown is `PromptFor` the selection. After a prompt answered "Yes", the store is `AfterDelete` of the old store and the tree has been refreshed exactly once, after the deletions. Otherwise (no prompt, "No" or dismissed) the store and the tree are unchanged |

## Left out

- Configuration defaults: a key that is not set reads as `undefined`. The editor would return the default declared in the extension's manifest, and that manifest is not part of this model.
- Write settling: each `setConfigValue` is modelled as applied at once and in call order. The editor writes settings asynchronously, which is why the load waits 500 ms. `SetThenGet`, `LoadThenGet`, `ResetThenGet` and the store states of the methods describe the store once the writes have settled.
- `ConfigurationSettings.ConfigurationSettingService.ApiHeaders`: the header list is assumed to be set, as the manifest default provides. With no list at all, `forEach` would throw a `TypeError` that `getRequestConfig` passes on, and the model has no such error path.
- Non-string setting values: settings hold strings only. JavaScript truthiness of other types (numbers, booleans, objects) is not modelled.
- `ConfigurationSettings.HostOf`: `new URL(baseUrl).host` is foreign URL parsing. Its result is an input, and only the `VSCode-OpenAI` short-circuit is modelled. The `TypeError` it throws for an unset or malformed `baseUrl` is not modelled.
- `ConfigurationSettings.ConfigurationSettingService.GetRequestConfig`: SHA-512 is foreign (CryptoJS). It is a function parameter applied to `vscode-openai::<extension version>`. The API key is read from secret storage asynchronously, and here it is an input.
- `ConfigurationSettings.ConfigurationSettingStatics.LoadConfigurationService`: status-bar updates and the fixed 500 ms wait after the writes are host I/O and timing, and are left out.
- `vscodeVersion`, `vscodeLanguage`, `extensionVersion`, `getApiKey` and `LogConfigurationService` only read host state or send notifications, so they are left out. `UiKindName` takes `env.uiKind` as an input.
- Module load: the default export calls `getInstance()` once when the module loads. The model leaves the first call to the caller.
- `OpenaiQuickPick.OpenaiQuickPickCommand.Execute`: `showQuickPick` is host UI, so the picked item's index is an input. The setup routines (`quickPickSetup*`, `quickPickChangeModel`) are not part of this model. The routine started is returned as an `Invocation` value instead of being run.
- `OpenaiQuickPick.BuildOpenAiServiceTypes`: `getFeatureFlag` and the provider read from the settings singleton are inputs. The label text of `VSCODE_OPENAI_SERVICE_PROVIDER` is a parameter, because the constants file is not part of this model.
- `EmbeddingsDelete.RefreshCommand.Execute`: the confirmation dialog is asynchronous, and `execute` returns before the answer arrives. The model runs the answer's handler in the same call, with the answer as an input.
- `EmbeddingsDelete.EmbeddingStorageService.Delete`: the body of `EmbeddingStorageService.delete` is not part of this model. It is modelled as removing one key from a map of stored embeddings, whose record type is a string here.
- `EmbeddingsDelete.EmbeddingTreeDataProvider.Refresh`: the tree refresh event is modelled as the tree showing the store's ids, plus a refresh count.
- `src/panels/messageWebviewPanel.ts` (webview creation, HTML templating, message passing, remote completion call), `src/contexts/index.ts` (re-exports), and the React theme context and style constants under `webview/` and `webview-ui/`: UI plumbing with no logic of their own to state.
