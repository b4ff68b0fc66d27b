/**
 * The "Register OpenAI Service Provider" quick pick (`OpenaiQuickPickCommand`):
 * the menu of providers, with a "Models" section offered only to OpenAI and
 * Azure OpenAI users when the feature flag is on, and the dispatch of the
 * chosen label to the matching setup routine.
 */
module OpenaiQuickPick {
  import opened Wrappers

  /** The host's extension context, handed to every setup routine; only its identity matters here. */
  class ExtensionContext {
    constructor ()
    {
    }
  }

  datatype QuickPickItemKind = Default | Separator

  datatype QuickPickItem = QuickPickItem(
    labelText: string,
    kind: QuickPickItemKind,
    description: Option<string>,
    alwaysShow: Option<bool>)

  /**
   * The labels of the `VSCODE_OPENAI_SERVICE_PROVIDER` constants. Their text is
   * defined outside the files modelled, so they are a parameter.
   */
  datatype ProviderLabels = ProviderLabels(
    vscodeOpenai: string,
    openai: string,
    azureOpenai: string,
    credal: string,
    changeModel: string)

  const ServiceProviderSeparator := "Service Provider"
  const ModelsSeparator := "Models"

  /** The providers (`validSP`) whose users may change models. */
  const ModelProviders: seq<string> := ["OpenAI", "Azure-OpenAI"]

  /** The five labels are pairwise distinct and differ from both separator labels. */
  predicate DistinctLabels(labels: ProviderLabels)
  {
    && labels.vscodeOpenai != labels.openai && labels.vscodeOpenai != labels.azureOpenai
    && labels.vscodeOpenai != labels.credal && labels.vscodeOpenai != labels.changeModel
    && labels.openai != labels.azureOpenai && labels.openai != labels.credal && labels.openai != labels.changeModel
    && labels.azureOpenai != labels.credal && labels.azureOpenai != labels.changeModel
    && labels.credal != labels.changeModel
    && forall r :: LabelOf(labels, r) != ServiceProviderSeparator && LabelOf(labels, r) != ModelsSeparator
  }

  /** The fixed part of the menu: the "Service Provider" separator and the four providers. */
  function ServiceProviderItems(labels: ProviderLabels): seq<QuickPickItem>
  {
    [
      QuickPickItem(ServiceProviderSeparator, Separator, None, None),
      QuickPickItem(labels.vscodeOpenai, Default, Some("(Sponsored) Use vscode-openai service"), None),
      QuickPickItem(labels.openai, Default, Some("(BYOK) Use your own OpenAI subscription (api.openai.com)"), None),
      QuickPickItem(labels.azureOpenai, Default,
                    Some("(BYOK) Use your own Azure OpenAI instance (instance.openai.azure.com)"), None),
      QuickPickItem(labels.credal, Default, Some("(BYOK) Use your own Credal instance (credal.ai)"), None)
    ]
  }

  /** The optional part of the menu: the "Models" separator and the change-model item. */
  function ModelItems(labels: ProviderLabels): seq<QuickPickItem>
  {
    [
      QuickPickItem(ModelsSeparator, Separator, None, None),
      QuickPickItem(labels.changeModel, Default, Some("change chat and embedding model"), Some(false))
    ]
  }

  /** `isValidKey && allowed`: the feature flag is on and the provider is one of `validSP`. */
  function ModelSelectionAllowed(featureFlag: bool, serviceProvider: Option<string>): (allowed: bool)
    ensures allowed <==> featureFlag && (serviceProvider == Some("OpenAI") || serviceProvider == Some("Azure-OpenAI"))
  {
    featureFlag && serviceProvider.Some? && serviceProvider.value in ModelProviders
  }

  /** `BuildOpenAiServiceTypes`, given the feature flag and the configured provider. */
  function BuildOpenAiServiceTypes(labels: ProviderLabels, featureFlag: bool, serviceProvider: Option<string>)
    : (items: seq<QuickPickItem>)
    ensures |items| == 5 || |items| == 7
    ensures items[0] == QuickPickItem(ServiceProviderSeparator, Separator, None, None)
    ensures items[1].labelText == labels.vscodeOpenai && items[2].labelText == labels.openai
    ensures items[3].labelText == labels.azureOpenai && items[4].labelText == labels.credal
    ensures forall i :: 1 <= i < 5 ==> items[i].kind == Default
    ensures |items| == 7 <==>
              featureFlag && (serviceProvider == Some("OpenAI") || serviceProvider == Some("Azure-OpenAI"))
    ensures |items| == 7 ==>
              && items[5] == QuickPickItem(ModelsSeparator, Separator, None, None)
              && items[6].labelText == labels.changeModel && items[6].kind == Default
  {
    var modelSelector := if ModelSelectionAllowed(featureFlag, serviceProvider) then ModelItems(labels) else [];
    ServiceProviderItems(labels) + modelSelector
  }

  /** The menu's first five items do not depend on the flag or the provider. */
  lemma MenuPrefixIsFixed(labels: ProviderLabels, flag1: bool, provider1: Option<string>,
                          flag2: bool, provider2: Option<string>)
    ensures BuildOpenAiServiceTypes(labels, flag1, provider1)[..5]
            == BuildOpenAiServiceTypes(labels, flag2, provider2)[..5]
  {
  }

  /** The setup routines the quick pick can start. */
  datatype SetupRoutine =
    | SetupVscodeOpenai | SetupOpenai | SetupAzureOpenai | SetupCredalOpenai | ChangeModel

  /** The label whose `case` starts routine `r`. */
  function LabelOf(labels: ProviderLabels, r: SetupRoutine): string
  {
    match r
    case SetupVscodeOpenai => labels.vscodeOpenai
    case SetupOpenai => labels.openai
    case SetupAzureOpenai => labels.azureOpenai
    case SetupCredalOpenai => labels.credal
    case ChangeModel => labels.changeModel
  }

  /** The `switch` of `execute`: the first `case` equal to `label`, or none (`default`). */
  function RoutineFor(labels: ProviderLabels, chosen: string): (routine: Option<SetupRoutine>)
    ensures routine.Some? ==> LabelOf(labels, routine.value) == chosen
    ensures routine.None? ==> forall r :: LabelOf(labels, r) != chosen
  {
    if chosen == labels.vscodeOpenai then Some(SetupVscodeOpenai)
    else if chosen == labels.openai then Some(SetupOpenai)
    else if chosen == labels.azureOpenai then Some(SetupAzureOpenai)
    else if chosen == labels.credal then Some(SetupCredalOpenai)
    else if chosen == labels.changeModel then Some(ChangeModel)
    else None
  }

  /** With distinct labels, choosing a routine's label starts exactly that routine. */
  lemma RoutineForLabelOf(labels: ProviderLabels, r: SetupRoutine)
    requires DistinctLabels(labels)
    ensures RoutineFor(labels, LabelOf(labels, r)) == Some(r)
  {
  }

  /** With distinct labels, selecting either separator starts no routine. */
  lemma SeparatorsStartNothing(labels: ProviderLabels)
    requires DistinctLabels(labels)
    ensures RoutineFor(labels, ServiceProviderSeparator) == None
    ensures RoutineFor(labels, ModelsSeparator) == None
  {
  }

  /**
   * With distinct labels, an item of the menu starts a routine exactly when it
   * is not a separator, and the change-model routine is reachable from the menu
   * exactly when model selection is allowed.
   */
  lemma MenuDispatch(labels: ProviderLabels, featureFlag: bool, serviceProvider: Option<string>)
    requires DistinctLabels(labels)
    ensures var items := BuildOpenAiServiceTypes(labels, featureFlag, serviceProvider);
            forall i :: 0 <= i < |items| ==> (RoutineFor(labels, items[i].labelText).Some? <==> items[i].kind == Default)
    ensures var items := BuildOpenAiServiceTypes(labels, featureFlag, serviceProvider);
            (exists i :: 0 <= i < |items| && RoutineFor(labels, items[i].labelText) == Some(ChangeModel))
            <==> ModelSelectionAllowed(featureFlag, serviceProvider)
  {
    var items := BuildOpenAiServiceTypes(labels, featureFlag, serviceProvider);
    SeparatorsStartNothing(labels);
    RoutineForLabelOf(labels, SetupVscodeOpenai);
    RoutineForLabelOf(labels, SetupOpenai);
    RoutineForLabelOf(labels, SetupAzureOpenai);
    RoutineForLabelOf(labels, SetupCredalOpenai);
    RoutineForLabelOf(labels, ChangeModel);
    if ModelSelectionAllowed(featureFlag, serviceProvider) {
      assert RoutineFor(labels, items[6].labelText) == Some(ChangeModel);
    } else {
      forall i | 0 <= i < |items| ensures RoutineFor(labels, items[i].labelText) != Some(ChangeModel) {
        assert i < 5;
      }
    }
  }

  /** A setup routine started with an extension context. */
  datatype Invocation = Invocation(routine: SetupRoutine, context: ExtensionContext)

  class OpenaiQuickPickCommand {
    const context: ExtensionContext

    constructor (context: ExtensionContext)
      ensures this.context == context
    {
      this.context := context;
    }

    /**
     * `execute`: builds the menu, takes the index of the item the user picks
     * (`None` when the pick is dismissed and never resolves) and starts the
     * setup routine of its label, returning that one call, if any.
     */
    method Execute(labels: ProviderLabels, featureFlag: bool, serviceProvider: Option<string>,
                   selection: Option<nat>)
      returns (invoked: Option<Invocation>)
      requires selection.Some? ==> selection.value < |BuildOpenAiServiceTypes(labels, featureFlag, serviceProvider)|
      ensures selection.None? ==> invoked.None?
      ensures selection.Some? ==>
                var routine := RoutineFor(labels, BuildOpenAiServiceTypes(labels, featureFlag, serviceProvider)[selection.value].labelText);
                && (invoked.Some? <==> routine.Some?)
                && (invoked.Some? ==> invoked.value == Invocation(routine.value, context))
    {
      var openAiServiceType := BuildOpenAiServiceTypes(labels, featureFlag, serviceProvider);
      if selection.None? {
        return None;
      }
      var chosen := openAiServiceType[selection.value].labelText;
      var routine := RoutineFor(labels, chosen);
      invoked := if routine.Some? then Some(Invocation(routine.value, context)) else None;
    }
  }

  /** The static side of `OpenaiQuickPickCommand`: the lazily created singleton. */
  class OpenaiQuickPickStatics {
    var instance: OpenaiQuickPickCommand?

    constructor ()
      ensures instance == null
    {
      instance := null;
    }

    /** `getInstance(context)`: the first call creates the command with `context`; later calls return it. */
    method GetInstance(context: ExtensionContext) returns (command: OpenaiQuickPickCommand)
      modifies this
      ensures instance == command
      ensures old(instance) != null ==> command == old(instance)
      ensures old(instance) == null ==> fresh(command) && command.context == context
    {
      if instance == null {
        instance := new OpenaiQuickPickCommand(context);
      }
      command := instance;
    }

    /** Two calls give the same command, which keeps the context of the call that created it. */
    method GetInstanceTwice(first: ExtensionContext, second: ExtensionContext)
      returns (a: OpenaiQuickPickCommand, b: OpenaiQuickPickCommand)
      modifies this
      ensures a == b && instance == a
      ensures old(instance) == null ==> a.context == first
      ensures old(instance) != null ==> a == old(instance)
    {
      a := GetInstance(first);
      b := GetInstance(second);
    }
  }
}
