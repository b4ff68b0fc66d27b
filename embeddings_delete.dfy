/**
 * The "delete embedding" command of the embeddings tree view
 * (`RefreshCommand` in `commands/embeddings/delete.ts`): ask for confirmation,
 * then remove every selected embedding from the embedding store and refresh
 * the tree once.
 */
module EmbeddingsDelete {
  import opened Wrappers

  const DeleteCommandId := "_vscode-openai.embeddings.delete.resource"
  const YesAnswer := "Yes"
  const SingularPrompt := "Are you sure you want to delete this embedding?"
  const PluralPromptPrefix := "Are you sure you want to delete these "
  const PluralPromptSuffix := " embeddings?"

  // ---------------------------------------------------------------------------
  // Decimal rendering of a count, as a template literal prints a number
  // ---------------------------------------------------------------------------

  predicate IsDigits(s: string)
  {
    forall i :: 0 <= i < |s| ==> '0' <= s[i] <= '9'
  }

  function DigitChar(d: nat): (c: char)
    requires d < 10
    ensures '0' <= c <= '9' && (c - '0') as nat == d
  {
    (d + '0' as nat) as char
  }

  /** The decimal digits of `n`, most significant first, with no leading zero. */
  function NatToString(n: nat): (s: string)
    ensures |s| >= 1 && IsDigits(s)
    ensures |s| > 1 ==> s[0] != '0'
    decreases n
  {
    if n < 10 then [DigitChar(n)] else NatToString(n / 10) + [DigitChar(n % 10)]
  }

  /** The number a string of decimal digits denotes. */
  function ParseNat(s: string): nat
    requires IsDigits(s)
    decreases |s|
  {
    if s == [] then 0 else ParseNat(s[..|s| - 1]) * 10 + (s[|s| - 1] - '0') as nat
  }

  /** Reading the rendered digits back gives the number. */
  lemma {:induction false} ParseNatToString(n: nat)
    ensures ParseNat(NatToString(n)) == n
    decreases n
  {
    if n >= 10 {
      var s := NatToString(n);
      assert s[..|s| - 1] == NatToString(n / 10);
      ParseNatToString(n / 10);
    }
  }

  // ---------------------------------------------------------------------------
  // The confirmation prompt
  // ---------------------------------------------------------------------------

  /** The confirmation message for `count` selected embeddings. */
  function ConfirmationMessage(count: nat): (message: string)
    requires count >= 1
    ensures message == SingularPrompt <==> count == 1
    ensures count > 1 ==> PluralPromptPrefix <= message
  {
    if count == 1 then SingularPrompt else PluralPromptPrefix + NatToString(count) + PluralPromptSuffix
  }

  /**
   * One embedding gets the singular message; more get the plural message, from
   * which the count can be read back.
   */
  lemma ConfirmationMessageNamesCount(count: nat)
    requires count >= 1
    ensures count == 1 ==> ConfirmationMessage(count) == SingularPrompt
    ensures count > 1 ==>
              var m := ConfirmationMessage(count);
              && |PluralPromptPrefix| + |PluralPromptSuffix| < |m|
              && m[..|PluralPromptPrefix|] == PluralPromptPrefix
              && m[|m| - |PluralPromptSuffix|..] == PluralPromptSuffix
              && IsDigits(m[|PluralPromptPrefix|..|m| - |PluralPromptSuffix|])
              && ParseNat(m[|PluralPromptPrefix|..|m| - |PluralPromptSuffix|]) == count
  {
    if count > 1 {
      var digits := NatToString(count);
      var m := ConfirmationMessage(count);
      assert m == PluralPromptPrefix + digits + PluralPromptSuffix;
      assert m[|PluralPromptPrefix|..|m| - |PluralPromptSuffix|] == digits;
      ParseNatToString(count);
    }
  }

  /** Different counts give different messages. */
  lemma ConfirmationMessageInjective(a: nat, b: nat)
    requires a >= 1 && b >= 1
    requires ConfirmationMessage(a) == ConfirmationMessage(b)
    ensures a == b
  {
    if a > 1 && b > 1 {
      ConfirmationMessageNamesCount(a);
      ConfirmationMessageNamesCount(b);
    }
  }

  // ---------------------------------------------------------------------------
  // The selection and what the command does with it
  // ---------------------------------------------------------------------------

  /** A node of the embeddings tree; only its embedding id matters here. */
  datatype EmbeddingTreeItem = EmbeddingTreeItem(embeddingId: string, labelText: string)

  /** The embedding ids of the selected nodes. */
  function SelectedIds(nodes: seq<EmbeddingTreeItem>): set<string>
  {
    set n | n in nodes :: n.embeddingId
  }

  /** The prompt shown for a selection: none for a missing or empty selection. */
  function PromptFor(nodes: Option<seq<EmbeddingTreeItem>>): (prompt: Option<string>)
    ensures prompt.None? <==> nodes.None? || |nodes.value| == 0
    ensures prompt.Some? ==> prompt.value == ConfirmationMessage(|nodes.value|)
  {
    if nodes.None? || |nodes.value| == 0 then None else Some(ConfirmationMessage(|nodes.value|))
  }

  /** Whether the command deletes: a prompt was shown and answered "Yes". */
  predicate Confirmed(nodes: Option<seq<EmbeddingTreeItem>>, answer: Option<string>)
  {
    PromptFor(nodes).Some? && answer == Some(YesAnswer)
  }

  /** The embedding store after a confirmed deletion: exactly the selected ids are gone. */
  function AfterDelete(embeddings: map<string, string>, nodes: seq<EmbeddingTreeItem>): (r: map<string, string>)
    ensures r.Keys == embeddings.Keys - SelectedIds(nodes)
    ensures forall id :: id in r ==> r[id] == embeddings[id]
    ensures forall n :: n in nodes ==> n.embeddingId !in r
  {
    embeddings - SelectedIds(nodes)
  }

  // ---------------------------------------------------------------------------
  // The store, the tree view and the command
  // ---------------------------------------------------------------------------

  /** The embedding store (`EmbeddingStorageService.instance`): stored embeddings by id. */
  class EmbeddingStorageService {
    var embeddings: map<string, string>

    constructor (embeddings: map<string, string>)
      ensures this.embeddings == embeddings
    {
      this.embeddings := embeddings;
    }

    /** `delete(id)`: removes `id`; an id not stored is ignored. */
    method Delete(id: string)
      modifies this
      ensures embeddings == old(embeddings) - {id}
    {
      embeddings := embeddings - {id};
    }
  }

  /** The tree data provider: what it shows and how often it has been refreshed. */
  class EmbeddingTreeDataProvider {
    var shownIds: set<string>
    var refreshCount: nat

    constructor (storage: EmbeddingStorageService)
      ensures shownIds == storage.embeddings.Keys && refreshCount == 0
    {
      shownIds := storage.embeddings.Keys;
      refreshCount := 0;
    }

    /** `refresh()`: the tree shows the store's current contents. */
    method Refresh(storage: EmbeddingStorageService)
      modifies this
      ensures shownIds == storage.embeddings.Keys
      ensures refreshCount == old(refreshCount) + 1
    {
      shownIds := storage.embeddings.Keys;
      refreshCount := refreshCount + 1;
    }
  }

  class RefreshCommand {
    const id: string
    /** The tree provider the command was created with (`_instance`). */
    const treeProvider: EmbeddingTreeDataProvider
    const storage: EmbeddingStorageService

    constructor (treeProvider: EmbeddingTreeDataProvider, storage: EmbeddingStorageService)
      ensures id == DeleteCommandId && this.treeProvider == treeProvider && this.storage == storage
    {
      id := DeleteCommandId;
      this.treeProvider := treeProvider;
      this.storage := storage;
    }

    /**
     * `execute(nodes)`: `answer` is the button the user chooses in the
     * confirmation dialog (`None` when it is dismissed); the result is the
     * prompt shown, if any.
     */
    method Execute(nodes: Option<seq<EmbeddingTreeItem>>, answer: Option<string>)
      returns (prompt: Option<string>)
      modifies storage, treeProvider
      ensures prompt == PromptFor(nodes)
      ensures Confirmed(nodes, answer) ==>
                && storage.embeddings == AfterDelete(old(storage.embeddings), nodes.value)
                && treeProvider.refreshCount == old(treeProvider.refreshCount) + 1
                && treeProvider.shownIds == storage.embeddings.Keys
      ensures !Confirmed(nodes, answer) ==>
                && storage.embeddings == old(storage.embeddings)
                && treeProvider.refreshCount == old(treeProvider.refreshCount)
                && treeProvider.shownIds == old(treeProvider.shownIds)
    {
      if nodes.None? || |nodes.value| == 0 {
        return None;
      }
      var selected := nodes.value;
      prompt := Some(ConfirmationMessage(|selected|));
      if answer == Some(YesAnswer) {
        var i := 0;
        while i < |selected|
          invariant 0 <= i <= |selected|
          invariant storage.embeddings == old(storage.embeddings) - SelectedIds(selected[..i])
          invariant treeProvider.refreshCount == old(treeProvider.refreshCount)
        {
          assert selected[..i + 1] == selected[..i] + [selected[i]];
          assert SelectedIds(selected[..i + 1]) == SelectedIds(selected[..i]) + {selected[i].embeddingId};
          storage.Delete(selected[i].embeddingId);
          i := i + 1;
        }
        assert selected[..i] == selected;
        treeProvider.Refresh(storage);
      }
    }
  }
}
