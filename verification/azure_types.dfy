/**
 * Records and enumerations shared by the account manager, the subscription
 * provider and the resource tree: the shapes of `SubscriptionInfo`,
 * `AzureSpeechResourceInfo` and `AzureResourceGroupInfo` (declared in a login
 * API file outside this model) and the `AzureResourceAccountType` enumeration
 * of common/constants.ts.
 */
module AzureTypes {
  import opened Common

  /** A subscription as the account manager hands it out. */
  datatype SubscriptionInfo = SubscriptionInfo(id: string, tenantId: string, name: string)

  /** A subscription as the provider lists it; the credential it carries is abstract. */
  datatype AzureSubscription = AzureSubscription(name: string, subscriptionId: string, tenantId: string)

  /** One speech-capable Cognitive Services account, tagged with the subscription it was listed under. */
  datatype AzureSpeechResourceInfo = AzureSpeechResourceInfo(
    id: string,
    name: string,
    subscriptionId: string,
    subscriptionName: string,
    tenantId: string,
    region: string,
    accountType: string,
    sku: string)

  datatype ResourceGroupInfo = ResourceGroupInfo(name: string, location: string)

  /** `AzureResourceAccountType`: the account kinds the toolkit works with. */
  datatype AccountType = SpeechServices | AIService | CognitiveServices

  /** The enumeration's string values, as the management API spells an account's `kind`. */
  function AccountTypeValue(t: AccountType): string {
    match t
    case SpeechServices => "SpeechServices"
    case AIService => "AIServices"
    case CognitiveServices => "CognitiveServices"
  }

  /** The account type whose value is `kind`, if any. */
  function ParseAccountKind(kind: string): (t: Option<AccountType>)
    ensures t.Some? ==> AccountTypeValue(t.value) == kind
    ensures t.None? ==> forall u :: AccountTypeValue(u) != kind
  {
    if kind == "SpeechServices" then Some(SpeechServices)
    else if kind == "AIServices" then Some(AIService)
    else if kind == "CognitiveServices" then Some(CognitiveServices)
    else None
  }

  /** Parsing an enumeration value gives back its account type. */
  lemma ParseAccountKindOfValue(t: AccountType)
    ensures ParseAccountKind(AccountTypeValue(t)) == Some(t)
  {
  }

  /** An item of a single-selection prompt. */
  datatype OptionItem = OptionItem(id: string, caption: string)

  /** The answer of a single-selection prompt: a picked id, or the error it rejects with (cancellation included). */
  datatype UiResult = Picked(id: string) | Rejected(reason: string)
}
