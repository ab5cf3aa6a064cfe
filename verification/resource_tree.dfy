/**
 * The resource tree of src/treeview/resourceTreeViewProvider.ts: the three
 * item-type enumerations, the closed mappings between them (type item to
 * account type, type item to instance item, item to icon), the items the
 * `ResourceTreeItem` constructor builds, and the three-level `getChildren`
 * dispatch (subscriptions, then resource types, then resources sorted by
 * label). What `getChildren` awaits from the account manager (the login
 * status, the subscription list, the resource list of a type node) comes in
 * as parameters.
 */
module ResourceTree {
  import opened Common
  import opened Text
  import opened Collections
  import opened AzureTypes
  import opened AzureLogin
  import SubscriptionProvider

  // ================================================================ item types

  /**
   * `AzureResourceTreeViewItemType`: the union of `SubscriptionItemType`,
   * `AzureResourceTypeItemType` and `AzureResourceInstanceItemType`.
   */
  datatype ItemType =
    | Subscription
    | SpeechServiceType | AIServiceType | CognitiveServicesType
    | CognitiveServicesItem | SpeechServiceItem | AIServiceItem

  /** The string value of each enumeration member. */
  function ItemTypeValue(t: ItemType): string {
    match t
    case Subscription => "SUBSCRIPTION"
    case SpeechServiceType => "SPEECH_SERVICE_TYPE"
    case AIServiceType => "AI_SERVICE_TYPE"
    case CognitiveServicesType => "COGNITIVE_SERVICES_TYPE"
    case CognitiveServicesItem => "COGNITIVE_SERVICES"
    case SpeechServiceItem => "SPEECH_SERVICE"
    case AIServiceItem => "AI_SERVICE"
  }

  /** `Object.values(AzureResourceTypeItemType)`. */
  const TypeItemValues := ["SPEECH_SERVICE_TYPE", "AI_SERVICE_TYPE", "COGNITIVE_SERVICES_TYPE"]

  /** `Object.values(AzureResourceInstanceItemType)`. */
  const InstanceItemValues := ["COGNITIVE_SERVICES", "SPEECH_SERVICE", "AI_SERVICE"]

  /** `isAzureResourceTypeItemType`: membership by string value. */
  predicate IsTypeItem(t: ItemType) {
    ItemTypeValue(t) in TypeItemValues
  }

  /** `isAzureResourceInstanceItemType`: membership by string value. */
  predicate IsInstanceItem(t: ItemType) {
    ItemTypeValue(t) in InstanceItemValues
  }

  /** Distinct members have distinct values, so membership by value is membership by member. */
  lemma ItemTypeValueInjective(t: ItemType, u: ItemType)
    ensures ItemTypeValue(t) == ItemTypeValue(u) ==> t == u
  {
  }

  /**
   * The membership tests pick out exactly the members of their enumeration:
   * the type items and the instance items are disjoint, and Subscription
   * belongs to neither.
   */
  lemma ItemKinds(t: ItemType)
    ensures IsTypeItem(t) <==> t in {SpeechServiceType, AIServiceType, CognitiveServicesType}
    ensures IsInstanceItem(t) <==> t in {CognitiveServicesItem, SpeechServiceItem, AIServiceItem}
    ensures !(IsTypeItem(t) && IsInstanceItem(t))
    ensures t == Subscription ==> !IsTypeItem(t) && !IsInstanceItem(t)
  {
    assert TypeItemValues == ["SPEECH_SERVICE_TYPE", "AI_SERVICE_TYPE", "COGNITIVE_SERVICES_TYPE"];
    assert InstanceItemValues == ["COGNITIVE_SERVICES", "SPEECH_SERVICE", "AI_SERVICE"];
  }

  /** The error both mappings throw for an item that is not a type item. */
  function NotResourceTypeError(t: ItemType): string {
    "Invalid AzureResourceTreeViewItemType: " + ItemTypeValue(t) + " is not a resource type"
  }

  /** `getAzureResourceAccountType`: the account kind a type node lists. */
  function AccountTypeOf(t: ItemType): (r: Result<AccountType, string>)
    ensures r.Failure? <==> !IsTypeItem(t)
    ensures r.Failure? ==> r.error == NotResourceTypeError(t)
    ensures t == AIServiceType ==> r == Success(AIService)
    ensures t == CognitiveServicesType ==> r == Success(CognitiveServices)
    ensures t == SpeechServiceType ==> r == Success(SpeechServices)
  {
    ItemKinds(t);
    if !IsTypeItem(t) then Failure(NotResourceTypeError(t))
    else match t
      case AIServiceType => Success(AIService)
      case CognitiveServicesType => Success(CognitiveServices)
      case SpeechServiceType => Success(SpeechServices)
  }

  /** `getAzureResourceInstanceItemType`: the item type of a type node's children. */
  function InstanceItemOf(t: ItemType): (r: Result<ItemType, string>)
    ensures r.Failure? <==> !IsTypeItem(t)
    ensures r.Failure? ==> r.error == NotResourceTypeError(t)
    ensures r.Success? ==> IsInstanceItem(r.value)
    ensures t == AIServiceType ==> r == Success(AIServiceItem)
    ensures t == CognitiveServicesType ==> r == Success(CognitiveServicesItem)
    ensures t == SpeechServiceType ==> r == Success(SpeechServiceItem)
  {
    ItemKinds(t);
    if !IsTypeItem(t) then Failure(NotResourceTypeError(t))
    else match t
      case AIServiceType => Success(AIServiceItem)
      case CognitiveServicesType => Success(CognitiveServicesItem)
      case SpeechServiceType => Success(SpeechServiceItem)
  }

  /**
   * The two mappings are bijections from the type items: distinct type items
   * list distinct account kinds and have distinct instance items, and every
   * account kind and every instance item is reached.
   */
  lemma TypeMappingsAreBijections(t: ItemType, u: ItemType)
    requires IsTypeItem(t) && IsTypeItem(u) && t != u
    ensures AccountTypeOf(t) != AccountTypeOf(u)
    ensures InstanceItemOf(t) != InstanceItemOf(u)
    ensures forall k: AccountType :: exists v :: IsTypeItem(v) && AccountTypeOf(v) == Success(k)
    ensures forall i :: IsInstanceItem(i) ==> exists v :: IsTypeItem(v) && InstanceItemOf(v) == Success(i)
  {
    ItemKinds(t);
    ItemKinds(u);
    forall k: AccountType ensures exists v :: IsTypeItem(v) && AccountTypeOf(v) == Success(k) {
      var v := match k
        case AIService => AIServiceType
        case CognitiveServices => CognitiveServicesType
        case SpeechServices => SpeechServiceType;
      ItemKinds(v);
    }
    forall i | IsInstanceItem(i) ensures exists v :: IsTypeItem(v) && InstanceItemOf(v) == Success(i) {
      ItemKinds(i);
      var v := if i == AIServiceItem then AIServiceType
        else if i == CognitiveServicesItem then CognitiveServicesType
        else SpeechServiceType;
      ItemKinds(v);
    }
  }

  // ================================================================ icons

  const SubscriptionIcon := "subscription.png"

  /** `getIconPath`'s file name: one icon per service kind, the subscription icon otherwise. */
  function IconName(t: ItemType): (n: string)
    ensures n == SubscriptionIcon <==> !IsTypeItem(t) && !IsInstanceItem(t)
  {
    ItemKinds(t);
    match t
    case SpeechServiceType | SpeechServiceItem => "speech-service-icon.png"
    case AIServiceType | AIServiceItem => "azure-ai-service.png"
    case CognitiveServicesType | CognitiveServicesItem => "cognitive-service-icon.png"
    case Subscription => SubscriptionIcon
  }

  /** A type node and its resources share one icon, and the three service kinds have three different icons. */
  lemma IconsFollowServiceKind(t: ItemType, u: ItemType)
    requires IsTypeItem(t) && IsTypeItem(u)
    ensures InstanceItemOf(t).Success? && IconName(InstanceItemOf(t).value) == IconName(t)
    ensures t != u ==> IconName(t) != IconName(u)
  {
    ItemKinds(t);
    ItemKinds(u);
  }

  // ================================================================ items

  /** `vscode.TreeItemCollapsibleState`, as far as the tree uses it. */
  datatype CollapsibleState = CollapsibleNone | Collapsed

  /** `AzureResourceInfo`: what an item was built from. */
  datatype ResourceRef = OfSubscription(sub: SubscriptionInfo) | OfResource(resource: AzureSpeechResourceInfo)

  /** The context value the `package.json` menus match resource items with. */
  const ResourceContextValue := "speechResouceItem"

  /** A `ResourceTreeItem` with the fields its constructor derives. */
  datatype TreeItem = TreeItem(
    caption: string,
    tenantId: string,
    subscriptionId: string,
    collapsible: CollapsibleState,
    itemType: ItemType,
    info: ResourceRef,
    tooltip: string,
    iconName: string,
    contextValue: Option<string>)

  function Caption(item: TreeItem): string {
    item.caption
  }

  /**
   * The `ResourceTreeItem` constructor: the tooltip `label (TYPE) -
   * Subscription: id`, the icon of the item type, and the resource context
   * value exactly on instance items.
   */
  function NewTreeItem(caption: string, tenantId: string, subscriptionId: string,
                       collapsible: CollapsibleState, itemType: ItemType, info: ResourceRef): (item: TreeItem)
    ensures item.caption == caption && item.tenantId == tenantId && item.subscriptionId == subscriptionId
    ensures item.collapsible == collapsible && item.itemType == itemType && item.info == info
    ensures StartsWith(item.tooltip, caption) && EndsWith(item.tooltip, subscriptionId)
    ensures item.iconName == IconName(itemType)
    ensures item.contextValue.Some? <==> IsInstanceItem(itemType)
    ensures item.contextValue.Some? ==> item.contextValue.value == ResourceContextValue
  {
    var tooltip := caption + " (" + ItemTypeValue(itemType) + ") - Subscription: " + subscriptionId;
    assert tooltip[..|caption|] == caption;
    TreeItem(caption, tenantId, subscriptionId, collapsible, itemType, info, tooltip, IconName(itemType),
      if IsInstanceItem(itemType) then Some(ResourceContextValue) else None)
  }

  // ================================================================ children

  /** `AzureResourceDisplayName`: the captions of the three type nodes. */
  const AIServiceDisplayName := "Azure AI service"
  const CognitiveServicesDisplayName := "Azure AI services multi-service account"
  const SpeechServiceDisplayName := "Speech Service"

  /** The root items: one collapsed Subscription item per subscription. */
  function SubscriptionItems(subs: seq<SubscriptionInfo>): (items: seq<TreeItem>)
    ensures |items| == |subs|
    ensures forall i :: 0 <= i < |subs| ==>
              items[i] == NewTreeItem(subs[i].name, subs[i].tenantId, subs[i].id, Collapsed, Subscription, OfSubscription(subs[i]))
  {
    seq(|subs|, i requires 0 <= i < |subs| =>
      NewTreeItem(subs[i].name, subs[i].tenantId, subs[i].id, Collapsed, Subscription, OfSubscription(subs[i])))
  }

  /** The three type nodes under a subscription item, one per service kind, inheriting its tenant, subscription and info. */
  function TypeItems(parent: TreeItem): (items: seq<TreeItem>)
    ensures |items| == 3
    ensures items[0].itemType == AIServiceType && items[0].caption == AIServiceDisplayName
    ensures items[1].itemType == CognitiveServicesType && items[1].caption == CognitiveServicesDisplayName
    ensures items[2].itemType == SpeechServiceType && items[2].caption == SpeechServiceDisplayName
    ensures forall i :: 0 <= i < 3 ==>
              && IsTypeItem(items[i].itemType) && items[i].collapsible == Collapsed
              && items[i].tenantId == parent.tenantId && items[i].subscriptionId == parent.subscriptionId
              && items[i].info == parent.info
  {
    ItemKinds(AIServiceType);
    ItemKinds(CognitiveServicesType);
    ItemKinds(SpeechServiceType);
    [ NewTreeItem(AIServiceDisplayName, parent.tenantId, parent.subscriptionId, Collapsed, AIServiceType, parent.info),
      NewTreeItem(CognitiveServicesDisplayName, parent.tenantId, parent.subscriptionId, Collapsed, CognitiveServicesType, parent.info),
      NewTreeItem(SpeechServiceDisplayName, parent.tenantId, parent.subscriptionId, Collapsed, SpeechServiceType, parent.info) ]
  }

  /**
   * The unsorted items of a type node's resources. The resource id goes into
   * the item's `subscriptionId` slot, as the source passes it there.
   */
  function InstanceItems(listed: seq<AzureSpeechResourceInfo>, itemType: ItemType): (items: seq<TreeItem>)
    ensures |items| == |listed|
    ensures forall i :: 0 <= i < |listed| ==>
              items[i] == NewTreeItem(listed[i].name, listed[i].tenantId, listed[i].id, CollapsibleNone, itemType, OfResource(listed[i]))
  {
    seq(|listed|, i requires 0 <= i < |listed| =>
      NewTreeItem(listed[i].name, listed[i].tenantId, listed[i].id, CollapsibleNone, itemType, OfResource(listed[i])))
  }

  /**
   * The subscription a type node lists under: its `azureResourceInfo` read
   * as a `SubscriptionInfo`. The cast is unchecked, so a resource record
   * would lend its own id, tenant and name; the tree only ever hands a type
   * node its subscription's record.
   */
  function NodeSubscription(info: ResourceRef): SubscriptionInfo {
    match info
    case OfSubscription(sub) => sub
    case OfResource(res) => SubscriptionInfo(res.id, res.tenantId, res.name)
  }

  /**
   * What `listAzureServices(sub, [kind])` returns: nothing without a
   * session, else the resources of that one kind among the accounts the
   * subscription lists.
   */
  function ListedServices(sessionExists: bool, sub: SubscriptionInfo, kind: AccountType,
                          accounts: seq<SubscriptionProvider.Account>, displayName: AccountType -> string)
    : seq<AzureSpeechResourceInfo>
  {
    if sessionExists then SubscriptionProvider.ResourceList(sub, [kind], accounts, displayName) else []
  }

  /**
   * `getChildren`. `status` is what `getStatus` settles to (a failure is the
   * error it throws), `subs` what `listSubscriptions` returns, `sessionExists`
   * and `accounts` what `listAzureServices` sees for a type node's
   * subscription (the session and the subscription's account stream), and
   * `le` the order `localeCompare` induces on labels.
   */
  function GetChildren(element: Option<TreeItem>, status: Result<LoginStatusKind, string>,
                       subs: seq<SubscriptionInfo>, sessionExists: bool, accounts: seq<SubscriptionProvider.Account>,
                       displayName: AccountType -> string, le: (string, string) -> bool): (r: Result<seq<TreeItem>, string>)
    requires TotalPreorder(le)
    // the root: nothing when signed out or without subscriptions, else one item per subscription in order
    ensures element.None? && status.Failure? ==> r == Failure(status.error)
    ensures element.None? && status == Success(SignedOut) ==> r == Success([])
    ensures element.None? && status.Success? && status.value != SignedOut ==> r == Success(SubscriptionItems(subs))
    // a subscription node: its three type nodes
    ensures element.Some? && element.value.itemType == Subscription ==> r == Success(TypeItems(element.value))
    // a type node: the resources of its mapped account kind, as instance items sorted by label
    ensures element.Some? && IsTypeItem(element.value.itemType) ==>
              var t := element.value.itemType;
              var listed := ListedServices(sessionExists, NodeSubscription(element.value.info), AccountTypeOf(t).value,
                                           accounts, displayName);
              && r.Success?
              && multiset(r.value) == multiset(InstanceItems(listed, InstanceItemOf(t).value))
              && SortedBy(r.value, Caption, le)
    // a resource node: no children
    ensures element.Some? && IsInstanceItem(element.value.itemType) ==> r == Success([])
  {
    if element.None? then
      if status.Failure? then Failure(status.error)
      else if status.value == SignedOut then Success([])
      else if subs == [] then Success([])
      else Success(SubscriptionItems(subs))
    else
      var t := element.value.itemType;
      ItemKinds(t);
      if t == Subscription then Success(TypeItems(element.value))
      else if IsTypeItem(t) then
        var listed := ListedServices(sessionExists, NodeSubscription(element.value.info), AccountTypeOf(t).value,
                                     accounts, displayName);
        Success(SortBy(InstanceItems(listed, InstanceItemOf(t).value), Caption, le))
      else Success([])
  }

  /** A type node's children are leaves of the mapped instance kind, each carrying the resource context value. */
  lemma TypeNodeChildren(node: TreeItem, status: Result<LoginStatusKind, string>, subs: seq<SubscriptionInfo>,
                         sessionExists: bool, accounts: seq<SubscriptionProvider.Account>,
                         displayName: AccountType -> string, le: (string, string) -> bool)
    requires TotalPreorder(le) && IsTypeItem(node.itemType)
    ensures var leaves := GetChildren(Some(node), status, subs, sessionExists, accounts, displayName, le);
            && leaves.Success?
            && forall k :: 0 <= k < |leaves.value| ==>
                 && leaves.value[k].itemType == InstanceItemOf(node.itemType).value
                 && leaves.value[k].contextValue == Some(ResourceContextValue)
                 && GetChildren(Some(leaves.value[k]), status, subs, sessionExists, accounts, displayName, le) == Success([])
  {
    var leaves := GetChildren(Some(node), status, subs, sessionExists, accounts, displayName, le);
    var listed := ListedServices(sessionExists, NodeSubscription(node.info), AccountTypeOf(node.itemType).value,
                                 accounts, displayName);
    var items := InstanceItems(listed, InstanceItemOf(node.itemType).value);
    forall k | 0 <= k < |leaves.value|
      ensures leaves.value[k].itemType == InstanceItemOf(node.itemType).value
      ensures leaves.value[k].contextValue == Some(ResourceContextValue)
      ensures GetChildren(Some(leaves.value[k]), status, subs, sessionExists, accounts, displayName, le) == Success([])
    {
      assert leaves.value[k] in multiset(items);
      var m :| 0 <= m < |items| && items[m] == leaves.value[k];
      ItemKinds(leaves.value[k].itemType);
    }
  }

  /** `item` shows account `a` of kind `kind` listed under `sub`: the account's name as caption, its id in the subscription-id slot, the subscription's tenant. */
  predicate ShowsAccount(item: TreeItem, a: SubscriptionProvider.Account, kind: AccountType, sub: SubscriptionInfo) {
    && a.kind == AccountTypeValue(kind)
    && item.caption == a.name && item.subscriptionId == a.id && item.tenantId == sub.tenantId
  }

  /** Every item shows some account of kind `kind`. */
  predicate ShowsOnlyAccountsOf(items: seq<TreeItem>, accounts: seq<SubscriptionProvider.Account>,
                                kind: AccountType, sub: SubscriptionInfo) {
    forall m :: 0 <= m < |items| ==> exists i :: 0 <= i < |accounts| && ShowsAccount(items[m], accounts[i], kind, sub)
  }

  /** Every account of kind `kind` is shown by some item. */
  predicate ShowsEveryAccountOf(items: seq<TreeItem>, accounts: seq<SubscriptionProvider.Account>,
                                kind: AccountType, sub: SubscriptionInfo) {
    forall i :: 0 <= i < |accounts| && accounts[i].kind == AccountTypeValue(kind) ==>
      exists m :: 0 <= m < |items| && ShowsAccount(items[m], accounts[i], kind, sub)
  }

  /** The unsorted items of a listing show exactly the accounts of the listed kind, none without a session. */
  lemma InstanceItemsShowAccounts(sessionExists: bool, sub: SubscriptionInfo, kind: AccountType,
                                  accounts: seq<SubscriptionProvider.Account>, displayName: AccountType -> string,
                                  itemType: ItemType)
    ensures var items := InstanceItems(ListedServices(sessionExists, sub, kind, accounts, displayName), itemType);
            && (!sessionExists ==> items == [])
            && ShowsOnlyAccountsOf(items, accounts, kind, sub)
            && (sessionExists ==> ShowsEveryAccountOf(items, accounts, kind, sub))
  {
    var listed := ListedServices(sessionExists, sub, kind, accounts, displayName);
    var items := InstanceItems(listed, itemType);
    var kept := SubscriptionProvider.SelectedAccounts(accounts, [kind]);
    forall m | 0 <= m < |items|
      ensures exists i :: 0 <= i < |accounts| && ShowsAccount(items[m], accounts[i], kind, sub)
    {
      assert sessionExists;
      var a := kept[m];
      assert a in accounts;
      var i :| 0 <= i < |accounts| && accounts[i] == a;
      assert SubscriptionProvider.KindIn(a.kind, [kind]);
      assert ShowsAccount(items[m], accounts[i], kind, sub);
    }
    if sessionExists {
      forall i | 0 <= i < |accounts| && accounts[i].kind == AccountTypeValue(kind)
        ensures exists m :: 0 <= m < |items| && ShowsAccount(items[m], accounts[i], kind, sub)
      {
        ParseAccountKindOfValue(kind);
        assert SubscriptionProvider.KindIn(accounts[i].kind, [kind]);
        assert accounts[i] in kept;
        var m :| 0 <= m < |kept| && kept[m] == accounts[i];
        assert ShowsAccount(items[m], accounts[i], kind, sub);
      }
    }
  }

  /**
   * A type node's children are its subscription's accounts of the node's
   * mapped account kind: each child shows such an account, each such account
   * has a child showing it, and without a session there are no children.
   */
  lemma TypeNodeListsItsKind(node: TreeItem, status: Result<LoginStatusKind, string>, subs: seq<SubscriptionInfo>,
                             sessionExists: bool, accounts: seq<SubscriptionProvider.Account>,
                             displayName: AccountType -> string, le: (string, string) -> bool)
    requires TotalPreorder(le) && IsTypeItem(node.itemType)
    ensures var kids := GetChildren(Some(node), status, subs, sessionExists, accounts, displayName, le);
            var kind := AccountTypeOf(node.itemType).value;
            var sub := NodeSubscription(node.info);
            && kids.Success?
            && (!sessionExists ==> kids.value == [])
            && ShowsOnlyAccountsOf(kids.value, accounts, kind, sub)
            && (sessionExists ==> ShowsEveryAccountOf(kids.value, accounts, kind, sub))
  {
    var kind := AccountTypeOf(node.itemType).value;
    var sub := NodeSubscription(node.info);
    var items := InstanceItems(ListedServices(sessionExists, sub, kind, accounts, displayName), InstanceItemOf(node.itemType).value);
    var kids := GetChildren(Some(node), status, subs, sessionExists, accounts, displayName, le);
    assert kids.Success? && multiset(kids.value) == multiset(items);
    InstanceItemsShowAccounts(sessionExists, sub, kind, accounts, displayName, InstanceItemOf(node.itemType).value);
    ShowsAccountsOfPermutation(kids.value, items, accounts, kind, sub);
  }

  /** Reordering items changes neither which accounts they show nor whether there are any. */
  lemma ShowsAccountsOfPermutation(kids: seq<TreeItem>, items: seq<TreeItem>, accounts: seq<SubscriptionProvider.Account>,
                                   kind: AccountType, sub: SubscriptionInfo)
    requires multiset(kids) == multiset(items)
    ensures items == [] ==> kids == []
    ensures ShowsOnlyAccountsOf(items, accounts, kind, sub) ==> ShowsOnlyAccountsOf(kids, accounts, kind, sub)
    ensures ShowsEveryAccountOf(items, accounts, kind, sub) ==> ShowsEveryAccountOf(kids, accounts, kind, sub)
  {
    if items == [] {
      assert |kids| == |multiset(kids)| == 0;
    }
    forall k | 0 <= k < |kids| ensures kids[k] in items {
      assert kids[k] in multiset(items);
    }
    forall m | 0 <= m < |items| ensures items[m] in kids {
      assert items[m] in multiset(kids);
    }
  }
}
