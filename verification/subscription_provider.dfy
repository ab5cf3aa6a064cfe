/**
 * `VSCodeAzureSubscriptionProvider` (src/common/vscodeAzureSubscriptionProvider.ts):
 * the scope lists handed to the VS Code authentication provider, and the
 * shaping of the lists the Azure management SDK pages out (subscriptions per
 * tenant, Cognitive Services accounts, resource groups). The SDK page streams
 * are inputs; the authentication session and the clients are not modelled.
 */
module SubscriptionProvider {
  import opened Common
  import opened Text
  import opened Collections
  import opened AzureTypes

  // ================================================================ scopes

  /** The id of the Microsoft authentication provider. */
  const Microsoft := "microsoft"

  /** The prefix of the pseudo-scope that pins a session to a tenant. */
  const TenantScopePrefix := "VSCODE_TENANT:"

  /** `managementEndpointUrl` of the AzureCloud environment. */
  const AzureCloudManagementEndpoint := "https://management.core.windows.net/"

  /** `ensureEndingSlash`: `value` with a `/` appended unless it already ends with one. */
  function EnsureEndingSlash(value: string): (r: string)
    ensures EndsWith(r, "/")
    ensures StartsWith(r, value) && |value| <= |r| <= |value| + 1
    ensures EndsWith(value, "/") ==> r == value
  {
    if EndsWith(value, "/") then value else value + "/"
  }

  lemma EnsureEndingSlashIdempotent(value: string)
    ensures EnsureEndingSlash(EnsureEndingSlash(value)) == EnsureEndingSlash(value)
  {
  }

  /** The `scopes?: string | string[]` argument of `getResourceScopes`/`getScopes`. */
  datatype ScopesArg = NoScopes | ScopeString(s: string) | ScopeArray(a: seq<string>)

  /** `scopes === undefined || scopes === "" || scopes.length === 0`. */
  predicate FallsBackToEndpoint(arg: ScopesArg) {
    arg == NoScopes || arg == ScopeString("") || arg == ScopeArray([])
  }

  /** What iterating a string yields: its characters, each as a one-character string. */
  function Characters(s: string): (r: seq<string>)
    ensures |r| == |s| && forall i :: 0 <= i < |s| ==> r[i] == [s[i]]
  {
    seq(|s|, i requires 0 <= i < |s| => [s[i]])
  }

  /** `Array.from(new Set<string>(iterable))` for the iterables `getResourceScopes` can build the set from. */
  function SetOfIterable(arg: ScopesArg): seq<string> {
    match arg
    case NoScopes => []
    case ScopeString(s) => Dedup(Characters(s))
    case ScopeArray(a) => Dedup(a)
  }

  /**
   * `getResourceScopes` as written: the fallback assigns the endpoint URL
   * itself (a string) to `scopes`, and the Set is then built from that string.
   */
  function GetResourceScopesAsWritten(arg: ScopesArg, endpoint: string): (r: seq<string>)
    ensures NoDuplicates(r)
    ensures arg.ScopeArray? && arg.a != [] ==> r == GetResourceScopes(arg, endpoint)
  {
    SetOfIterable(if FallsBackToEndpoint(arg) then ScopeString(EnsureEndingSlash(endpoint)) else arg)
  }

  /**
   * As written, every string-valued scope argument, the fallback endpoint
   * included, comes out as its distinct characters, starting with its first
   * one: the URL itself is never among the scopes.
   */
  lemma {:induction false} ResourceScopesAsWrittenSplitsStrings(arg: ScopesArg, endpoint: string)
    requires !arg.ScopeArray? || arg.a == []
    ensures var r := GetResourceScopesAsWritten(arg, endpoint);
            && (forall i :: 0 <= i < |r| ==> |r[i]| == 1)
            && (arg.ScopeString? && |arg.s| >= 2 ==> arg.s !in r)
            && (FallsBackToEndpoint(arg) && |endpoint| >= 2 ==> EnsureEndingSlash(endpoint) !in r)
            && (FallsBackToEndpoint(arg) ==> r[0] == [EnsureEndingSlash(endpoint)[0]])
  {
    var s := if FallsBackToEndpoint(arg) then EnsureEndingSlash(endpoint) else arg.s;
    var c := Characters(s);
    var r := GetResourceScopesAsWritten(arg, endpoint);
    assert r == Dedup(c);
    forall i | 0 <= i < |r| ensures |r[i]| == 1 {
      assert r[i] in c;
    }
    assert forall x :: x in r ==> |x| == 1;
    if s != [] {
      assert c[0] in r;
      var k :| 0 <= k < |r| && r[k] == c[0];
      assert FirstIndex(c, r[k]) == 0;
    }
  }

  /**
   * A call without scopes on the public cloud asks, as written, for the
   * scope "h" and never for the endpoint. (The callers in this repository
   * all pass `AzureScopes`, whose value is not part of this model; they
   * reach this path only if that list is empty.)
   */
  lemma ResourceScopesAsWrittenOnAzureCloud()
    ensures GetResourceScopesAsWritten(NoScopes, AzureCloudManagementEndpoint)[0] == "h"
    ensures AzureCloudManagementEndpoint !in GetResourceScopesAsWritten(NoScopes, AzureCloudManagementEndpoint)
  {
    var e := AzureCloudManagementEndpoint;
    assert e[|e| - 1] == '/';
    assert EnsureEndingSlash(e) == e;
    ResourceScopesAsWrittenSplitsStrings(NoScopes, e);
  }

  /**
   * `getResourceScopes` as evidently intended: the fallback endpoint, or a
   * single scope string, stands for a one-element scope list; an array loses
   * its duplicates and keeps first-occurrence order.
   */
  function GetResourceScopes(arg: ScopesArg, endpoint: string): (r: seq<string>)
    ensures FallsBackToEndpoint(arg) ==> r == [EnsureEndingSlash(endpoint)]
    ensures arg.ScopeString? && arg.s != "" ==> r == [arg.s]
    ensures arg.ScopeArray? && arg.a != [] ==> DistinctInFirstOrder(r, arg.a)
  {
    if FallsBackToEndpoint(arg) then [EnsureEndingSlash(endpoint)]
    else match arg
      case ScopeString(s) => [s]
      case ScopeArray(a) => Dedup(a)
  }

  /** The pseudo-scope naming `tenantId`. */
  function TenantScope(tenantId: string): string {
    TenantScopePrefix + tenantId
  }

  /** `addTenantIdScope`: the scopes and the tenant scope, each exactly once. */
  function AddTenantIdScope(scopes: seq<string>, tenantId: string): (r: seq<string>)
    ensures forall x :: x in r <==> x in scopes || x == TenantScope(tenantId)
    ensures NoDuplicates(r)
  {
    var r := Dedup(scopes + [TenantScope(tenantId)]);
    assert forall i :: 0 <= i < |scopes| ==> (scopes + [TenantScope(tenantId)])[i] == scopes[i];
    assert (scopes + [TenantScope(tenantId)])[|scopes|] == TenantScope(tenantId);
    r
  }

  /** `getScopes`: the resource scopes, plus the tenant scope when a tenant id is given and not empty. */
  function GetScopes(arg: ScopesArg, tenantId: Option<string>, endpoint: string): (r: seq<string>)
    ensures Truthy(tenantId) ==> TenantScope(tenantId.value) in r
    ensures forall x :: x in r <==>
              x in GetResourceScopes(arg, endpoint) || (Truthy(tenantId) && x == TenantScope(tenantId.value))
    ensures !Truthy(tenantId) ==> r == GetResourceScopes(arg, endpoint)
  {
    var scopes := GetResourceScopes(arg, endpoint);
    if Truthy(tenantId) then AddTenantIdScope(scopes, tenantId.value) else scopes
  }

  /** Some scope of `r` pins a tenant. */
  predicate HasTenantScope(r: seq<string>) {
    exists i :: 0 <= i < |r| && StartsWith(r[i], TenantScopePrefix)
  }

  /** When the requested scopes pin no tenant themselves, a tenant scope is present exactly when a non-empty tenant id is given. */
  lemma GetScopesPinsTenantIff(arg: ScopesArg, tenantId: Option<string>, endpoint: string)
    requires !HasTenantScope(GetResourceScopes(arg, endpoint))
    ensures HasTenantScope(GetScopes(arg, tenantId, endpoint)) <==> Truthy(tenantId)
  {
    var base := GetResourceScopes(arg, endpoint);
    var r := GetScopes(arg, tenantId, endpoint);
    if Truthy(tenantId) {
      var t := TenantScope(tenantId.value);
      assert t in r;
      var k :| 0 <= k < |r| && r[k] == t;
      assert r[k][..|TenantScopePrefix|] == TenantScopePrefix;
    } else {
      assert r == base;
    }
  }

  // ================================================================ subscriptions

  /** A subscription as the SDK pages it out (`displayName` and `subscriptionId` are taken as present). */
  datatype RawSubscription = RawSubscription(displayName: string, subscriptionId: string)

  /** The subscription stream of one tenant: all its pages, or an exception. */
  datatype TenantListing = Listed(page: seq<RawSubscription>) | ListingFailed

  datatype TenantEnumeration = TenantEnumeration(tenantId: string, listing: TenantListing)

  /** The subscription record built for `raw` when it is listed under `tenantId`. */
  function Tagged(tenantId: string, raw: RawSubscription): AzureSubscription {
    AzureSubscription(raw.displayName, raw.subscriptionId, tenantId)
  }

  /**
   * `getSubscriptionsForTenant`: one record per listed subscription, in
   * listing order, each under the tenant it was listed for.
   */
  method GetSubscriptionsForTenant(tenantId: string, page: seq<RawSubscription>) returns (subs: seq<AzureSubscription>)
    ensures |subs| == |page|
    ensures forall i :: 0 <= i < |subs| ==>
              subs[i].tenantId == tenantId
              && subs[i].name == page[i].displayName
              && subs[i].subscriptionId == page[i].subscriptionId
  {
    subs := [];
    for i := 0 to |page|
      invariant |subs| == i
      invariant forall k :: 0 <= k < i ==> subs[k] == Tagged(tenantId, page[k])
    {
      subs := subs + [Tagged(tenantId, page[i])];
    }
  }

  /** What one tenant adds to the flattened list: nothing when its enumeration threw. */
  function TenantContribution(t: TenantEnumeration): (r: seq<AzureSubscription>)
    ensures t.listing.ListingFailed? ==> r == []
    ensures t.listing.Listed? ==> |r| == |t.listing.page|
    ensures forall i :: 0 <= i < |r| ==> r[i].tenantId == t.tenantId
  {
    match t.listing
    case ListingFailed => []
    case Listed(page) => seq(|page|, i requires 0 <= i < |page| => Tagged(t.tenantId, page[i]))
  }

  /** The tenants' subscription lists, concatenated in tenant order. */
  function ListedSubscriptions(tenants: seq<TenantEnumeration>): seq<AzureSubscription> {
    if tenants == [] then []
    else ListedSubscriptions(tenants[..|tenants| - 1]) + TenantContribution(tenants[|tenants| - 1])
  }

  lemma {:induction false} ListedSubscriptionsAppend(a: seq<TenantEnumeration>, b: seq<TenantEnumeration>)
    ensures ListedSubscriptions(a + b) == ListedSubscriptions(a) + ListedSubscriptions(b)
    decreases |b|
  {
    if b == [] {
      assert a + b == a;
    } else {
      var b0, last := b[..|b| - 1], b[|b| - 1];
      ListedSubscriptionsAppend(a, b0);
      assert (a + b)[..|a + b| - 1] == a + b0;
      assert (a + b)[|a + b| - 1] == last;
      assert ListedSubscriptions(a + b) == ListedSubscriptions(a + b0) + TenantContribution(last);
      assert ListedSubscriptions(b) == ListedSubscriptions(b0) + TenantContribution(last);
    }
  }

  /** A tenant whose enumeration throws contributes nothing: the result is as if it were not there. */
  lemma FailingTenantContributesNothing(tenants: seq<TenantEnumeration>, k: nat)
    requires k < |tenants| && tenants[k].listing.ListingFailed?
    ensures ListedSubscriptions(tenants) == ListedSubscriptions(tenants[..k] + tenants[k + 1..])
  {
    var before, after := tenants[..k], tenants[k + 1..];
    var upTo := before + [tenants[k]];
    assert tenants == upTo + after;
    ListedSubscriptionsAppend(upTo, after);
    assert upTo[..|upTo| - 1] == before;
    assert ListedSubscriptions(upTo) == ListedSubscriptions(before);
    ListedSubscriptionsAppend(before, after);
  }

  /** Every flattened subscription was listed by a tenant whose enumeration succeeded, and carries that tenant's id. */
  lemma {:induction false} ListedSubscriptionsComeFromTenants(tenants: seq<TenantEnumeration>, s: AzureSubscription)
    requires s in ListedSubscriptions(tenants)
    ensures exists k :: 0 <= k < |tenants| && tenants[k].listing.Listed?
              && s.tenantId == tenants[k].tenantId
              && RawSubscription(s.name, s.subscriptionId) in tenants[k].listing.page
  {
    var n := |tenants|;
    var init := tenants[..n - 1];
    if s in ListedSubscriptions(init) {
      ListedSubscriptionsComeFromTenants(init, s);
      var k :| 0 <= k < |init| && init[k].listing.Listed?
               && s.tenantId == init[k].tenantId
               && RawSubscription(s.name, s.subscriptionId) in init[k].listing.page;
      assert tenants[k] == init[k];
    } else {
      var c := TenantContribution(tenants[n - 1]);
      assert s in c;
      var j :| 0 <= j < |c| && c[j] == s;
      assert tenants[n - 1].listing.page[j] == RawSubscription(s.name, s.subscriptionId);
    }
  }

  function SubscriptionName(s: AzureSubscription): string {
    s.name
  }

  /**
   * `getSubscriptions`: the subscriptions of every tenant whose enumeration
   * did not throw, flattened, then sorted by name with `localeCompare`.
   */
  method GetSubscriptions(tenants: seq<TenantEnumeration>, le: (string, string) -> bool) returns (subs: seq<AzureSubscription>)
    requires TotalPreorder(le)
    ensures multiset(subs) == multiset(ListedSubscriptions(tenants))
    ensures SortedBy(subs, SubscriptionName, le)
  {
    var results: seq<AzureSubscription> := [];
    for i := 0 to |tenants|
      invariant results == ListedSubscriptions(tenants[..i])
    {
      assert tenants[..i + 1][..i] == tenants[..i];
      match tenants[i].listing
      case Listed(page) =>
        var part := GetSubscriptionsForTenant(tenants[i].tenantId, page);
        assert part == TenantContribution(tenants[i]);
        results := results + part;
      case ListingFailed =>
    }
    assert tenants[..|tenants|] == tenants;
    subs := SortBy(results, SubscriptionName, le);
  }

  // ================================================================ accounts

  /** A Cognitive Services account as the SDK pages it out (`sku.name` flattened to `skuName`). */
  datatype Account = Account(id: string, name: string, kind: string, location: string, skuName: string)

  /** `accountTypes.includes(kind)`. */
  predicate KindIn(kind: string, accountTypes: seq<AccountType>) {
    ParseAccountKind(kind).Some? && ParseAccountKind(kind).value in accountTypes
  }

  /** A kind is selected exactly when it is the value of one of the requested account types. */
  lemma KindInIff(kind: string, accountTypes: seq<AccountType>)
    ensures KindIn(kind, accountTypes) <==> exists i :: 0 <= i < |accountTypes| && AccountTypeValue(accountTypes[i]) == kind
  {
    if i :| 0 <= i < |accountTypes| && AccountTypeValue(accountTypes[i]) == kind {
      assert ParseAccountKind(kind) == Some(accountTypes[i]);
    }
  }

  function IsSelected(accountTypes: seq<AccountType>): Account -> bool {
    (a: Account) => KindIn(a.kind, accountTypes)
  }

  /** `accounts.filter(...)`: exactly the accounts of a requested kind, in iteration order. */
  function SelectedAccounts(accounts: seq<Account>, accountTypes: seq<AccountType>): (r: seq<Account>)
    ensures IsSubsequence(r, accounts)
    ensures forall i :: 0 <= i < |r| ==> r[i] in accounts
    ensures forall i :: 0 <= i < |r| ==> KindIn(r[i].kind, accountTypes)
    ensures forall i :: 0 <= i < |accounts| && KindIn(accounts[i].kind, accountTypes) ==> accounts[i] in r
    ensures forall a :: multiset(r)[a] == if KindIn(a.kind, accountTypes) then multiset(accounts)[a] else 0
  {
    FilterIsSubsequence(accounts, IsSelected(accountTypes));
    FilterMultiset(accounts, IsSelected(accountTypes));
    Filter(accounts, IsSelected(accountTypes))
  }

  /** The resource record for a selected account, tagged with the subscription it was listed under. */
  function ToResource(sub: SubscriptionInfo, a: Account, displayName: AccountType -> string): AzureSpeechResourceInfo
    requires ParseAccountKind(a.kind).Some?
  {
    AzureSpeechResourceInfo(a.id, a.name, sub.id, sub.name, sub.tenantId, a.location,
      displayName(ParseAccountKind(a.kind).value), a.skuName)
  }

  /**
   * The records `getAzureResourceListWithType` builds: one per account of a
   * requested kind, in iteration order, carrying the account's own fields
   * and the subscription's id, name and tenant.
   */
  function ResourceList(sub: SubscriptionInfo, accountTypes: seq<AccountType>,
                        accounts: seq<Account>, displayName: AccountType -> string): (r: seq<AzureSpeechResourceInfo>)
    ensures var kept := SelectedAccounts(accounts, accountTypes);
            |r| == |kept|
            && forall i :: 0 <= i < |r| ==>
                 && r[i].id == kept[i].id && r[i].name == kept[i].name
                 && r[i].region == kept[i].location && r[i].sku == kept[i].skuName
                 && r[i].subscriptionId == sub.id && r[i].subscriptionName == sub.name
                 && r[i].tenantId == sub.tenantId
  {
    var kept := SelectedAccounts(accounts, accountTypes);
    seq(|kept|, i requires 0 <= i < |kept| => ToResource(sub, kept[i], displayName))
  }

  /**
   * `getAzureResourceListWithType`: filters the account stream by kind, then
   * pushes one record per kept account. The display-name mapping is not part
   * of this model and is a parameter.
   */
  method GetAzureResourceListWithType(sub: SubscriptionInfo, accountTypes: seq<AccountType>,
                                      accounts: seq<Account>, displayName: AccountType -> string)
    returns (resources: seq<AzureSpeechResourceInfo>)
    ensures resources == ResourceList(sub, accountTypes, accounts, displayName)
  {
    resources := [];
    ghost var kept: seq<Account> := [];
    for i := 0 to |accounts|
      invariant kept == Filter(accounts[..i], IsSelected(accountTypes))
      invariant |resources| == |kept|
      invariant forall k :: 0 <= k < |kept| ==> ParseAccountKind(kept[k].kind).Some?
      invariant forall k :: 0 <= k < |kept| ==> resources[k] == ToResource(sub, kept[k], displayName)
    {
      FilterSnoc(accounts[..i], accounts[i], IsSelected(accountTypes));
      assert accounts[..i + 1] == accounts[..i] + [accounts[i]];
      if KindIn(accounts[i].kind, accountTypes) {
        resources := resources + [ToResource(sub, accounts[i], displayName)];
        kept := kept + [accounts[i]];
      }
    }
    assert accounts[..|accounts|] == accounts;
  }

  // ================================================================ resource groups

  /** A resource group as the SDK pages it out; its name may be missing. */
  datatype ResourceGroupEntry = ResourceGroupEntry(name: Option<string>, location: string)

  /** How the resource-group page stream ends once its entries are consumed. */
  datatype StreamEnd = Exhausted | Threw(message: string)

  /** `result.value?.name` is truthy. */
  predicate HasName(g: ResourceGroupEntry) {
    Truthy(g.name)
  }

  function GroupInfo(g: ResourceGroupEntry): ResourceGroupInfo
    requires HasName(g)
  {
    ResourceGroupInfo(g.name.value, g.location)
  }

  /** The `{name, location}` records of entries that all have a name. */
  function GroupInfos(named: seq<ResourceGroupEntry>): (r: seq<ResourceGroupInfo>)
    requires forall i :: 0 <= i < |named| ==> HasName(named[i])
    ensures |r| == |named| && forall i :: 0 <= i < |named| ==> r[i] == GroupInfo(named[i])
  {
    seq(|named|, i requires 0 <= i < |named| => GroupInfo(named[i]))
  }

  /** `named` holds every copy of each named entry, and nothing else. */
  ghost predicate KeepsEveryNamedCopy(named: seq<ResourceGroupEntry>, entries: seq<ResourceGroupEntry>) {
    forall e :: multiset(named)[e] == if HasName(e) then multiset(entries)[e] else 0
  }

  /**
   * The `{name, location}` records of the named entries, in page order: the
   * records of a subsequence of named entries that keeps every copy of each named entry.
   */
  function NamedGroupInfos(entries: seq<ResourceGroupEntry>): (r: seq<ResourceGroupInfo>)
    ensures forall i :: 0 <= i < |r| ==> r[i].name != ""
    ensures exists named ::
              && IsSubsequence(named, entries) && |named| == |r|
              && (forall i :: 0 <= i < |named| ==> HasName(named[i]) && r[i] == GroupInfo(named[i]))
              && KeepsEveryNamedCopy(named, entries)
    ensures forall k :: 0 <= k < |entries| && HasName(entries[k]) ==> GroupInfo(entries[k]) in r
  {
    var named := Filter(entries, HasName);
    FilterIsSubsequence(entries, HasName);
    FilterMultiset(entries, HasName);
    assert KeepsEveryNamedCopy(named, entries);
    var r := GroupInfos(named);
    forall k | 0 <= k < |entries| && HasName(entries[k]) ensures GroupInfo(entries[k]) in r {
      var j :| 0 <= j < |named| && named[j] == entries[k];
      assert r[j] == GroupInfo(entries[k]);
    }
    r
  }

  /** The error `getResourceGroupListBySubscriptionId` rethrows. */
  function ResourceGroupListError(sub: SubscriptionInfo, error: string): string {
    "Unable to retrieve resource groups for subscription: " + sub.name + ". Error: " + error
  }

  /**
   * `getResourceGroupListBySubscriptionId`: a failure to get the credential
   * (outside the `try`) propagates as it is; otherwise the page stream is
   * read as `ReadGroupPages` reads it.
   */
  method GetResourceGroupListBySubscriptionId(sub: SubscriptionInfo, credential: Outcome<string>,
                                              entries: seq<ResourceGroupEntry>, end: StreamEnd)
    returns (r: Result<seq<ResourceGroupInfo>, string>)
    ensures credential.Fail? ==> r == Failure(credential.error)
    ensures credential.Pass? && end.Exhausted? ==> r == Success(NamedGroupInfos(entries))
    ensures credential.Pass? && end.Threw? ==> r == Failure(ResourceGroupListError(sub, end.message))
  {
    if credential.Fail? {
      return Failure(credential.error);
    }
    r := ReadGroupPages(sub, entries, end);
  }

  /**
   * The `try` block of `getResourceGroupListBySubscriptionId`: reads the page
   * stream entry by entry until it is done, keeping `{name, location}` of
   * every named entry; an exception from the stream is rethrown with the
   * subscription's name.
   */
  method ReadGroupPages(sub: SubscriptionInfo, entries: seq<ResourceGroupEntry>, end: StreamEnd)
    returns (r: Result<seq<ResourceGroupInfo>, string>)
    ensures end.Exhausted? ==> r == Success(NamedGroupInfos(entries))
    ensures end.Threw? ==> r == Failure(ResourceGroupListError(sub, end.message))
  {
    var results: seq<ResourceGroupInfo> := [];
    var i := 0;
    var done := false;
    while !done
      invariant 0 <= i <= |entries|
      invariant results == GroupInfos(Filter(entries[..i], HasName))
      invariant done ==> i == |entries| && end.Exhausted?
      decreases 2 * (|entries| - i) + (if done then 0 else 1)
    {
      if i < |entries| {
        FilterSnoc(entries[..i], entries[i], HasName);
        assert entries[..i + 1] == entries[..i] + [entries[i]];
        if HasName(entries[i]) {
          results := results + [GroupInfo(entries[i])];
        }
        i := i + 1;
      } else {
        match end
        case Threw(message) =>
          return Failure(ResourceGroupListError(sub, message));
        case Exhausted =>
          done := true;
      }
    }
    assert entries[..i] == entries;
    assert results == NamedGroupInfos(entries);
    r := Success(results);
  }

  /**
   * A record is reported exactly when some named entry gives it: every
   * entry with a name is reported, and an entry without one never is.
   */
  lemma NamedGroupsReported(entries: seq<ResourceGroupEntry>, g: ResourceGroupInfo)
    ensures g in NamedGroupInfos(entries) <==>
              exists k :: 0 <= k < |entries| && HasName(entries[k]) && g == GroupInfo(entries[k])
    ensures |NamedGroupInfos(entries)| <= |entries|
  {
    var r := NamedGroupInfos(entries);
    var named := Filter(entries, HasName);
    if g in r {
      var i :| 0 <= i < |r| && r[i] == g;
      assert named[i] in entries;
      var k :| 0 <= k < |entries| && entries[k] == named[i];
    }
  }
}
