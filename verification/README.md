# Azure AI Speech Toolkit: a Dafny model of its core logic

This project models the sequential, deterministic logic of the Azure AI Speech
Toolkit extension for VS Code, and proves properties of it in Dafny 4.11.
That logic is:

- **The account manager** (`AzureAccountManager`, module `AzureLogin`):
  - the sign-in status and the selected tenant, subscription id and name, as fields of one class;
  - `login`, `signout`, `setSubscription`, `clearSub`, `getStatus`, `selectSubscription` and `getSelectedSubscription`;
  - the prompts that pick a speech resource, a region, a pricing tier and a resource group, each with its "create new" option first;
  - the default resource names, built from the account's user name and a 14-digit timestamp.
- **The subscription provider** (module `SubscriptionProvider`):
  - the scope lists given to the VS Code authentication provider;
  - tenant-by-tenant subscription listing, sorted by name;
  - filtering of Cognitive Services accounts by kind;
  - collection of named resource groups.
- **The resource tree** (module `ResourceTree`):
  - the three item-type enumerations and their closed mappings to account kinds, instance items and icons;
  - the items the `ResourceTreeItem` constructor builds;
  - the three-level `getChildren` dispatch.
- **The sample gallery** (module `SampleGallery`):
  - the case-insensitive tag filter, which is OR within a category and AND across the capability, language and platform categories;
  - the scenario/quickstart split of the displayed samples;
  - the selected-sample lookup;
  - the component state that the message handler and the callbacks update.
- **The survey banner** (module `Survey`): when the banner is due, given three persisted keys and the current time, and what each answer writes back.
- **The env-file helpers** (module `EnvUtils`):
  - `extractEnvValue`, the multiline regular expression `^KEY=(.+)$`, modelled position by position and proved equal to a line-by-line reading;
  - `isSpeechResourceSeleted`.
- **The telemetry property builders** (module `TelemetryUtils`): `KEY=VALUE` line parsing into a dictionary, and the success/failure property maps.

Four helper modules sit under these:

- `Common`: `Option`, `Result`, `Outcome` and JavaScript truthiness.
- `Text`: JavaScript's `trim`, `split`, `includes`, `toLowerCase` and `slice`.
- `Collections`:
  - `filter` and `findIndex`;
  - `Array.from(new Set(...))`;
  - a stable sort over an abstract total preorder standing for `localeCompare`.
- `AzureTypes`: the shared records and the `AzureResourceAccountType` enumeration.

Whatever the code awaits from VS Code, from the Azure SDK or from the user comes in as a parameter:

- whether an authentication session exists;
- the subscription, tenant, account and resource-group page streams;
- dialog and quick-pick answers;
- the input-box text;
- the current time;
- the random sample;
- the env-file content.

## Model

| member | source | states |
|---|---|---|
| AzureTypes.ParseAccountKind | azure-ai-speech-toolkit/src/common/constants.ts:32-36 | a string is parsed to the account type whose enumeration value it is, and to nothing when no value matches |
| AzureTypes.ParseAccountKindOfValue | azure-ai-speech-toolkit/src/common/constants.ts:32-36 | parsing an enumeration value gives back its account type |
| AzureLogin.SetSubscriptionSpec | azure-ai-speech-toolkit/src/common/azureLogin.ts:306-335 | `""` clears all three fields and succeeds; otherwise, with a session, the first subscription with that id supplies tenant, id and name; it fails as an unknown subscription exactly when the id is non-empty and there is no session or no match, and a failure leaves the selection as it was |
| AzureLogin.SubscriptionInfos | azure-ai-speech-toolkit/src/common/azureLogin.ts:277-292 | without a session the list is empty; with one, there is one record per provider subscription, in order, carrying its id, tenant and name |
| AzureLogin.SubscriptionPrompt | azure-ai-speech-toolkit/src/common/azureLogin.ts:670-682 | a prompt is shown exactly when there is more than one subscription, and it offers one option per subscription (id and name), in order; the option's `data: sub.tenantId` is left out because the pick reads only the id |
| AzureLogin.SelectSubscriptionSpec | azure-ai-speech-toolkit/src/common/azureLogin.ts:655-692 | no session or no subscription fails with "We couldn't find a subscription." and changes nothing; exactly one is set without asking; with several, a rejected prompt propagates its error unchanged and a picked id is set as `setSubscription` sets it |
| AzureLogin.SelectSingleSubscription | azure-ai-speech-toolkit/src/common/azureLogin.ts:668-669 | a single subscription is selected with its tenant, id and name, whatever the prompt would have answered |
| AzureLogin.SelectOfferedSubscription | azure-ai-speech-toolkit/src/common/azureLogin.ts:670-690 | picking the k-th offered option succeeds and selects that subscription's id; when ids are distinct it selects exactly that subscription's tenant and name |
| AzureLogin.FirstDecisiveAnswer | azure-ai-speech-toolkit/src/common/azureLogin.ts:186-200 | the position of the first dialog answer other than "Learn more"; every earlier answer is "Learn more" |
| AzureLogin.LoginFailureMessage | azure-ai-speech-toolkit/src/common/azureLogin.ts:121-135 | an error whose message contains "User did not consent " becomes the UserCancel error; any other message is rethrown as it is |
| AzureLogin.SessionOutcome | azure-ai-speech-toolkit/src/common/azureLogin.ts:96-135 | login succeeds exactly when a session is granted; success leaves the status LoggingIn and any failure leaves it LoggedOut (never LoggedIn); a consent refusal fails as UserCancel |
| AzureLogin.LoginLeavesSelectionPending | azure-ai-speech-toolkit/src/common/azureLogin.ts:96-120 | a login that succeeds leaves the status LoggingIn, not LoggedIn |
| AzureLogin.CredentialIndex | azure-ai-speech-toolkit/src/common/azureLogin.ts:148-179 | the credential comes from the first subscription in the selected tenant when the tenant is set and present, and from the first subscription otherwise |
| AzureLogin.Timestamp | azure-ai-speech-toolkit/src/common/azureLogin.ts:591 | the timestamp has at most 14 characters and none of `- : . T` |
| AzureLogin.TimestampOfWellFormedIso | azure-ai-speech-toolkit/src/common/azureLogin.ts:591 | on an ISO time `YYYY-MM-DDTHH:mm:ss.sssZ` the timestamp is exactly `YYYYMMDDHHmmss` |
| AzureLogin.Username | azure-ai-speech-toolkit/src/common/azureLogin.ts:593-596 | the user name is the non-empty text before the first `@` of the email (of the upn when the email is missing or empty), else "dummy"; it never contains `@` |
| AzureLogin.DefaultResourceGroupName | azure-ai-speech-toolkit/src/common/azureLogin.ts:597 | the proposed group name starts with the user part and ends with the timestamp |
| AzureLogin.DefaultServiceName | azure-ai-speech-toolkit/src/common/azureLogin.ts:631 | the proposed service name starts with the user part and ends with the timestamp |
| AzureLogin.DefaultNamesDiffer | azure-ai-speech-toolkit/src/common/azureLogin.ts:597-631 | for the same user and time, the proposed group name and service name differ |
| AzureLogin.AcceptedName | azure-ai-speech-toolkit/src/common/azureLogin.ts:614-620 | a cancelled or empty input rejects as a user cancellation, and only then; any other input is accepted as its trim: the slice between its leading and its trailing whitespace, which neither starts nor ends with whitespace |
| AzureLogin.AcceptedNameKeepsTidyInput | azure-ai-speech-toolkit/src/common/azureLogin.ts:614-620 | a name typed without surrounding whitespace is accepted exactly as typed |
| AzureLogin.SpeechServiceOptions | azure-ai-speech-toolkit/src/common/azureLogin.ts:435-447 | the options are "create new" followed by one option per resource, in list order, its id and `name (type, region, sku)` caption |
| AzureLogin.SpeechServicePick | azure-ai-speech-toolkit/src/common/azureLogin.ts:455-465 | a rejected prompt propagates its error; the create-new id takes the creation path; any other id selects the first resource with that id, or nothing when none has it |
| AzureLogin.PickOfferedService | azure-ai-speech-toolkit/src/common/azureLogin.ts:435-465 | with distinct ids, picking the option offered for a resource selects that very resource |
| AzureLogin.ValueOptions | azure-ai-speech-toolkit/src/common/azureLogin.ts:490-499 | one option per region or tier, in order, the value serving as id and caption |
| AzureLogin.PickedValue | azure-ai-speech-toolkit/src/common/azureLogin.ts:501-506 | the picked id is returned exactly when the prompt picked one, and its error is propagated otherwise |
| AzureLogin.ResourceGroupOptions | azure-ai-speech-toolkit/src/common/azureLogin.ts:554-566 | the options are "create new" followed by one option per resource group, in list order, its name as both id and caption |
| AzureLogin.ExistingGroupName | azure-ai-speech-toolkit/src/common/azureLogin.ts:584-585 | a picked id names a group exactly when some listed group has that name, and the group's name is then that id |
| AzureLogin.SignoutOutcome | azure-ai-speech-toolkit/src/common/azureLogin.ts:205-245 | sign-out succeeds exactly when `getStatus` reports SignedIn with decoded claims and the user confirms; a status error propagates; while signing in, signed out or without a token, reading `upn` of the undefined account info throws; a declined dialog rejects as a user cancellation |
| AzureLogin.AzureAccountManager.constructor | azure-ai-speech-toolkit/src/common/azureLogin.ts:361-377 | nothing is selected, and the status is LoggedIn when a session already exists |
| AzureLogin.AzureAccountManager.OnDidChangeSessions | azure-ai-speech-toolkit/src/common/azureLogin.ts:366-376 | events of other providers change nothing; a Microsoft event sets LoggedIn or LoggedOut from the session; the selection is kept |
| AzureLogin.AzureAccountManager.DoesUserConfirmLogin | azure-ai-speech-toolkit/src/common/azureLogin.ts:181-203 | the help page opens once per leading "Learn more", and the login is confirmed exactly when the first other answer is "Sign in" |
| AzureLogin.AzureAccountManager.Login | azure-ai-speech-toolkit/src/common/azureLogin.ts:77-137 | a declined dialog rejects with "user cancel to login" and changes nothing; otherwise the result and the new status are the session outcome's; the selection is never touched |
| AzureLogin.AzureAccountManager.Signout | azure-ai-speech-toolkit/src/common/azureLogin.ts:205-272 | the result is `SignoutOutcome` of the current `getStatus`; any failure changes nothing; a success needs a session and a status other than LoggingIn, and clears the tenant and subscription id, keeping the name and the status |
| AzureLogin.AzureAccountManager.ListSubscriptions | azure-ai-speech-toolkit/src/common/azureLogin.ts:277-292 | the loop returns the records `SubscriptionInfos` describes |
| AzureLogin.AzureAccountManager.ListAzureServices | azure-ai-speech-toolkit/src/common/azureLogin.ts:294-301 | without a session nothing is listed; with one, the provider's resources of the requested kinds |
| AzureLogin.AzureAccountManager.SetSubscription | azure-ai-speech-toolkit/src/common/azureLogin.ts:306-335 | the search loop's result and new selection are those of `SetSubscriptionSpec`, and the status is kept |
| AzureLogin.AzureAccountManager.ClearSub | azure-ai-speech-toolkit/src/common/azureLogin.ts:379-381 | the selection is cleared and the status kept |
| AzureLogin.AzureAccountManager.GetStatus | azure-ai-speech-toolkit/src/common/azureLogin.ts:337-358 | SigningIn exactly while LoggingIn; otherwise SignedIn exactly when a session exists; SignedOut exactly when neither marked LoggedIn nor holding a session; marked LoggedIn without a session, the credential lookup throws |
| AzureLogin.AzureAccountManager.DoGetAccountCredential | azure-ai-speech-toolkit/src/common/azureLogin.ts:148-179 | no session throws; no subscription uses the session; otherwise the subscription that `CredentialIndex` picks |
| AzureLogin.AzureAccountManager.GetAccountInfo | azure-ai-speech-toolkit/src/common/azureLogin.ts:383-389 | the token's claims are returned only while the status is LoggedIn |
| AzureLogin.AzureAccountManager.FetchSpeechResourceKeyAndRegion | azure-ai-speech-toolkit/src/common/azureLogin.ts:391-397 | refused unless LoggedIn; otherwise the provider's answer unchanged |
| AzureLogin.AzureAccountManager.SelectSubscription | azure-ai-speech-toolkit/src/common/azureLogin.ts:655-692 | result and new selection are those of `SelectSubscriptionSpec`; the prompt shown is `SubscriptionPrompt`'s; the status is kept |
| AzureLogin.AzureAccountManager.GetSelectedSubscription | azure-ai-speech-toolkit/src/common/azureLogin.ts:399-418 | unless LoggedIn beforehand, nothing is selected; with `triggerUI` and no session it logs in: a declined dialog rejects with "user cancel to login" and keeps the status, otherwise the status becomes the session outcome's and a failed request rejects with its error, while a granted one (still LoggingIn) yields undefined; without that login the result is undefined; when LoggedIn, the selection is made as `SelectSubscriptionSpec` says and reported with missing parts as `""`, or its error propagates |
| AzureLogin.AzureAccountManager.GetSelectedSpeechService | azure-ai-speech-toolkit/src/common/azureLogin.ts:420-467 | refused unless LoggedIn; otherwise the prompt is `SpeechServiceOptions` of the listed speech-capable resources and the answer is resolved by `SpeechServicePick` |
| AzureLogin.AzureAccountManager.GetSelectedRegion | azure-ai-speech-toolkit/src/common/azureLogin.ts:481-507 | offers one option per region and returns the picked one or the prompt's error |
| AzureLogin.AzureAccountManager.GetSelectedPricingTier | azure-ai-speech-toolkit/src/common/azureLogin.ts:509-539 | no tier rejects without a prompt; otherwise it offers one option per tier and returns the pick |
| AzureLogin.AzureAccountManager.GetResourceGroupNameFromUser | azure-ai-speech-toolkit/src/common/azureLogin.ts:589-621 | the proposed name is `user_speechaiproj_rg_timestamp`; a failing permission probe aborts; the answer is accepted as `AcceptedName` says |
| AzureLogin.AzureAccountManager.GetNewAzureAIServiceNameFromUser | azure-ai-speech-toolkit/src/common/azureLogin.ts:623-653 | the proposed name is `user-speechaiproj-ais-timestamp`; the answer is accepted as `AcceptedName` says |
| AzureLogin.AzureAccountManager.GetSelectedResourceGroups | azure-ai-speech-toolkit/src/common/azureLogin.ts:541-587 | refused unless LoggedIn; a credential failure or a failing listing propagates; otherwise it offers `ResourceGroupOptions`, and returns the prompt's error, the new group's name from the input, or the picked group's name |
| SubscriptionProvider.EnsureEndingSlash | azure-ai-speech-toolkit/src/common/vscodeAzureSubscriptionProvider.ts:238-240 | the result ends with `/`, extends the input by at most that slash, and equals the input when it already ends with one |
| SubscriptionProvider.EnsureEndingSlashIdempotent | azure-ai-speech-toolkit/src/common/vscodeAzureSubscriptionProvider.ts:238-240 | applying it twice is applying it once |
| SubscriptionProvider.GetResourceScopesAsWritten | azure-ai-speech-toolkit/src/common/vscodeAzureSubscriptionProvider.ts:242-247 | as written: never a duplicate, and on a non-empty array the same scopes as the intended `GetResourceScopes` |
| SubscriptionProvider.ResourceScopesAsWrittenSplitsStrings | azure-ai-speech-toolkit/src/common/vscodeAzureSubscriptionProvider.ts:242-247 | as written, a string argument or the fallback endpoint comes out as its distinct one-character strings, starting with its first character; the string itself is never a scope |
| SubscriptionProvider.ResourceScopesAsWrittenOnAzureCloud | azure-ai-speech-toolkit/src/common/vscodeAzureSubscriptionProvider.ts:242-247 | as written, a call with no scopes on the public cloud asks for the scope "h" and never for the management endpoint; the callers shown all pass `AzureScopes`, whose value is not part of this model, so they reach this path only if that list is empty |
| SubscriptionProvider.GetResourceScopes | azure-ai-speech-toolkit/src/common/vscodeAzureSubscriptionProvider.ts:242-247 | the fallback is the management endpoint with an ending slash; a non-empty string is a single scope; an array loses its duplicates and keeps first-occurrence order |
| SubscriptionProvider.AddTenantIdScope | azure-ai-speech-toolkit/src/common/vscodeAzureSubscriptionProvider.ts:249-253 | the result holds exactly the input scopes and `VSCODE_TENANT:<tenant>`, each once |
| SubscriptionProvider.GetScopes | azure-ai-speech-toolkit/src/common/vscodeAzureSubscriptionProvider.ts:255-261 | built on the corrected `GetResourceScopes`, not the as-written one: the result holds the resource scopes, plus the tenant scope exactly when the tenant id is non-empty; without one it is the resource scopes unchanged |
| SubscriptionProvider.GetScopesPinsTenantIff | azure-ai-speech-toolkit/src/common/vscodeAzureSubscriptionProvider.ts:255-261 | when the requested scopes pin no tenant, the result pins one exactly when a non-empty tenant id is given |
| SubscriptionProvider.GetSubscriptionsForTenant | azure-ai-speech-toolkit/src/common/vscodeAzureSubscriptionProvider.ts:203-227 | one record per listed subscription, in order, each with its name and id and the tenant it was listed under |
| SubscriptionProvider.TenantContribution | azure-ai-speech-toolkit/src/common/vscodeAzureSubscriptionProvider.ts:83-91 | a tenant whose enumeration throws adds nothing; otherwise one record per listed subscription, all under that tenant |
| SubscriptionProvider.ListedSubscriptions | azure-ai-speech-toolkit/src/common/vscodeAzureSubscriptionProvider.ts:83-91 | the tenants' contributions concatenated in tenant order; its properties are `FailingTenantContributesNothing` and `ListedSubscriptionsComeFromTenants` |
| SubscriptionProvider.FailingTenantContributesNothing | azure-ai-speech-toolkit/src/common/vscodeAzureSubscriptionProvider.ts:83-91 | the flattened list is the same with or without a failing tenant |
| SubscriptionProvider.ListedSubscriptionsComeFromTenants | azure-ai-speech-toolkit/src/common/vscodeAzureSubscriptionProvider.ts:83-91 | every flattened subscription was listed by a tenant whose enumeration succeeded, and carries that tenant's id |
| SubscriptionProvider.GetSubscriptions | azure-ai-speech-toolkit/src/common/vscodeAzureSubscriptionProvider.ts:80-95 | the result is a permutation of the successful tenants' lists, concatenated, and is sorted by name |
| SubscriptionProvider.KindInIff | azure-ai-speech-toolkit/src/common/vscodeAzureSubscriptionProvider.ts:131 | an account's kind is selected exactly when it is the value of one of the requested account types |
| SubscriptionProvider.SelectedAccounts | azure-ai-speech-toolkit/src/common/vscodeAzureSubscriptionProvider.ts:131 | the kept accounts are an order-preserving subsequence, all of a requested kind; every copy of an account of a requested kind is kept, and no other |
| SubscriptionProvider.ResourceList | azure-ai-speech-toolkit/src/common/vscodeAzureSubscriptionProvider.ts:133-149 | one record per kept account, in order, with the account's id, name, location and sku and the subscription's id, name and tenant |
| SubscriptionProvider.GetAzureResourceListWithType | azure-ai-speech-toolkit/src/common/vscodeAzureSubscriptionProvider.ts:120-151 | the filter-and-push loop returns the records `ResourceList` describes |
| SubscriptionProvider.NamedGroupInfos | azure-ai-speech-toolkit/src/common/vscodeAzureSubscriptionProvider.ts:161-164 | the records of a subsequence of the entries, in page order, each of a named entry with a non-empty name; that subsequence holds every copy of each named entry and nothing else |
| SubscriptionProvider.GetResourceGroupListBySubscriptionId | azure-ai-speech-toolkit/src/common/vscodeAzureSubscriptionProvider.ts:153-170 | a credential failure (outside the `try`) propagates unwrapped; otherwise an exhausted stream yields `NamedGroupInfos` of its entries and a throwing stream rejects with the subscription's name in the message |
| SubscriptionProvider.ReadGroupPages | azure-ai-speech-toolkit/src/common/vscodeAzureSubscriptionProvider.ts:157-169 | the do-while returns `NamedGroupInfos` of the entries when the stream is exhausted, and the wrapped error when it throws |
| SubscriptionProvider.NamedGroupsReported | azure-ai-speech-toolkit/src/common/vscodeAzureSubscriptionProvider.ts:161-164 | a record is reported exactly when some named entry gives it, so an entry without a name never is; there are never more groups than entries |
| ResourceTree.ItemKinds | azure-ai-speech-toolkit/src/treeview/resourceTreeViewProvider.ts:151-177 | the membership tests pick out exactly the type items and exactly the instance items; the two sets are disjoint and Subscription is in neither |
| ResourceTree.AccountTypeOf | azure-ai-speech-toolkit/src/treeview/resourceTreeViewProvider.ts:178-192 | each type item maps to its account kind, and exactly the other items throw "is not a resource type" |
| ResourceTree.InstanceItemOf | azure-ai-speech-toolkit/src/treeview/resourceTreeViewProvider.ts:193-207 | each type item maps to its instance item, and exactly the other items throw |
| ResourceTree.TypeMappingsAreBijections | azure-ai-speech-toolkit/src/treeview/resourceTreeViewProvider.ts:178-207 | distinct type items map to distinct account kinds and instance items, and every account kind and instance item is reached |
| ResourceTree.IconName | azure-ai-speech-toolkit/src/treeview/resourceTreeViewProvider.ts:128-148 | an item gets `subscription.png` exactly when it is neither a type item nor an instance item |
| ResourceTree.IconsFollowServiceKind | azure-ai-speech-toolkit/src/treeview/resourceTreeViewProvider.ts:128-148 | a type item and its instance item share an icon, and distinct service kinds have distinct icons |
| ResourceTree.NewTreeItem | azure-ai-speech-toolkit/src/treeview/resourceTreeViewProvider.ts:102-125 | the item keeps its arguments; the tooltip starts with the label and ends with the subscription id; the icon follows the item type; the context value is `speechResouceItem` exactly on instance items |
| ResourceTree.SubscriptionItems | azure-ai-speech-toolkit/src/treeview/resourceTreeViewProvider.ts:51-61 | one collapsed Subscription item per subscription, in order |
| ResourceTree.TypeItems | azure-ai-speech-toolkit/src/treeview/resourceTreeViewProvider.ts:64-71 | the AI service, multi-service and Speech type nodes, in that order, collapsed, each inheriting the parent's tenant, subscription and info |
| ResourceTree.NodeSubscription | azure-ai-speech-toolkit/src/treeview/resourceTreeViewProvider.ts:74 | the subscription record the unchecked `as SubscriptionInfo` cast reads from a node's info |
| ResourceTree.ListedServices | azure-ai-speech-toolkit/src/common/azureLogin.ts:294-301 | `listAzureServices` with one account kind: nothing without a session, else `ResourceList` of that kind |
| ResourceTree.InstanceItems | azure-ai-speech-toolkit/src/treeview/resourceTreeViewProvider.ts:73-81 | one leaf item per listed resource, in order, with the resource id in the subscription-id slot |
| ResourceTree.GetChildren | azure-ai-speech-toolkit/src/treeview/resourceTreeViewProvider.ts:39-88 | the root is empty when signed out and lists the subscriptions otherwise (a status error propagates); a subscription node has its `TypeItems`; a type node has the instance items of the resources of `AccountTypeOf` its type, listed under its subscription, sorted by label; a resource node has none |
| ResourceTree.InstanceItemsShowAccounts | azure-ai-speech-toolkit/src/treeview/resourceTreeViewProvider.ts:73-81 | the unsorted items of a one-kind listing show exactly the subscription's accounts of that kind, and none without a session |
| ResourceTree.TypeNodeListsItsKind | azure-ai-speech-toolkit/src/treeview/resourceTreeViewProvider.ts:73-84 | a type node's children are its subscription's accounts of the mapped account kind: each child shows such an account, each such account has a child, and without a session there are none |
| ResourceTree.TypeNodeChildren | azure-ai-speech-toolkit/src/treeview/resourceTreeViewProvider.ts:73-87 | a type node's children are leaves of the mapped instance kind, each carrying the resource context value |
| SampleGallery.ContainsTag | azure-ai-speech-toolkit/src/controls/sampleGallery/SampleGallery.tsx:285-295 | true for no targets; otherwise true exactly when some target equals some tag, ignoring case |
| SampleGallery.CategoryTags | azure-ai-speech-toolkit/src/controls/sampleGallery/SampleGallery.tsx:296-304 | a category's filter holds exactly the filter tags that belong to the category |
| SampleGallery.FilterSamples | azure-ai-speech-toolkit/src/controls/sampleGallery/SampleGallery.tsx:305-311 | the tag filter over all samples; its properties are `FilterSamplesKeepsExactly`, `NoTagsKeepsAll` and `UncategorisedTagIgnored` |
| SampleGallery.FilterSamplesKeepsExactly | azure-ai-speech-toolkit/src/controls/sampleGallery/SampleGallery.tsx:305-311 | a sample survives exactly when it passes all three categories, and the survivors keep their order |
| SampleGallery.NoTagsKeepsAll | azure-ai-speech-toolkit/src/controls/sampleGallery/SampleGallery.tsx:305-311 | without filter tags every sample survives, in order |
| SampleGallery.UncategorisedTagIgnored | azure-ai-speech-toolkit/src/controls/sampleGallery/SampleGallery.tsx:296-311 | a filter tag that belongs to no category does not change the result |
| SampleGallery.ScenarioSamples | azure-ai-speech-toolkit/src/controls/sampleGallery/SampleGallery.tsx:104-106 | the displayed samples with a truthy scenario; see `SectionsPartition` |
| SampleGallery.QuickstartSamples | azure-ai-speech-toolkit/src/controls/sampleGallery/SampleGallery.tsx:107-109 | the displayed samples without a truthy scenario; see `SectionsPartition` |
| SampleGallery.SectionsPartition | azure-ai-speech-toolkit/src/controls/sampleGallery/SampleGallery.tsx:104-109 | the scenario and quickstart sections split the displayed samples: every sample is in exactly one, in display order |
| SampleGallery.SelectedSample | azure-ai-speech-toolkit/src/controls/sampleGallery/SampleGallery.tsx:201-209 | nothing when the id is unset or empty; otherwise the first sample with that id, or nothing when there is none |
| SampleGallery.SampleGalleryComponent.constructor | azure-ai-speech-toolkit/src/controls/sampleGallery/SampleGallery.tsx:37-45 | the component starts loading, in grid layout, with no query, no tags, no filtered list and no selection |
| SampleGallery.SampleGalleryComponent.Page | azure-ai-speech-toolkit/src/controls/sampleGallery/SampleGallery.tsx:90-115 | the title alone exactly while loading; the detail page exactly when a sample is selected; the offline page exactly on a load error without a selection; otherwise the two sections partition the displayed samples |
| SampleGallery.SampleGalleryComponent.HandleMessage | azure-ai-speech-toolkit/src/controls/sampleGallery/SampleGallery.tsx:211-237 | a loaded collection sets samples, options, error and initial selection and ends loading; a layout answer sets the layout, `"grid"` when the value is falsy; anything else changes nothing |
| SampleGallery.SampleGalleryComponent.OnSampleSelected | azure-ai-speech-toolkit/src/controls/sampleGallery/SampleGallery.tsx:239-256 | only the selected id changes |
| SampleGallery.SampleGalleryComponent.OnLayoutChanged | azure-ai-speech-toolkit/src/controls/sampleGallery/SampleGallery.tsx:258-282 | the current layout changes nothing; a new one is stored with the extension and applied |
| SampleGallery.SampleGalleryComponent.OnFilterConditionChanged | azure-ai-speech-toolkit/src/controls/sampleGallery/SampleGallery.tsx:284-319 | the query and tags are recorded, and the filtered list is the tag-filtered samples, handed to the fuzzy search when the query is non-empty |
| Survey.BannerDue | azure-ai-speech-toolkit/src/utils/survey.ts:82-103 | the three early returns of `shouldShowBanner` as one condition; its properties are the lemmas below |
| Survey.FreshStoreIsDue | azure-ai-speech-toolkit/src/utils/survey.ts:82-103 | with no key stored, the banner is due at any non-negative time |
| Survey.OrDefault | azure-ai-speech-toolkit/src/utils/survey.ts:57-65 | a missing or zero argument takes the default, any other value is kept |
| Survey.DisableUntil | azure-ai-speech-toolkit/src/utils/survey.ts:114-118 | a negative duration is stored as it is (never again); otherwise the instant it runs out |
| Survey.AnswerEffect | azure-ai-speech-toolkit/src/utils/survey.ts:121-186 | what each button, or a dismissal, writes to the store; its properties are `NeverSilencesForever`, `RemindPostpones`, `TakeDisables` and `AnswerTouchesOneKey` |
| Survey.NeverSilencesForever | azure-ai-speech-toolkit/src/utils/survey.ts:150-158 | after "Don't Show Again" the banner is never due |
| Survey.RemindPostpones | azure-ai-speech-toolkit/src/utils/survey.ts:145-146 | "Remind Me Later" or a dismissal hides the banner until `now + remind time`, after which it is due exactly when the other keys allow it |
| Survey.TakeDisables | azure-ai-speech-toolkit/src/utils/survey.ts:105-119 | taking the survey hides the banner for good (negative disable time) or until `now + disable time`, after which it is due exactly when the other keys allow it |
| Survey.AnswerTouchesOneKey | azure-ai-speech-toolkit/src/utils/survey.ts:121-186 | each answer writes one persisted key and leaves the other two |
| Survey.ExtensionSurvey.constructor | azure-ai-speech-toolkit/src/utils/survey.ts:51-66 | missing or zero arguments take the defaults, and the user is in the sample exactly when the random sample is at most the percentage |
| Survey.ExtensionSurvey.ShouldShowBanner | azure-ai-speech-toolkit/src/utils/survey.ts:82-103 | true exactly when not turned off, no reminder is pending, and the disable time is non-negative and past |
| Survey.ExtensionSurvey.Activate | azure-ai-speech-toolkit/src/utils/survey.ts:68-80 | the periodic check is started once, and only for a user in the sample |
| Survey.ExtensionSurvey.CheckTick | azure-ai-speech-toolkit/src/utils/survey.ts:70-78 | a notification is scheduled when the banner is due, none is pending and the workspace is a project |
| Survey.ExtensionSurvey.OpenSurveyLink | azure-ai-speech-toolkit/src/utils/survey.ts:105-119 | the disable time stored is `DisableUntil` of the configured duration; nothing else changes |
| Survey.ExtensionSurvey.ShowSurvey | azure-ai-speech-toolkit/src/utils/survey.ts:121-186 | the pending notification is cleared, the answer's effect is written, and the next notification waits two weeks |
| EnvUtils.LineRest | azure-ai-speech-toolkit/src/utils.ts:35 | the capture of `(.+)$`: the characters from a position up to the next line terminator or the end, none of them a terminator |
| EnvUtils.ScanFrom | azure-ai-speech-toolkit/src/utils.ts:35-36 | the regular-expression search from a position on; its properties are `ScanFromFinds` and `ScanFromLeftmost` |
| EnvUtils.ScanFromFinds | azure-ai-speech-toolkit/src/utils.ts:35-36 | the search finds a value exactly when the pattern matches at some later position |
| EnvUtils.ScanFromLeftmost | azure-ai-speech-toolkit/src/utils.ts:35-36 | a value found is the capture of the leftmost match |
| EnvUtils.ExtractEnvValue | azure-ai-speech-toolkit/src/utils.ts:34-37 | a value exists exactly when some line start is followed by `KEY=` and at least one more character; it is the capture of the leftmost such match, non-empty and free of line terminators |
| EnvUtils.ExtractEnvValueByLines | azure-ai-speech-toolkit/src/utils.ts:34-37 | the value equals that of the first line that starts with `KEY=` and goes on, for any key without a line terminator |
| EnvUtils.IsSpeechResourceSelected | azure-ai-speech-toolkit/src/utils.ts:7-31 | true exactly when a folder is open, the env file exists and all four keys have values |
| EnvUtils.MissingKeyRejects | azure-ai-speech-toolkit/src/utils.ts:26-28 | one key without a value makes the check fail, whatever the other keys hold |
| TelemetryUtils.ParseLine | azure-ai-speech-toolkit/src/telemetry/extTelemetryUtils.ts:13 | the destructured `[key, value]` of one line; its properties are `ParseLineFields` |
| TelemetryUtils.ParseLineFields | azure-ai-speech-toolkit/src/telemetry/extTelemetryUtils.ts:13 | the key is the trimmed text before the first `=`; a value exists exactly when there is a `=`, and it is the trimmed text up to the next one |
| TelemetryUtils.FillKeys | azure-ai-speech-toolkit/src/telemetry/extTelemetryUtils.ts:12-17 | a key is in the dictionary exactly when some kept line carries it, `__proto__` aside |
| TelemetryUtils.FillLastWins | azure-ai-speech-toolkit/src/telemetry/extTelemetryUtils.ts:15 | a key holds the value of the last kept line that carries it |
| TelemetryUtils.FillEntriesAccepted | azure-ai-speech-toolkit/src/telemetry/extTelemetryUtils.ts:14 | every entry has a non-empty key that passed the key test, and a non-empty value |
| TelemetryUtils.SampleTaskProperties | azure-ai-speech-toolkit/src/telemetry/extTelemetryUtils.ts:10-17 | with the intended key test, every entry's key is an own key of the enumeration and key and value are non-empty |
| TelemetryUtils.SampleTaskPropertiesAsWritten | azure-ai-speech-toolkit/src/telemetry/extTelemetryUtils.ts:10-17 | the dictionary with the as-written `in` test; `PrototypeNameAccepted` and `ToStringLineAccepted` show where it differs from the intended one |
| TelemetryUtils.PrototypeNameAccepted | azure-ai-speech-toolkit/src/telemetry/extTelemetryUtils.ts:14 | as written, a line naming an `Object.prototype` member (other than `__proto__`) that is not an enumeration key is collected with its value; the intended test rejects it |
| TelemetryUtils.ToStringLineAccepted | azure-ai-speech-toolkit/src/telemetry/extTelemetryUtils.ts:14 | as written, the file `toString=1` yields a `toString` property; the intended test yields none |
| TelemetryUtils.GetSampleTaskTelemetryProperties | azure-ai-speech-toolkit/src/telemetry/extTelemetryUtils.ts:8-20 | the line-by-line loop fills exactly the dictionary `SampleTaskProperties` describes |
| TelemetryUtils.BoolString | azure-ai-speech-toolkit/src/telemetry/extTelemetryUtils.ts:30 | `"true"` exactly for true, `"false"` exactly for false |
| TelemetryUtils.ErrorMessageOf | azure-ai-speech-toolkit/src/telemetry/extTelemetryUtils.ts:34 | an undefined error throws; otherwise a non-empty message, the error's own when it has one |
| TelemetryUtils.GetAzureLoginProperties | azure-ai-speech-toolkit/src/telemetry/extTelemetryUtils.ts:28-38 | SUCCESS is always set to the success flag's text; ERROR_MESSAGE is present exactly on failure, with the error's message; it throws exactly on a failure without an error object |
| TelemetryUtils.GetCreateAzureAISpeechServiceProperties | azure-ai-speech-toolkit/src/telemetry/extTelemetryUtils.ts:40-63 | on success the keys are exactly SUCCESS and the five resource fields (a missing argument as `""`); on failure exactly SUCCESS and ERROR_MESSAGE; it throws exactly on a failure without an error object |
| Collections.Dedup | azure-ai-speech-toolkit/src/common/vscodeAzureSubscriptionProvider.ts:246 | `Array.from(new Set(s))`: every distinct element once, no duplicates, in first-occurrence order |
| Collections.SortBy | azure-ai-speech-toolkit/src/common/vscodeAzureSubscriptionProvider.ts:93-94 | the comparator sort returns a permutation of its input, sorted by the key |
| Text.Split | azure-ai-speech-toolkit/src/telemetry/extTelemetryUtils.ts:10 | the pieces hold no separator and join back to the input |
| Text.Trim | azure-ai-speech-toolkit/src/telemetry/extTelemetryUtils.ts:13 | `String.prototype.trim`; its properties are `TrimIsSlice` |
| Text.TrimIsSlice | azure-ai-speech-toolkit/src/telemetry/extTelemetryUtils.ts:13 | the trim is the slice left once whitespace is removed at both ends, and it neither starts nor ends with whitespace |
| Text.ToLower | azure-ai-speech-toolkit/src/controls/sampleGallery/SampleGallery.tsx:290 | the result has the input's length and each character lowered (ASCII letters only) |

## Left out

- Azure SDK clients, `vscode.authentication`, progress windows, input boxes and quick picks are not modelled. Their results are parameters: a session flag, page streams, and `Picked(id) | Rejected(reason)` answers.
- The provider calls at azureLogin.ts:395 and azureLogin.ts:600 do not match the provider's own signatures. Their results are parameters: the fetched key and region, and the permission probe's outcome.
- JWT payload decoding (`getJsonObject`) is not modelled. The decoded claims (email, upn) are a parameter.
- Resource creation (`createNewAIServiceResource`), the region and pricing-tier lookups and the resource-name validators are not modelled. Their bodies are not part of this model; the regions and tiers are parameters.
- Env-file writing, retry polling, the telemetry reporter and its cross-process cache are not modelled. They are I/O and concurrency.
- The survey's `setInterval`/`setTimeout` timers and `Math.random` are not modelled. The timers are flags saying whether one is pending; the time and the random sample are parameters.
- Persisted survey keys live in a record field instead of VS Code's global state.
- The Fuse fuzzy search is a foreign library. It is a function parameter.
- JSX rendering and `postMessage` are not modelled. The layout sent with `StoreData` is recorded in a field.
- Icon path joining is not modelled; only the icon's file name is.
- The tree's change emitter and `setContext` calls are not modelled.
- The stale duplicate tree provider, the dependency checkers and the build and bootstrap files are not part of this model.
- The constant and enum files are used only for datatype definitions. The env key names and the keys of `SampleTaskTelemetryProperty` are parameters (`EnvKeyNames`, `ownKeys`). The login and creation property keys are datatypes.
- EnvUtils.ExtractEnvValue: the key is taken as literal text. A key holding regular-expression metacharacters is not modelled.
- Text.ToLower: only ASCII letters are lowercased. Full Unicode case mapping is not modelled.
- Collections.SortBy: `localeCompare` is an abstract total preorder, not the locale's collation.
- SubscriptionProvider.GetSubscriptions: the sort is only proved to be a sorted permutation. Its stability is not stated.
- ResourceTree.GetChildren: the sort of a type node's children is only proved to be a sorted permutation. Its stability is not stated.
- SubscriptionProvider.GetSubscriptions: `getTenants` rejecting (vscodeAzureSubscriptionProvider.ts:83, outside the `try`) is not modelled; the tenant list is an input that cannot fail.
- SubscriptionProvider.GetAzureResourceListWithType: a rejected credential (:121), a throwing account stream (:127) and the TypeError of `item.sku!.name!` on an account without a sku (:147) are not modelled; the accounts are an input that cannot fail, each with a sku name.
- AzureLogin.AzureAccountManager.GetSelectedSubscription: the session-change listener registered by the constructor can set LoggedIn while `login` awaits the session (azureLogin.ts:98), before the check at :406. The model fixes the one interleaving in which it does not run then, so a login made here leaves the status LoggingIn.
- AzureLogin.AzureAccountManager.Signout: the account shown in the dialog (`upn`, else `email`) is not modelled, only the answer.
- The keys of `SampleTaskTelemetryProperty`, `AzureLoginTelemetryProperty` and `CreateAzureAIServiceTelemetryProperty` are declared in a telemetry-events file that is not part of this model, so the own keys are the parameter `ownKeys` and the property keys are datatypes.
- TelemetryUtils.ErrorMessageOf: the text of the TypeError thrown for an undefined error is approximate. Only the fact that it throws is relied on.
- AzureLogin.AzureAccountManager.GetSelectedSubscription: the id and tenant read through TypeScript's `!` are reported as `""` when missing, where the source returns them undefined. This happens when the selection is cleared because the only subscription, or the picked one, has the id `""` (`setSubscription("")` clears it).
- EnvUtils.IsSpeechResourceSelected: with no workspace folder the source calls `vscode.window.showErrorMessage` although utils.ts never imports `vscode`, so that path would throw a ReferenceError (or fail to compile); the model returns false there, as the code evidently intends.
- AzureLogin.AzureAccountManager.Login: a rejected session request without a `message` makes `(e as Error)?.message.includes` (azureLogin.ts:124) throw a TypeError; the model gives every rejection a message string and passes it on.
- AzureLogin.AzureAccountManager.GetStatus: the token and account info it returns are not modelled, only the status and the credential error.

## Findings

| source | as written | input that shows it | evidently intended | confidence | as-written member | corrected member |
|---|---|---|---|---|---|---|
| azure-ai-speech-toolkit/src/common/vscodeAzureSubscriptionProvider.ts:242-247 | the fallback assigns the endpoint URL, a string, to `scopes`, and `new Set(scopes)` then iterates its characters; a bare string argument is split the same way | no scopes on the public cloud: the endpoint `https://management.core.windows.net/` yields the scopes "h", "t", "p", "s", ":", "/", … | the endpoint, or the single scope string, as a one-element list; an array deduplicated in order | not executed | SubscriptionProvider.ResourceScopesAsWrittenOnAzureCloud | SubscriptionProvider.GetResourceScopes |
| azure-ai-speech-toolkit/src/telemetry/extTelemetryUtils.ts:14 | `key in SampleTaskTelemetryProperty` also finds the names every object inherits from `Object.prototype` | an env file holding the line `toString=1` yields the property `toString` = `1` | only the enumeration's own keys are collected | not executed | TelemetryUtils.ToStringLineAccepted | TelemetryUtils.SampleTaskProperties |
