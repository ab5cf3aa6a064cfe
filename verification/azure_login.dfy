/**
 * `AzureAccountManager` (src/common/azureLogin.ts): the process-wide sign-in
 * status and selected subscription, and the prompts that pick a subscription,
 * a speech resource, a region, a pricing tier and a resource group.
 *
 * The manager's static fields become the fields of one object. What the
 * source asks of VS Code and of Azure is passed in: whether an authentication
 * session exists, what the subscription provider lists, the user's answers
 * to dialogs and prompts, the current time as an ISO string and the claims
 * decoded from the access token.
 */
module AzureLogin {
  import opened Common
  import opened Text
  import opened Collections
  import opened AzureTypes
  import SubscriptionProvider

  // ================================================================ constants

  /** The values the manager stores in `currentStatus`. */
  datatype Status = LoggedIn | LoggedOut | LoggingIn

  /** The `status` reported by `getStatus`. */
  datatype LoginStatusKind = SignedIn | SignedOut | SigningIn

  function StatusValue(s: Status): string {
    match s
    case LoggedIn => "LoggedIn"
    case LoggedOut => "LoggedOut"
    case LoggingIn => "LoggingIn"
  }

  function LoginStatusValue(k: LoginStatusKind): string {
    match k
    case SignedIn => "SignedIn"
    case SignedOut => "SignedOut"
    case SigningIn => "SigningIn"
  }

  const SignInAnswer := "Sign in"
  const LearnMoreAnswer := "Learn more"

  const UserCancelLoginError := "[UserError] user cancel to login"
  const LoginTimeoutError := "[UserError] loginTimeoutDescription"
  const UserCancelError := "[UserError] UserCancel"
  const ConsentRefusedMarker := "User did not consent "
  const UserCancelSignoutError := "[UserError] user cancel to sign out"
  const UnknownSubscriptionError := "[UserError] Login unknown subscription."
  const NoSubscriptionError := "We couldn't find a subscription."
  const CredentialError := "doGetAccountCredentialAsync error"
  const SpeechNotLoggedInError := "can only select speech resource when logged in."
  const ResourceGroupNotLoggedInError := "can only select resource group when logged in."
  const FetchNotLoggedInError := "can only fetch speech service details when logged in."
  const UserCancelNameInputError := "[UserError] user cancel to input resource group name"

  const CreateNewServiceOption := OptionItem("create-new-service", "$(plus) Create a new Azure AI Service")
  const CreateNewResourceGroupOption := OptionItem("create-new-resource-group", "$(plus) Create a new Resource Group")

  /** The account kinds offered when a speech resource is selected. */
  const SpeechAccountTypes := [SpeechServices, CognitiveServices, AIService]

  // ================================================================ subscription selection

  /** The selected subscription: the manager's `tenantId`, `subscriptionId` and `subscriptionName`. */
  datatype Selection = Selection(tenantId: Option<string>, subscriptionId: Option<string>, subscriptionName: Option<string>)

  const Cleared := Selection(None, None, None)

  function HasSubscriptionId(id: string): AzureSubscription -> bool {
    (s: AzureSubscription) => s.subscriptionId == id
  }

  /**
   * `setSubscription(id)` on selection `sel`: `""` clears the selection;
   * otherwise, with a session, the first listed subscription with that id is
   * selected; anything else rejects as an unknown subscription.
   */
  function SetSubscriptionSpec(sel: Selection, id: string, sessionExists: bool, subs: seq<AzureSubscription>)
    : (res: (Outcome<string>, Selection))
    ensures id == "" ==> res == (Pass, Cleared)
    ensures id != "" && res.0.Pass? ==>
              sessionExists
              && exists k :: 0 <= k < |subs| && subs[k].subscriptionId == id
                   && (forall j :: 0 <= j < k ==> subs[j].subscriptionId != id)
                   && res.1 == Selection(Some(subs[k].tenantId), Some(id), Some(subs[k].name))
    ensures res.0.Fail? <==> id != "" && (!sessionExists || forall k :: 0 <= k < |subs| ==> subs[k].subscriptionId != id)
    ensures res.0.Fail? ==> res == (Fail(UnknownSubscriptionError), sel)
  {
    if id == "" then (Pass, Cleared)
    else if !sessionExists then (Fail(UnknownSubscriptionError), sel)
    else match FindFirst(subs, HasSubscriptionId(id))
      case None => (Fail(UnknownSubscriptionError), sel)
      case Some(k) => (Pass, Selection(Some(subs[k].tenantId), Some(id), Some(subs[k].name)))
  }

  /** `listSubscriptions`' record for one provider subscription. */
  function InfoOf(s: AzureSubscription): SubscriptionInfo {
    SubscriptionInfo(s.subscriptionId, s.tenantId, s.name)
  }

  /** What `listSubscriptions` returns: nothing without a session, else one record per provider subscription. */
  function SubscriptionInfos(sessionExists: bool, subs: seq<AzureSubscription>): (r: seq<SubscriptionInfo>)
    ensures |r| == if sessionExists then |subs| else 0
    ensures forall i :: 0 <= i < |r| ==>
              r[i].id == subs[i].subscriptionId && r[i].tenantId == subs[i].tenantId && r[i].name == subs[i].name
  {
    if sessionExists then seq(|subs|, i requires 0 <= i < |subs| => InfoOf(subs[i])) else []
  }

  /** The prompt `selectSubscription` shows: only when there is more than one subscription, one option per subscription. */
  function SubscriptionPrompt(infos: seq<SubscriptionInfo>): (p: Option<seq<OptionItem>>)
    ensures p.Some? <==> |infos| > 1
    ensures p.Some? ==> (|p.value| == |infos|
              && forall i :: 0 <= i < |infos| ==> p.value[i] == OptionItem(infos[i].id, infos[i].name))
  {
    if |infos| > 1 then Some(seq(|infos|, i requires 0 <= i < |infos| => OptionItem(infos[i].id, infos[i].name)))
    else None
  }

  /**
   * `selectSubscription` on selection `sel`: no subscription fails; exactly
   * one is selected without a prompt; several are offered and the picked id
   * is selected; a rejected prompt propagates its error.
   */
  function SelectSubscriptionSpec(sel: Selection, sessionExists: bool, subs: seq<AzureSubscription>, ui: UiResult)
    : (res: (Outcome<string>, Selection))
    ensures !sessionExists || subs == [] ==> res == (Fail(NoSubscriptionError), sel)
    ensures sessionExists && |subs| == 1 ==> res == SetSubscriptionSpec(sel, subs[0].subscriptionId, true, subs)
    ensures sessionExists && |subs| > 1 && ui.Rejected? ==> res == (Fail(ui.reason), sel)
    ensures sessionExists && |subs| > 1 && ui.Picked? ==> res == SetSubscriptionSpec(sel, ui.id, true, subs)
  {
    var infos := SubscriptionInfos(sessionExists, subs);
    if |infos| == 0 then (Fail(NoSubscriptionError), sel)
    else if |infos| == 1 then SetSubscriptionSpec(sel, infos[0].id, sessionExists, subs)
    else match ui
      case Rejected(reason) => (Fail(reason), sel)
      case Picked(id) => SetSubscriptionSpec(sel, id, sessionExists, subs)
  }

  /** A single subscription is selected outright, whatever the prompt would have answered. */
  lemma SelectSingleSubscription(sel: Selection, s: AzureSubscription, ui: UiResult)
    requires s.subscriptionId != ""
    ensures SelectSubscriptionSpec(sel, true, [s], ui) == (Pass, Selection(Some(s.tenantId), Some(s.subscriptionId), Some(s.name)))
  {
    var res := SetSubscriptionSpec(sel, s.subscriptionId, true, [s]);
    assert [s][0].subscriptionId == s.subscriptionId;
    assert res.0.Pass?;
  }

  /**
   * Picking an offered subscription selects the first subscription listed
   * with that id; when ids are distinct, exactly the one offered.
   */
  lemma SelectOfferedSubscription(sel: Selection, subs: seq<AzureSubscription>, k: nat)
    requires 1 < |subs| && k < |subs| && subs[k].subscriptionId != ""
    ensures var p := SubscriptionPrompt(SubscriptionInfos(true, subs));
            var res := SelectSubscriptionSpec(sel, true, subs, Picked(p.value[k].id));
            && res.0 == Pass
            && res.1.subscriptionId == Some(subs[k].subscriptionId)
            && (NoDuplicates(SubscriptionIds(subs)) ==>
                  res.1 == Selection(Some(subs[k].tenantId), Some(subs[k].subscriptionId), Some(subs[k].name)))
  {
    var p := SubscriptionPrompt(SubscriptionInfos(true, subs));
    var id := subs[k].subscriptionId;
    assert p.value[k].id == id;
    var res := SetSubscriptionSpec(sel, id, true, subs);
    assert res.0.Pass?;
    if NoDuplicates(SubscriptionIds(subs)) {
      var j :| 0 <= j < |subs| && subs[j].subscriptionId == id
               && (forall i :: 0 <= i < j ==> subs[i].subscriptionId != id)
               && res.1 == Selection(Some(subs[j].tenantId), Some(id), Some(subs[j].name));
      assert SubscriptionIds(subs)[j] == SubscriptionIds(subs)[k];
    }
  }

  function SubscriptionIds(subs: seq<AzureSubscription>): (r: seq<string>)
    ensures |r| == |subs| && forall i :: 0 <= i < |subs| ==> r[i] == subs[i].subscriptionId
  {
    seq(|subs|, i requires 0 <= i < |subs| => subs[i].subscriptionId)
  }

  // ================================================================ login dialog

  /** The user eventually gives the sign-in dialog an answer other than "Learn more". */
  predicate HasDecisiveAnswer(answers: seq<Option<string>>) {
    exists i :: 0 <= i < |answers| && answers[i] != Some(LearnMoreAnswer)
  }

  /** The position of the first answer other than "Learn more". */
  function FirstDecisiveAnswer(answers: seq<Option<string>>): (k: nat)
    requires HasDecisiveAnswer(answers)
    ensures k < |answers| && answers[k] != Some(LearnMoreAnswer)
    ensures forall j :: 0 <= j < k ==> answers[j] == Some(LearnMoreAnswer)
  {
    if answers[0] != Some(LearnMoreAnswer) then 0
    else
      assert HasDecisiveAnswer(answers[1..]) by {
        var i :| 0 <= i < |answers| && answers[i] != Some(LearnMoreAnswer);
        assert answers[1..][i - 1] == answers[i];
      }
      1 + FirstDecisiveAnswer(answers[1..])
  }

  /** `doesUserConfirmLogin`'s verdict: the first decisive answer is "Sign in". */
  predicate ConfirmsLogin(answers: seq<Option<string>>)
    requires HasDecisiveAnswer(answers)
  {
    answers[FirstDecisiveAnswer(answers)] == Some(SignInAnswer)
  }

  /** The error `login` rethrows for an exception with `message`: a refused consent becomes a user cancellation. */
  function LoginFailureMessage(message: string): (m: string)
    ensures Contains(message, ConsentRefusedMarker) ==> m == UserCancelError
    ensures !Contains(message, ConsentRefusedMarker) ==> m == message
  {
    if Contains(message, ConsentRefusedMarker) then UserCancelError else message
  }

  /** What the authentication provider does when asked to create a session. */
  datatype SessionRequest = SessionGranted | SessionUndefined | SessionThrew(message: string)

  /**
   * The outcome of `login` once the dialog is passed, and the status it
   * leaves: still LoggingIn on success (only a session-change event marks the
   * account LoggedIn), LoggedOut on any failure.
   */
  function SessionOutcome(request: SessionRequest): (res: (Outcome<string>, Status))
    ensures res.0.Pass? <==> request.SessionGranted?
    ensures res.0.Pass? <==> res.1 == LoggingIn
    ensures res.0.Fail? <==> res.1 == LoggedOut
    ensures request.SessionThrew? && Contains(request.message, ConsentRefusedMarker) ==> res.0 == Fail(UserCancelError)
    ensures res.1 != LoggedIn
  {
    match request
    case SessionGranted => (Pass, LoggingIn)
    case SessionUndefined => (Fail(LoginFailureMessage(LoginTimeoutError)), LoggedOut)
    case SessionThrew(message) => (Fail(LoginFailureMessage(message)), LoggedOut)
  }

  // ================================================================ credentials

  /** Where `doGetAccountCredentialAsync` takes its credential from. */
  datatype CredentialSource = SubscriptionCredential(sub: AzureSubscription) | SessionCredential

  function HasTenant(tenantId: string): AzureSubscription -> bool {
    (s: AzureSubscription) => s.tenantId == tenantId
  }

  /** The subscription whose credential is used: the first in the selected tenant, else the first of all. */
  function CredentialIndex(subs: seq<AzureSubscription>, tenantId: Option<string>): (k: nat)
    requires subs != []
    ensures k < |subs|
    ensures Truthy(tenantId) && (exists j :: 0 <= j < |subs| && subs[j].tenantId == tenantId.value) ==>
              subs[k].tenantId == tenantId.value && forall j :: 0 <= j < k ==> subs[j].tenantId != tenantId.value
    ensures !Truthy(tenantId) || (forall j :: 0 <= j < |subs| ==> subs[j].tenantId != tenantId.value) ==> k == 0
  {
    if Truthy(tenantId) then
      match FindFirst(subs, HasTenant(tenantId.value))
      case Some(k) => k
      case None => 0
    else 0
  }

  // ================================================================ default names

  /** The characters removed from the ISO time: `/[-:.T]/g`. */
  const TimestampSeparators: set<char> := {'-', ':', '.', 'T'}

  /** The ISO time with the separators removed, cut to 14 characters (`YYYYMMDDHHmmss`). */
  function Timestamp(iso: string): (ts: string)
    ensures |ts| <= 14
    ensures forall i :: 0 <= i < |ts| ==> ts[i] !in TimestampSeparators
  {
    var r := Take(RemoveChars(iso, TimestampSeparators), 14);
    assert forall i :: 0 <= i < |r| ==> r[i] == RemoveChars(iso, TimestampSeparators)[i];
    r
  }

  predicate IsDigit(c: char) {
    '0' <= c <= '9'
  }

  predicate AllDigits(s: string) {
    forall i :: 0 <= i < |s| ==> IsDigit(s[i])
  }

  /** The shape `Date.prototype.toISOString` gives for years 0 to 9999: `YYYY-MM-DDTHH:mm:ss.sssZ`. */
  predicate WellFormedIso(iso: string) {
    && |iso| == 24
    && AllDigits(iso[0..4]) && iso[4] == '-' && AllDigits(iso[5..7]) && iso[7] == '-' && AllDigits(iso[8..10])
    && iso[10] == 'T' && AllDigits(iso[11..13]) && iso[13] == ':' && AllDigits(iso[14..16]) && iso[16] == ':'
    && AllDigits(iso[17..19]) && iso[19] == '.' && AllDigits(iso[20..23]) && iso[23] == 'Z'
  }

  /** A run of digits followed by the rest: the digits survive the separator removal. */
  lemma DigitRunThenRest(iso: string, i: nat, j: nat)
    requires i <= j <= |iso| && AllDigits(iso[i..j])
    ensures RemoveChars(iso[i..], TimestampSeparators) == iso[i..j] + RemoveChars(iso[j..], TimestampSeparators)
  {
    RemoveCharsOfSlice(iso, i, j, TimestampSeparators);
    RemoveCharsKeepsAll(iso[i..j], TimestampSeparators);
  }

  /** A separator is dropped, so what remains after it is what remains of the rest. */
  lemma SeparatorDropped(iso: string, i: nat)
    requires i < |iso| && iso[i] in TimestampSeparators
    ensures RemoveChars(iso[i..], TimestampSeparators) == RemoveChars(iso[i + 1..], TimestampSeparators)
  {
    RemoveCharsOfSlice(iso, i, i + 1, TimestampSeparators);
    assert iso[i..i + 1] == [iso[i]];
  }

  /** The time half of a well-formed ISO time loses its separators and keeps its digits and milliseconds. */
  lemma TimeDigitsKept(iso: string)
    requires WellFormedIso(iso)
    ensures RemoveChars(iso[11..], TimestampSeparators) == iso[11..13] + iso[14..16] + iso[17..19] + iso[20..]
  {
    var d := TimestampSeparators;
    var tail := iso[20..];
    assert RemoveChars(tail, d) == tail by {
      forall k | 0 <= k < |tail| ensures tail[k] !in d {
        if k < 3 {
          assert tail[k] == iso[20..23][k];
        }
      }
      RemoveCharsKeepsAll(tail, d);
    }
    SeparatorDropped(iso, 19);
    DigitRunThenRest(iso, 17, 19);
    SeparatorDropped(iso, 16);
    DigitRunThenRest(iso, 14, 16);
    SeparatorDropped(iso, 13);
    DigitRunThenRest(iso, 11, 13);
    ConcatAssoc(iso[11..13], iso[14..16], iso[17..19] + tail);
    ConcatAssoc(iso[11..13] + iso[14..16], iso[17..19], tail);
  }

  /** The date half of a well-formed ISO time loses its separators and keeps its digits. */
  lemma DateDigitsKept(iso: string)
    requires WellFormedIso(iso)
    ensures RemoveChars(iso, TimestampSeparators) == iso[0..4] + iso[5..7] + iso[8..10] + RemoveChars(iso[11..], TimestampSeparators)
  {
    var rest := RemoveChars(iso[11..], TimestampSeparators);
    SeparatorDropped(iso, 10);
    DigitRunThenRest(iso, 8, 10);
    SeparatorDropped(iso, 7);
    DigitRunThenRest(iso, 5, 7);
    SeparatorDropped(iso, 4);
    DigitRunThenRest(iso, 0, 4);
    assert iso[0..] == iso;
    ConcatAssoc(iso[0..4], iso[5..7], iso[8..10] + rest);
    ConcatAssoc(iso[0..4] + iso[5..7], iso[8..10], rest);
  }

  /** On a well-formed ISO time the timestamp is exactly its 14 date and time digits, milliseconds dropped. */
  lemma TimestampOfWellFormedIso(iso: string)
    requires WellFormedIso(iso)
    ensures Timestamp(iso) == iso[0..4] + iso[5..7] + iso[8..10] + iso[11..13] + iso[14..16] + iso[17..19]
  {
    var date := iso[0..4] + iso[5..7] + iso[8..10];
    var time := iso[11..13] + iso[14..16] + iso[17..19];
    DateDigitsKept(iso);
    TimeDigitsKept(iso);
    ConcatAssoc(date, time, iso[20..]);
    TakeOfConcat(date + time, iso[20..]);
    ConcatAssoc(date, iso[11..13] + iso[14..16], iso[17..19]);
    ConcatAssoc(date, iso[11..13], iso[14..16]);
  }

  /** The claims of the signed-in account that the default names use. */
  datatype AccountClaims = AccountClaims(email: Option<string>, upn: Option<string>)

  /**
   * The user part of the default names: the text before the first `@` of the
   * email (or, when the email is missing or empty, of the upn), or "dummy"
   * when that is missing or empty.
   */
  function Username(claims: Option<AccountClaims>): (u: string)
    ensures u != "" && '@' !in u
    ensures var address := if claims.None? then None else if Truthy(claims.value.email) then claims.value.email else claims.value.upn;
            if address.Some? && IndexOfChar(address.value, '@') > 0
            then u == address.value[..IndexOfChar(address.value, '@')]
            else u == "dummy"
  {
    var address := if claims.None? then None else if Truthy(claims.value.email) then claims.value.email else claims.value.upn;
    match address
    case None => "dummy"
    case Some(a) =>
      var parts := Split(a, '@');
      SplitHead(a, '@');
      var user := parts[0];
      assert forall j :: 0 <= j < |user| ==> user[j] != '@';
      if user == "" then "dummy" else user
  }

  /** The resource group name proposed by default: the user part, then the timestamp. */
  function DefaultResourceGroupName(username: string, timestamp: string): (name: string)
    ensures StartsWith(name, username) && EndsWith(name, timestamp)
  {
    var name := username + "_speechaiproj_rg_" + timestamp;
    assert name[..|username|] == username;
    assert name[|name| - |timestamp|..] == timestamp;
    name
  }

  /** The speech resource name proposed by default: the user part, then the timestamp. */
  function DefaultServiceName(username: string, timestamp: string): (name: string)
    ensures StartsWith(name, username) && EndsWith(name, timestamp)
  {
    var name := username + "-speechaiproj-ais-" + timestamp;
    assert name[..|username|] == username;
    assert name[|name| - |timestamp|..] == timestamp;
    name
  }

  /** For the same user and time the two proposed names differ: they part right after the user part. */
  lemma DefaultNamesDiffer(username: string, timestamp: string)
    ensures DefaultResourceGroupName(username, timestamp) != DefaultServiceName(username, timestamp)
  {
    var g := DefaultResourceGroupName(username, timestamp);
    var a := DefaultServiceName(username, timestamp);
    assert g[|username|] == '_';
    assert a[|username|] == '-';
  }

  /**
   * What the name input box returns: a cancelled or empty input rejects;
   * anything else comes back trimmed, that is, as the slice of the input
   * between its leading and its trailing whitespace.
   */
  function AcceptedName(input: Option<string>): (r: Result<string, string>)
    ensures !Truthy(input) <==> r == Failure(UserCancelNameInputError)
    ensures Truthy(input) ==>
              && r.Success?
              && exists i, j :: && 0 <= i <= j <= |input.value| && r.value == input.value[i..j]
                                && AllWhitespace(input.value[..i]) && AllWhitespace(input.value[j..])
    ensures r.Success? && r.value != "" ==> !IsJsWhitespace(r.value[0]) && !IsJsWhitespace(r.value[|r.value| - 1])
  {
    if Truthy(input) then
      TrimIsSlice(input.value);
      Success(Trim(input.value))
    else Failure(UserCancelNameInputError)
  }

  /** A name typed without surrounding whitespace is accepted as typed. */
  lemma AcceptedNameKeepsTidyInput(name: string)
    requires name != "" && !IsJsWhitespace(name[0]) && !IsJsWhitespace(name[|name| - 1])
    ensures AcceptedName(Some(name)) == Success(name)
  {
    TrimOfTrimmed(name);
  }

  // ================================================================ resource prompts

  /** A speech resource's option caption: `name (accountType, region, sku)`. */
  function ServiceCaption(r: AzureSpeechResourceInfo): string {
    r.name + " (" + r.accountType + ", " + r.region + ", " + r.sku + ")"
  }

  /** The speech-resource prompt: "create new" first, then one option per resource in list order. */
  function SpeechServiceOptions(resources: seq<AzureSpeechResourceInfo>): (opts: seq<OptionItem>)
    ensures |opts| == |resources| + 1 && opts[0] == CreateNewServiceOption
    ensures forall i :: 0 <= i < |resources| ==> opts[i + 1] == OptionItem(resources[i].id, ServiceCaption(resources[i]))
  {
    [CreateNewServiceOption] + seq(|resources|, i requires 0 <= i < |resources| => OptionItem(resources[i].id, ServiceCaption(resources[i])))
  }

  /** What picking from the speech-resource prompt selects. */
  datatype ServiceChoice = CreateNewService | ExistingService(service: Option<AzureSpeechResourceInfo>)

  function HasResourceId(id: string): AzureSpeechResourceInfo -> bool {
    (r: AzureSpeechResourceInfo) => r.id == id
  }

  /** The speech resource a prompt answer selects: the create path, the first resource with the picked id, or none. */
  function SpeechServicePick(resources: seq<AzureSpeechResourceInfo>, ui: UiResult): (r: Result<ServiceChoice, string>)
    ensures ui.Rejected? ==> r == Failure(ui.reason)
    ensures ui == Picked(CreateNewServiceOption.id) ==> r == Success(CreateNewService)
    ensures ui.Picked? && ui.id != CreateNewServiceOption.id ==>
              r.Success? && r.value.ExistingService?
              && (r.value.service.Some? ==> exists k :: 0 <= k < |resources| && resources[k] == r.value.service.value
                                              && resources[k].id == ui.id
                                              && forall j :: 0 <= j < k ==> resources[j].id != ui.id)
              && (r.value.service.None? ==> forall k :: 0 <= k < |resources| ==> resources[k].id != ui.id)
  {
    match ui
    case Rejected(reason) => Failure(reason)
    case Picked(id) =>
      if id == CreateNewServiceOption.id then Success(CreateNewService)
      else match FindFirst(resources, HasResourceId(id))
        case Some(k) => Success(ExistingService(Some(resources[k])))
        case None => Success(ExistingService(None))
  }

  /** Picking the option offered for a resource whose ids are distinct selects that very resource. */
  lemma PickOfferedService(resources: seq<AzureSpeechResourceInfo>, k: nat)
    requires k < |resources| && resources[k].id != CreateNewServiceOption.id
    requires forall i, j :: 0 <= i < j < |resources| ==> resources[i].id != resources[j].id
    ensures SpeechServicePick(resources, Picked(SpeechServiceOptions(resources)[k + 1].id)) == Success(ExistingService(Some(resources[k])))
  {
    var id := resources[k].id;
    assert SpeechServiceOptions(resources)[k + 1].id == id;
    var first := FindFirst(resources, HasResourceId(id));
    assert HasResourceId(id)(resources[k]);
    assert first.Some?;
    assert first.value == k;
  }

  /** One option per value, the value serving as both id and caption (regions, pricing tiers). */
  function ValueOptions(values: seq<string>): (opts: seq<OptionItem>)
    ensures |opts| == |values| && forall i :: 0 <= i < |values| ==> opts[i] == OptionItem(values[i], values[i])
  {
    seq(|values|, i requires 0 <= i < |values| => OptionItem(values[i], values[i]))
  }

  /** The picked value, or the prompt's error. */
  function PickedValue(ui: UiResult): (r: Result<string, string>)
    ensures ui.Picked? <==> r.Success?
    ensures ui.Picked? ==> r.value == ui.id
    ensures ui.Rejected? ==> r.error == ui.reason
  {
    match ui
    case Picked(id) => Success(id)
    case Rejected(reason) => Failure(reason)
  }

  function NoPricingTierError(location: string): string {
    "No pricing tier available for the selected region " + location
  }

  /** The resource-group prompt: "create new" first, then one option per group, its name as id and caption. */
  function ResourceGroupOptions(groups: seq<ResourceGroupInfo>): (opts: seq<OptionItem>)
    ensures |opts| == |groups| + 1 && opts[0] == CreateNewResourceGroupOption
    ensures forall i :: 0 <= i < |groups| ==> opts[i + 1] == OptionItem(groups[i].name, groups[i].name)
  {
    [CreateNewResourceGroupOption] + seq(|groups|, i requires 0 <= i < |groups| => OptionItem(groups[i].name, groups[i].name))
  }

  function HasGroupName(name: string): ResourceGroupInfo -> bool {
    (g: ResourceGroupInfo) => g.name == name
  }

  /** The name of the listed group the picked id names, if any. */
  function ExistingGroupName(groups: seq<ResourceGroupInfo>, id: string): (r: Option<string>)
    ensures r.Some? <==> exists k :: 0 <= k < |groups| && groups[k].name == id
    ensures r.Some? ==> r.value == id
  {
    match FindFirst(groups, HasGroupName(id))
    case Some(k) => Some(groups[k].name)
    case None => None
  }

  /** What `fetchSpeechResourceKeyAndRegion` returns. */
  datatype KeyAndRegion = KeyAndRegion(key: Option<string>, region: Option<string>, customSubDomainName: Option<string>)

  // ================================================================ sign-out

  /** The TypeError `doesUserConfirmSignout` raises when the account info it reads `upn` from is undefined. */
  const AccountInfoTypeError := "TypeError: Cannot read properties of undefined (reading 'upn')"

  /**
   * What `signout` settles to, given what `getStatus` settles to, the claims
   * `getJsonObject` decodes, and whether the user confirms: the status
   * error propagates; an account info that is undefined (signing in, signed
   * out, or no token) makes the `upn` read throw; otherwise the dialog
   * decides.
   */
  function SignoutOutcome(report: Result<LoginStatusKind, string>, claims: Option<AccountClaims>, confirmed: bool)
    : (r: Result<bool, string>)
    ensures r.Success? <==> report == Success(SignedIn) && claims.Some? && confirmed
    ensures r.Success? ==> r.value
    ensures report.Failure? ==> r == Failure(report.error)
    ensures report.Success? && (report.value != SignedIn || claims.None?) ==> r == Failure(AccountInfoTypeError)
    ensures report == Success(SignedIn) && claims.Some? && !confirmed ==> r == Failure(UserCancelSignoutError)
  {
    if report.Failure? then Failure(report.error)
    else if report.value != SignedIn || claims.None? then Failure(AccountInfoTypeError)
    else if !confirmed then Failure(UserCancelSignoutError)
    else Success(true)
  }

  // ================================================================ the manager

  class AzureAccountManager {
    var tenantId: Option<string>
    var subscriptionId: Option<string>
    var subscriptionName: Option<string>
    var currentStatus: Option<Status>

    /** The selection the three subscription fields hold. */
    function Current(): Selection
      reads this
    {
      Selection(tenantId, subscriptionId, subscriptionName)
    }

    /** The constructor, with `addStatusChangeEvent`'s initial session check. */
    constructor (sessionExists: bool)
      ensures Current() == Cleared
      ensures currentStatus == if sessionExists then Some(LoggedIn) else None
    {
      tenantId, subscriptionId, subscriptionName := None, None, None;
      currentStatus := if sessionExists then Some(LoggedIn) else None;
    }

    /** The session-change listener: events of other providers are ignored; a Microsoft event re-derives the status from the session. */
    method OnDidChangeSessions(providerId: string, sessionExists: bool)
      modifies this
      ensures Current() == old(Current())
      ensures providerId != SubscriptionProvider.Microsoft ==> currentStatus == old(currentStatus)
      ensures providerId == SubscriptionProvider.Microsoft ==>
                currentStatus == Some(if sessionExists then LoggedIn else LoggedOut)
    {
      if providerId != SubscriptionProvider.Microsoft {
        return;
      }
      if sessionExists {
        currentStatus := Some(LoggedIn);
      } else {
        currentStatus := Some(LoggedOut);
      }
    }

    /** `doesUserConfirmLogin`: re-asks while the answer is "Learn more" (opening the help page each time). */
    method DoesUserConfirmLogin(answers: seq<Option<string>>) returns (confirmed: bool, learnMoreOpened: nat)
      requires HasDecisiveAnswer(answers)
      ensures learnMoreOpened == FirstDecisiveAnswer(answers)
      ensures confirmed <==> ConfirmsLogin(answers)
    {
      var i := 0;
      var userSelected := answers[0];
      while userSelected == Some(LearnMoreAnswer)
        invariant 0 <= i < |answers| && userSelected == answers[i]
        invariant forall j :: 0 <= j < i ==> answers[j] == Some(LearnMoreAnswer)
        invariant exists m :: i <= m < |answers| && answers[m] != Some(LearnMoreAnswer)
        decreases |answers| - i
      {
        i := i + 1;
        userSelected := answers[i];
      }
      learnMoreOpened := i;
      confirmed := userSelected == Some(SignInAnswer);
    }

    /**
     * `login`: a declined dialog rejects and changes nothing; otherwise the
     * status is LoggingIn while the session is requested and LoggedOut when
     * the request fails.
     */
    method Login(showDialog: bool, answers: seq<Option<string>>, request: SessionRequest) returns (r: Outcome<string>)
      requires showDialog ==> HasDecisiveAnswer(answers)
      modifies this
      ensures Current() == old(Current())
      ensures showDialog && !ConfirmsLogin(answers) ==>
                r == Fail(UserCancelLoginError) && currentStatus == old(currentStatus)
      ensures !(showDialog && !ConfirmsLogin(answers)) ==>
                (r, currentStatus) == (SessionOutcome(request).0, Some(SessionOutcome(request).1))
    {
      if showDialog {
        var confirmed, _ := DoesUserConfirmLogin(answers);
        if !confirmed {
          return Fail(UserCancelLoginError);
        }
      }
      currentStatus := Some(LoggingIn);
      match request
      case SessionGranted =>
        r := Pass;
      case SessionUndefined =>
        currentStatus := Some(LoggedOut);
        r := Fail(LoginFailureMessage(LoginTimeoutError));
      case SessionThrew(message) =>
        currentStatus := Some(LoggedOut);
        r := Fail(LoginFailureMessage(message));
    }

    /**
     * `signout`: `doesUserConfirmSignout` first asks `getStatus` for the
     * account info, which rejects or is undefined unless the account is
     * signed in; a rejection, or a declined dialog, changes nothing; a
     * confirmed sign-out forgets the tenant and subscription id (not the name).
     */
    method Signout(sessionExists: bool, claims: Option<AccountClaims>, confirmed: bool) returns (r: Result<bool, string>)
      modifies this
      ensures currentStatus == old(currentStatus) && subscriptionName == old(subscriptionName)
      ensures r == SignoutOutcome(GetStatus(sessionExists), claims, confirmed)
      ensures r.Failure? ==> Current() == old(Current())
      ensures r.Success? ==> sessionExists && currentStatus != Some(LoggingIn) && tenantId == None && subscriptionId == None
    {
      var report := GetStatus(sessionExists);
      if report.Failure? {
        return Failure(report.error);
      }
      if report.value != SignedIn || claims.None? {
        return Failure(AccountInfoTypeError);
      }
      if !confirmed {
        return Failure(UserCancelSignoutError);
      }
      tenantId := None;
      subscriptionId := None;
      r := Success(true);
    }

    /** `listSubscriptions`: the provider's subscriptions as records, when a session exists. */
    method ListSubscriptions(sessionExists: bool, subs: seq<AzureSubscription>) returns (arr: seq<SubscriptionInfo>)
      ensures arr == SubscriptionInfos(sessionExists, subs)
    {
      arr := [];
      if sessionExists {
        for i := 0 to |subs|
          invariant arr == SubscriptionInfos(true, subs[..i])
        {
          arr := arr + [InfoOf(subs[i])];
        }
        assert subs[..|subs|] == subs;
      }
    }

    /** `listAzureServices`: the provider's resources of the given kinds, when a session exists. */
    method ListAzureServices(sessionExists: bool, sub: SubscriptionInfo, types: seq<AccountType>,
                             accounts: seq<SubscriptionProvider.Account>, displayName: AccountType -> string)
      returns (resources: seq<AzureSpeechResourceInfo>)
      ensures resources == if sessionExists then SubscriptionProvider.ResourceList(sub, types, accounts, displayName) else []
    {
      resources := [];
      if sessionExists {
        resources := SubscriptionProvider.GetAzureResourceListWithType(sub, types, accounts, displayName);
      }
    }

    /** `setSubscription`: searches the provider's list for the id and records the match. */
    method SetSubscription(id: string, sessionExists: bool, subs: seq<AzureSubscription>) returns (r: Outcome<string>)
      modifies this
      ensures (r, Current()) == SetSubscriptionSpec(old(Current()), id, sessionExists, subs)
      ensures currentStatus == old(currentStatus)
    {
      if id == "" {
        tenantId, subscriptionId, subscriptionName := None, None, None;
        return Pass;
      }
      if sessionExists {
        for i := 0 to |subs|
          invariant Current() == old(Current())
          invariant forall j :: 0 <= j < i ==> subs[j].subscriptionId != id
        {
          if subs[i].subscriptionId == id {
            tenantId := Some(subs[i].tenantId);
            subscriptionId := Some(id);
            subscriptionName := Some(subs[i].name);
            return Pass;
          }
        }
      }
      r := Fail(UnknownSubscriptionError);
    }

    /** `clearSub`: forgets the selected subscription. */
    method ClearSub()
      modifies this
      ensures Current() == Cleared && currentStatus == old(currentStatus)
    {
      var _ := SetSubscription("", false, []);
    }

    /**
     * `getStatus`: SigningIn while a login is under way; SignedIn when the
     * account is marked LoggedIn or a session exists, provided the credential
     * can be found (which needs the session); SignedOut otherwise.
     */
    function GetStatus(sessionExists: bool): (r: Result<LoginStatusKind, string>)
      reads this
      ensures r == Success(SigningIn) <==> currentStatus == Some(LoggingIn)
      ensures r == Success(SignedIn) <==> currentStatus != Some(LoggingIn) && sessionExists
      ensures r == Success(SignedOut) <==> currentStatus != Some(LoggingIn) && currentStatus != Some(LoggedIn) && !sessionExists
      ensures r.Failure? <==> currentStatus == Some(LoggedIn) && !sessionExists
      ensures r.Failure? ==> r.error == CredentialError
    {
      if currentStatus == Some(LoggingIn) then Success(SigningIn)
      else if currentStatus == Some(LoggedIn) || sessionExists then
        if sessionExists then Success(SignedIn) else Failure(CredentialError)
      else Success(SignedOut)
    }

    /** `doGetAccountCredentialAsync`: the credential of the first subscription in the selected tenant, else of the first subscription, else of the session. */
    method DoGetAccountCredential(sessionExists: bool, subs: seq<AzureSubscription>) returns (r: Result<CredentialSource, string>)
      ensures !sessionExists ==> r == Failure(CredentialError)
      ensures sessionExists && subs == [] ==> r == Success(SessionCredential)
      ensures sessionExists && subs != [] ==> r == Success(SubscriptionCredential(subs[CredentialIndex(subs, tenantId)]))
    {
      if !sessionExists {
        return Failure(CredentialError);
      }
      if |subs| > 0 {
        if Truthy(tenantId) {
          for i := 0 to |subs|
            invariant forall j :: 0 <= j < i ==> subs[j].tenantId != tenantId.value
          {
            if subs[i].tenantId == tenantId.value {
              return Success(SubscriptionCredential(subs[i]));
            }
          }
        }
        return Success(SubscriptionCredential(subs[0]));
      }
      r := Success(SessionCredential);
    }

    /** `getAccountInfo`: the token's claims, only while the account is marked LoggedIn. */
    function GetAccountInfo(claims: Option<AccountClaims>): (r: Option<AccountClaims>)
      reads this
      ensures r.Some? <==> currentStatus == Some(LoggedIn) && claims.Some?
      ensures r.Some? ==> r == claims
    {
      if currentStatus == Some(LoggedIn) then claims else None
    }

    /** `fetchSpeechResourceKeyAndRegion`: refused unless LoggedIn; otherwise the provider's answer. */
    method FetchSpeechResourceKeyAndRegion(fetched: Result<KeyAndRegion, string>) returns (r: Result<KeyAndRegion, string>)
      ensures currentStatus != Some(LoggedIn) ==> r == Failure(FetchNotLoggedInError)
      ensures currentStatus == Some(LoggedIn) ==> r == fetched
    {
      if currentStatus != Some(LoggedIn) {
        return Failure(FetchNotLoggedInError);
      }
      r := fetched;
    }

    /**
     * `selectSubscription`: lists the subscriptions, then fails, selects the
     * only one, or prompts with one option per subscription and selects the
     * picked id.
     */
    method SelectSubscription(sessionExists: bool, subs: seq<AzureSubscription>, ui: UiResult)
      returns (r: Outcome<string>, prompt: Option<seq<OptionItem>>)
      modifies this
      ensures (r, Current()) == SelectSubscriptionSpec(old(Current()), sessionExists, subs, ui)
      ensures prompt == SubscriptionPrompt(SubscriptionInfos(sessionExists, subs))
      ensures currentStatus == old(currentStatus)
    {
      var list := ListSubscriptions(sessionExists, subs);
      prompt := None;
      if |list| == 0 {
        return Fail(NoSubscriptionError), None;
      }
      if |list| == 1 {
        r := SetSubscription(list[0].id, sessionExists, subs);
      } else {
        prompt := Some(seq(|list|, i requires 0 <= i < |list| => OptionItem(list[i].id, list[i].name)));
        match ui
        case Rejected(reason) =>
          r := Fail(reason);
        case Picked(id) =>
          r := SetSubscription(id, sessionExists, subs);
      }
    }

    /**
     * `getSelectedSubscription`: with `triggerUI`, logs in first when neither
     * marked LoggedIn nor holding a session; then, only when marked LoggedIn,
     * selects a subscription and reports the selection (missing parts read
     * as ""). The session-change listener is taken not to run while the
     * login is awaited, so a login made here leaves the status LoggingIn.
     */
    method GetSelectedSubscription(triggerUI: bool, sessionExists: bool, answers: seq<Option<string>>,
                                   request: SessionRequest, subs: seq<AzureSubscription>, ui: UiResult)
      returns (r: Result<Option<SubscriptionInfo>, string>)
      requires triggerUI && currentStatus != Some(LoggedIn) && !sessionExists ==> HasDecisiveAnswer(answers)
      modifies this
      ensures old(currentStatus) != Some(LoggedIn) ==> Current() == old(Current()) && (r.Success? ==> r.value == None)
      ensures old(currentStatus) != Some(LoggedIn) && !(triggerUI && !sessionExists) ==>
                r == Success(None) && currentStatus == old(currentStatus)
      ensures triggerUI && old(currentStatus) != Some(LoggedIn) && !sessionExists && !ConfirmsLogin(answers) ==>
                r == Failure(UserCancelLoginError) && currentStatus == old(currentStatus)
      ensures triggerUI && old(currentStatus) != Some(LoggedIn) && !sessionExists && ConfirmsLogin(answers) ==>
                var (o, status) := SessionOutcome(request);
                && currentStatus == Some(status)
                && r == if o.Fail? then Failure(o.error) else Success(None)
      ensures old(currentStatus) == Some(LoggedIn) ==>
                var (o, sel) := SelectSubscriptionSpec(old(Current()), sessionExists, subs, ui);
                && Current() == sel && currentStatus == old(currentStatus)
                && (o.Fail? ==> r == Failure(o.error))
                && (o.Pass? ==> r == Success(Some(SubscriptionInfo(sel.subscriptionId.GetOr(""), sel.tenantId.GetOr(""),
                                                                  sel.subscriptionName.GetOr("")))))
    {
      if triggerUI && currentStatus != Some(LoggedIn) && !sessionExists {
        var o := Login(true, answers, request);
        if o.Fail? {
          return Failure(o.error);
        }
      }
      if currentStatus == Some(LoggedIn) {
        var o, _ := SelectSubscription(sessionExists, subs, ui);
        if o.Fail? {
          return Failure(o.error);
        }
        r := Success(Some(SubscriptionInfo(subscriptionId.GetOr(""), tenantId.GetOr(""), subscriptionName.GetOr(""))));
      } else {
        r := Success(None);
      }
    }

    /**
     * `getSelectedSpeechService`: refused unless LoggedIn; otherwise offers
     * "create new" and the subscription's speech-capable resources, and
     * returns what the answer selects.
     */
    method GetSelectedSpeechService(sub: SubscriptionInfo, sessionExists: bool, accounts: seq<SubscriptionProvider.Account>,
                                    displayName: AccountType -> string, ui: UiResult)
      returns (r: Result<ServiceChoice, string>, prompt: Option<seq<OptionItem>>)
      ensures currentStatus != Some(LoggedIn) ==> r == Failure(SpeechNotLoggedInError) && prompt == None
      ensures currentStatus == Some(LoggedIn) ==>
                var resources := if sessionExists then SubscriptionProvider.ResourceList(sub, SpeechAccountTypes, accounts, displayName) else [];
                prompt == Some(SpeechServiceOptions(resources)) && r == SpeechServicePick(resources, ui)
    {
      if currentStatus != Some(LoggedIn) {
        return Failure(SpeechNotLoggedInError), None;
      }
      var resources := ListAzureServices(sessionExists, sub, SpeechAccountTypes, accounts, displayName);
      prompt := Some(SpeechServiceOptions(resources));
      r := SpeechServicePick(resources, ui);
    }

    /** `getSelectedRegion`: offers the available regions and returns the pick. */
    method GetSelectedRegion(regions: seq<string>, ui: UiResult) returns (r: Result<string, string>, prompt: seq<OptionItem>)
      ensures prompt == ValueOptions(regions)
      ensures r == PickedValue(ui)
    {
      prompt := ValueOptions(regions);
      r := PickedValue(ui);
    }

    /** `getSelectedPricingTier`: rejects without prompting when the region offers no tier; otherwise offers the tiers and returns the pick. */
    method GetSelectedPricingTier(location: string, tiers: seq<string>, ui: UiResult)
      returns (r: Result<string, string>, prompt: Option<seq<OptionItem>>)
      ensures tiers == [] ==> r == Failure(NoPricingTierError(location)) && prompt == None
      ensures tiers != [] ==> prompt == Some(ValueOptions(tiers)) && r == PickedValue(ui)
    {
      if |tiers| == 0 {
        return Failure(NoPricingTierError(location)), None;
      }
      prompt := Some(ValueOptions(tiers));
      r := PickedValue(ui);
    }

    /**
     * `getResourceGroupNameFromUser`: proposes `<user>_speechaiproj_rg_<timestamp>`;
     * a failing permission probe aborts; the input box answer is accepted
     * trimmed, and a cancelled or empty answer rejects.
     */
    method GetResourceGroupNameFromUser(iso: string, claims: Option<AccountClaims>, probe: Outcome<string>, input: Option<string>)
      returns (r: Result<string, string>, defaultName: string)
      ensures defaultName == DefaultResourceGroupName(Username(GetAccountInfo(claims)), Timestamp(iso))
      ensures probe.Fail? ==> r == Failure(probe.error)
      ensures probe.Pass? ==> r == AcceptedName(input)
    {
      var timestamp := Timestamp(iso);
      var username := Username(GetAccountInfo(claims));
      defaultName := DefaultResourceGroupName(username, timestamp);
      if probe.Fail? {
        return Failure(probe.error), defaultName;
      }
      r := AcceptedName(input);
    }

    /** `getNewAzureAIServiceNameFromUser`: proposes `<user>-speechaiproj-ais-<timestamp>`; the answer is handled as for resource groups. */
    method GetNewAzureAIServiceNameFromUser(iso: string, claims: Option<AccountClaims>, input: Option<string>)
      returns (r: Result<string, string>, defaultName: string)
      ensures defaultName == DefaultServiceName(Username(GetAccountInfo(claims)), Timestamp(iso))
      ensures r == AcceptedName(input)
    {
      defaultName := DefaultServiceName(Username(GetAccountInfo(claims)), Timestamp(iso));
      r := AcceptedName(input);
    }

    /**
     * `getSelectedResourceGroups`: refused unless LoggedIn; a failing group
     * listing propagates; otherwise offers "create new" and the groups, and
     * returns the picked group's name, or the name entered for a new group.
     */
    method GetSelectedResourceGroups(sub: SubscriptionInfo, credential: Outcome<string>,
                                     entries: seq<SubscriptionProvider.ResourceGroupEntry>,
                                     end: SubscriptionProvider.StreamEnd, ui: UiResult,
                                     iso: string, claims: Option<AccountClaims>, probe: Outcome<string>, input: Option<string>)
      returns (r: Result<Option<string>, string>, prompt: Option<seq<OptionItem>>)
      ensures currentStatus != Some(LoggedIn) ==> r == Failure(ResourceGroupNotLoggedInError) && prompt == None
      ensures currentStatus == Some(LoggedIn) && credential.Fail? ==> r == Failure(credential.error) && prompt == None
      ensures currentStatus == Some(LoggedIn) && credential.Pass? && end.Threw? ==>
                r == Failure(SubscriptionProvider.ResourceGroupListError(sub, end.message)) && prompt == None
      ensures currentStatus == Some(LoggedIn) && credential.Pass? && end.Exhausted? ==>
                var groups := SubscriptionProvider.NamedGroupInfos(entries);
                && prompt == Some(ResourceGroupOptions(groups))
                && (ui.Rejected? ==> r == Failure(ui.reason))
                && (ui == Picked(CreateNewResourceGroupOption.id) ==>
                      var name := if probe.Fail? then Failure(probe.error) else AcceptedName(input);
                      r == if name.Success? then Success(Some(name.value)) else Failure(name.error))
                && (ui.Picked? && ui.id != CreateNewResourceGroupOption.id ==> r == Success(ExistingGroupName(groups, ui.id)))
    {
      if currentStatus != Some(LoggedIn) {
        return Failure(ResourceGroupNotLoggedInError), None;
      }
      var listed := SubscriptionProvider.GetResourceGroupListBySubscriptionId(sub, credential, entries, end);
      if listed.Failure? {
        return Failure(listed.error), None;
      }
      var groups := listed.value;
      prompt := Some(ResourceGroupOptions(groups));
      match ui
      case Rejected(reason) =>
        r := Failure(reason);
      case Picked(id) =>
        if id == CreateNewResourceGroupOption.id {
          var name, _ := GetResourceGroupNameFromUser(iso, claims, probe, input);
          r := if name.Success? then Success(Some(name.value)) else Failure(name.error);
        } else {
          r := Success(ExistingGroupName(groups, id));
        }
    }
  }

  /**
   * `login` itself never marks the account LoggedIn: a login that succeeds
   * leaves the status LoggingIn, and only the session-change listener sets
   * LoggedIn.
   */
  lemma LoginLeavesSelectionPending(request: SessionRequest)
    requires SessionOutcome(request).0.Pass?
    ensures SessionOutcome(request).1 == LoggingIn && SessionOutcome(request).1 != LoggedIn
  {
  }
}
