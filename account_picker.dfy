/**
 * The account-picker pane (`AccountPickerViewModel` and `AccountPickerState`).
 *
 * The payload derivation, the sort and the state getters are functions; the
 * view-model is a class whose methods update its state, log the server calls
 * it makes and log the navigation events it emits. Every suspend block
 * completes atomically: what `getManifest`, the poll and `selectAccounts`
 * returned or threw is an input of the method that completes the block.
 */
module AccountPicker {
  import opened Wrappers
  import opened FinancialConnectionsModel
  import opened Mavericks
  import N = Navigation

  datatype SelectionMode = Radio | Checkboxes

  /** A string resource shown as the subtitle. */
  datatype TextResource = StringId(resource: string)

  const SingleAccountDescription := "stripe_accountpicker_singleaccount_description"

  /** `AccountPickerState.Payload`; the accessible-data callout is not modelled. */
  datatype Payload = Payload(
    skipAccountSelection: bool,
    accounts: seq<PartnerAccount>,
    selectionMode: SelectionMode,
    singleAccount: bool,
    stripeDirect: bool,
    businessName: Option<string>,
    userSelectedSingleAccountInInstitution: bool,
    requiresSingleAccountConfirmation: bool)

  /** `AccountPickerState`, whose constructor defaults are `Uninitialized, true, Uninitialized, {}`. */
  datatype AccountPickerState = AccountPickerState(
    payload: Async<Payload, Throwable>,
    canRetry: bool,
    selectAccounts: Async<PartnerAccountsList, Throwable>,
    selectedIds: set<string>)

  const DefaultState := AccountPickerState(Uninitialized, true, Uninitialized, {})

  /** The server calls the view-model makes, in the order it makes them. */
  datatype Call =
    | PollAccounts(canRetry: bool)
    | SelectAccountsCall(selectedAccountIds: set<string>, sessionId: string, updateLocalCache: bool)

  /** The arguments of one `submitAccounts` call. */
  datatype Submission = Submission(selectedIds: set<string>, updateLocalCache: bool)

  // ------------------------------------------------------------ filters and sort

  /** `accounts.filter { it.allowSelection }`. */
  function Selectable(accounts: seq<PartnerAccount>): (r: seq<PartnerAccount>)
    ensures forall i :: 0 <= i < |r| ==> r[i].allowSelection
    ensures forall a :: a in r <==> a in accounts && a.allowSelection
    ensures |r| <= |accounts|
  {
    if accounts == [] then []
    else (if accounts[0].allowSelection then [accounts[0]] else []) + Selectable(accounts[1..])
  }

  /** The complementary filter, `accounts.filter { !it.allowSelection }`. */
  function Unselectable(accounts: seq<PartnerAccount>): (r: seq<PartnerAccount>)
    ensures forall i :: 0 <= i < |r| ==> !r[i].allowSelection
    ensures forall a :: a in r <==> a in accounts && !a.allowSelection
    ensures |r| <= |accounts|
  {
    if accounts == [] then []
    else (if accounts[0].allowSelection then [] else [accounts[0]]) + Unselectable(accounts[1..])
  }

  /** The sort key `allowSelection.not()`, with `false` ordered before `true`. */
  function Key(a: PartnerAccount): nat
  {
    if a.allowSelection then 0 else 1
  }

  /**
   * Inserts `x` before the first element whose key is not smaller; `x` comes
   * from earlier in the input than all of `s`, so equal keys keep their order.
   */
  function Insert(x: PartnerAccount, s: seq<PartnerAccount>): (r: seq<PartnerAccount>)
    ensures multiset(r) == multiset(s) + multiset{x}
  {
    if s == [] || Key(x) <= Key(s[0]) then [x] + s
    else
      assert s == [s[0]] + s[1..];
      [s[0]] + Insert(x, s[1..])
  }

  /** `sortedBy { it.allowSelection.not() }`: a stable sort on the key. */
  function SortedBySelectable(s: seq<PartnerAccount>): (r: seq<PartnerAccount>)
    ensures multiset(r) == multiset(s)
  {
    if s == [] then []
    else
      assert s == [s[0]] + s[1..];
      Insert(s[0], SortedBySelectable(s[1..]))
  }

  /** A selectable account goes in front of a partitioned list. */
  lemma InsertSelectable(x: PartnerAccount, a: seq<PartnerAccount>, b: seq<PartnerAccount>)
    requires x.allowSelection
    ensures Insert(x, a + b) == [x] + a + b
  {
  }

  /** A non-selectable account moves past a selectable head. */
  lemma InsertPastSelectable(x: PartnerAccount, h: PartnerAccount, rest: seq<PartnerAccount>)
    requires !x.allowSelection && h.allowSelection
    ensures Insert(x, [h] + rest) == [h] + Insert(x, rest)
  {
    assert ([h] + rest)[0] == h;
    assert ([h] + rest)[1..] == rest;
  }

  /** A non-selectable account goes in front of a list of non-selectable ones. */
  lemma InsertInFront(x: PartnerAccount, b: seq<PartnerAccount>)
    requires !x.allowSelection
    requires forall i :: 0 <= i < |b| ==> !b[i].allowSelection
    ensures Insert(x, b) == [x] + b
  {
  }

  /** A non-selectable account goes after the selectable part of a partitioned list. */
  lemma {:induction false} InsertUnselectable(x: PartnerAccount, a: seq<PartnerAccount>, b: seq<PartnerAccount>)
    requires !x.allowSelection
    requires forall i :: 0 <= i < |a| ==> a[i].allowSelection
    requires forall i :: 0 <= i < |b| ==> !b[i].allowSelection
    ensures Insert(x, a + b) == a + ([x] + b)
  {
    if a == [] {
      assert a + b == b;
      InsertInFront(x, b);
    } else {
      var t := a[1..];
      assert forall i :: 0 <= i < |t| ==> t[i].allowSelection by {
        forall i | 0 <= i < |t| ensures t[i].allowSelection {
          assert t[i] == a[i + 1];
        }
      }
      assert a + b == [a[0]] + (t + b);
      InsertPastSelectable(x, a[0], t + b);
      InsertUnselectable(x, t, b);
      assert a + ([x] + b) == [a[0]] + (t + ([x] + b));
    }
  }

  /** The partition of a list whose head is selectable. */
  lemma PartitionStepSelectable(s: seq<PartnerAccount>)
    requires s != [] && s[0].allowSelection
    requires SortedBySelectable(s[1..]) == Selectable(s[1..]) + Unselectable(s[1..])
    ensures SortedBySelectable(s) == Selectable(s) + Unselectable(s)
  {
    var t := s[1..];
    InsertSelectable(s[0], Selectable(t), Unselectable(t));
    assert Selectable(s) == [s[0]] + Selectable(t);
    assert Unselectable(s) == Unselectable(t);
  }

  /** The partition of a list whose head is not selectable. */
  lemma PartitionStepUnselectable(s: seq<PartnerAccount>)
    requires s != [] && !s[0].allowSelection
    requires SortedBySelectable(s[1..]) == Selectable(s[1..]) + Unselectable(s[1..])
    ensures SortedBySelectable(s) == Selectable(s) + Unselectable(s)
  {
    var t := s[1..];
    InsertUnselectable(s[0], Selectable(t), Unselectable(t));
    assert Selectable(s) == Selectable(t);
    assert Unselectable(s) == [s[0]] + Unselectable(t);
  }

  /**
   * The sort is stable and puts the selectable accounts first: it yields the
   * selectable accounts in their input order, then the others in theirs.
   */
  lemma {:induction false} SortedByPartition(s: seq<PartnerAccount>)
    ensures SortedBySelectable(s) == Selectable(s) + Unselectable(s)
  {
    if s != [] {
      SortedByPartition(s[1..]);
      if s[0].allowSelection {
        PartitionStepSelectable(s);
      } else {
        PartitionStepUnselectable(s);
      }
    }
  }

  /** No non-selectable account comes before a selectable one. */
  lemma SelectableFirst(s: seq<PartnerAccount>)
    ensures var r := SortedBySelectable(s);
      forall i, j :: 0 <= i < j < |r| && r[j].allowSelection ==> r[i].allowSelection
  {
    SortedByPartition(s);
  }

  /** Filtering a list with a known head. */
  lemma SelectableCons(h: PartnerAccount, rest: seq<PartnerAccount>)
    ensures Selectable([h] + rest) == (if h.allowSelection then [h] else []) + Selectable(rest)
  {
    assert ([h] + rest)[0] == h;
    assert ([h] + rest)[1..] == rest;
  }

  /** Filtering distributes over concatenation. */
  lemma {:induction false} SelectableAppend(a: seq<PartnerAccount>, b: seq<PartnerAccount>)
    ensures Selectable(a + b) == Selectable(a) + Selectable(b)
  {
    if a == [] {
      assert a + b == b;
    } else {
      var t := a[1..];
      var h := if a[0].allowSelection then [a[0]] else [];
      calc {
        Selectable(a + b);
        == { assert a + b == [a[0]] + (t + b); SelectableCons(a[0], t + b); }
        h + Selectable(t + b);
        == { SelectableAppend(t, b); }
        h + (Selectable(t) + Selectable(b));
        == { assert a == [a[0]] + t; SelectableCons(a[0], t); }
        Selectable(a) + Selectable(b);
      }
    }
  }

  lemma {:induction false} SelectableOfFiltered(s: seq<PartnerAccount>)
    ensures Selectable(Selectable(s)) == Selectable(s)
    ensures Selectable(Unselectable(s)) == []
  {
    if s != [] {
      SelectableOfFiltered(s[1..]);
      var h := if s[0].allowSelection then [s[0]] else [];
      SelectableAppend(h, Selectable(s[1..]));
      var u := if s[0].allowSelection then [] else [s[0]];
      SelectableAppend(u, Unselectable(s[1..]));
    }
  }

  /** Sorting keeps the selectable accounts, in their original order. */
  lemma SelectableOfSorted(s: seq<PartnerAccount>)
    ensures Selectable(SortedBySelectable(s)) == Selectable(s)
  {
    SortedByPartition(s);
    SelectableAppend(Selectable(s), Unselectable(s));
    SelectableOfFiltered(s);
  }

  // ------------------------------------------------------------ payload derivation

  /** The payload `loadAccounts` builds from the manifest, its active session and the polled list. */
  function BuildPayload(manifest: Manifest, session: AuthSession, list: PartnerAccountsList): (p: Payload)
    ensures multiset(p.accounts) == multiset(list.data)
    ensures p.accounts == Selectable(list.data) + Unselectable(list.data)
    ensures Selectable(p.accounts) == Selectable(list.data)
    ensures p.selectionMode == Radio <==> manifest.singleAccount
    ensures p.skipAccountSelection <==> IsTrue(list.skipAccountSelection) || IsTrue(session.skipAccountSelection)
    ensures p.userSelectedSingleAccountInInstitution ==> |p.accounts| == 1 && p.singleAccount
    ensures p.userSelectedSingleAccountInInstitution <==>
      manifest.singleAccount && IsTrue(session.institutionSkipAccountSelection) && |list.data| == 1
    ensures p.requiresSingleAccountConfirmation <==>
      IsTrue(session.institutionSkipAccountSelection) && manifest.singleAccount && session.isOAuth
    ensures p.singleAccount == manifest.singleAccount
    ensures p.businessName == manifest.businessName
    ensures p.stripeDirect <==> IsTrue(manifest.isStripeDirect)
  {
    SortedByPartition(list.data);
    SelectableOfSorted(list.data);
    var accounts := SortedBySelectable(list.data);
    assert |accounts| == |multiset(accounts)| == |multiset(list.data)| == |list.data|;
    Payload(
      skipAccountSelection := IsTrue(list.skipAccountSelection) || IsTrue(session.skipAccountSelection),
      accounts := accounts,
      selectionMode := if manifest.singleAccount then Radio else Checkboxes,
      singleAccount := manifest.singleAccount,
      stripeDirect := IsTrue(manifest.isStripeDirect),   // `isStripeDirect ?: false`
      businessName := manifest.businessName,
      userSelectedSingleAccountInInstitution :=
        manifest.singleAccount && IsTrue(session.institutionSkipAccountSelection) && |accounts| == 1,
      requiresSingleAccountConfirmation :=
        IsTrue(session.institutionSkipAccountSelection) && manifest.singleAccount && session.isOAuth)
  }

  /**
   * The outcome of `loadAccounts`'s suspend block: `getManifest` may throw,
   * `requireNotNull(activeAuthSession)` throws when there is no session, and
   * the poll may throw.
   */
  function LoadPayload(manifest: Result<Manifest, Throwable>, polled: Result<PartnerAccountsList, Throwable>)
    : (r: Result<Payload, Throwable>)
    ensures r.Ok? <==> RequireActiveSession(manifest).Ok? && polled.Ok?
    ensures r.Ok? ==> r.value == BuildPayload(manifest.value, manifest.value.activeAuthSession.value, polled.value)
    ensures manifest.Err? ==> r == Err(manifest.error)
    ensures manifest.Ok? && manifest.value.activeAuthSession.None? ==> r == Err(IllegalArgument)
    ensures RequireActiveSession(manifest).Ok? && polled.Err? ==> r == Err(polled.error)
  {
    match RequireActiveSession(manifest)
    case Err(e) => Err(e)
    case Ok(session) =>
      match polled
      case Err(e) => Err(e)
      case Ok(list) => Ok(BuildPayload(manifest.value, session, list))
  }

  /** The poll is only reached once the manifest and its active session are there. */
  function PollCalls(manifest: Result<Manifest, Throwable>, canRetry: bool): (r: seq<Call>)
    ensures r == [] || r == [PollAccounts(canRetry)]
    ensures r != [] <==> RequireActiveSession(manifest).Ok?
  {
    if RequireActiveSession(manifest).Ok? then [PollAccounts(canRetry)] else []
  }

  // ------------------------------------------------------------ getters

  /** `Payload.selectableAccounts`. */
  function SelectableAccounts(p: Payload): (r: seq<PartnerAccount>)
    ensures forall a :: a in r <==> a in p.accounts && a.allowSelection
  {
    Selectable(p.accounts)
  }

  /** `Payload.shouldSkipPane`. */
  function ShouldSkipPane(p: Payload): bool
  {
    p.skipAccountSelection || p.userSelectedSingleAccountInInstitution
  }

  /** `Payload.subtitle`: the confirmation text only when a single account must be confirmed. */
  function Subtitle(p: Payload): (r: Option<TextResource>)
    ensures r.Some? <==> p.requiresSingleAccountConfirmation
    ensures r.Some? ==> r.value == StringId(SingleAccountDescription)
  {
    if p.requiresSingleAccountConfirmation then Some(StringId(SingleAccountDescription)) else None
  }

  /**
   * A loaded pane shows the confirmation text exactly for a single-account
   * OAuth session whose institution would have skipped account selection.
   */
  lemma SubtitleOfLoadedPayload(manifest: Manifest, session: AuthSession, list: PartnerAccountsList)
    ensures Subtitle(BuildPayload(manifest, session, list)).Some? <==>
      IsTrue(session.institutionSkipAccountSelection) && manifest.singleAccount && session.isOAuth
  {
  }

  /**
   * A loaded pane is skipped exactly when the poll or the session says to skip
   * account selection, or a single account was already chosen at the institution.
   */
  lemma ShouldSkipPaneOfLoadedPayload(manifest: Manifest, session: AuthSession, list: PartnerAccountsList)
    ensures ShouldSkipPane(BuildPayload(manifest, session, list)) <==>
      || IsTrue(list.skipAccountSelection)
      || IsTrue(session.skipAccountSelection)
      || (manifest.singleAccount && IsTrue(session.institutionSkipAccountSelection) && |list.data| == 1)
  {
  }

  /** `submitLoading`: the accounts are still loading or the submission is running. */
  function SubmitLoading(st: AccountPickerState): bool
  {
    st.payload.Loading? || st.selectAccounts.Loading?
  }

  /** `submitEnabled`. */
  function SubmitEnabled(st: AccountPickerState): bool
  {
    st.selectedIds != {}
  }

  /**
   * `allAccountsSelected`: `payload()?.selectableAccounts?.count() == selectedIds.count()`.
   * A null count never equals an integer, so it is false without a payload.
   */
  function AllAccountsSelected(st: AccountPickerState): (r: bool)
    ensures r <==> st.payload.Success? && |SelectableAccounts(st.payload.value)| == |st.selectedIds|
  {
    match Invoke(st.payload)
    case None => false
    case Some(p) => |SelectableAccounts(p)| == |st.selectedIds|
  }

  /** `map { it.id }.toSet()`. */
  function IdSet(accounts: seq<PartnerAccount>): (r: set<string>)
    ensures forall i :: 0 <= i < |accounts| ==> accounts[i].id in r
    ensures forall id :: id in r ==> exists i :: 0 <= i < |accounts| && accounts[i].id == id
  {
    set a | a in accounts :: a.id
  }

  predicate DistinctIds(accounts: seq<PartnerAccount>)
  {
    forall i, j :: 0 <= i < j < |accounts| ==> accounts[i].id != accounts[j].id
  }

  /** Dropping the head keeps the ids distinct, and the head's id is not among the rest. */
  lemma DistinctIdsTail(accounts: seq<PartnerAccount>)
    requires accounts != [] && DistinctIds(accounts)
    ensures DistinctIds(accounts[1..])
    ensures accounts[0].id !in IdSet(accounts[1..])
  {
    var t := accounts[1..];
    forall i, j | 0 <= i < j < |t| ensures t[i].id != t[j].id {
      assert t[i] == accounts[i + 1] && t[j] == accounts[j + 1];
    }
    forall a | a in t ensures a.id != accounts[0].id {
      var k :| 0 <= k < |t| && t[k] == a;
      assert t[k] == accounts[k + 1];
    }
  }

  /** The ids of a list are its head's id and the ids of the rest. */
  lemma IdSetCons(accounts: seq<PartnerAccount>)
    requires accounts != []
    ensures IdSet(accounts) == {accounts[0].id} + IdSet(accounts[1..])
  {
    assert accounts == [accounts[0]] + accounts[1..];
  }

  /** With distinct ids, the id set has as many elements as the list. */
  lemma {:induction false} IdSetCardinality(accounts: seq<PartnerAccount>)
    requires DistinctIds(accounts)
    ensures |IdSet(accounts)| == |accounts|
  {
    if accounts != [] {
      DistinctIdsTail(accounts);
      IdSetCardinality(accounts[1..]);
      IdSetCons(accounts);
    }
  }

  // ------------------------------------------------------------ selection rules

  /** The new selection after a click on the account with id `id`. */
  function ClickedSelection(mode: SelectionMode, selected: set<string>, id: string): (r: set<string>)
    ensures mode == Radio ==> r == {id}
    ensures mode == Checkboxes ==> (id in r <==> id !in selected)
    ensures mode == Checkboxes ==> forall other :: other != id ==> (other in r <==> other in selected)
  {
    match mode
    case Radio => {id}
    case Checkboxes => if id in selected then selected - {id} else selected + {id}
  }

  /** In checkbox mode, two clicks on the same account restore the selection. */
  lemma ToggleTwice(selected: set<string>, id: string)
    ensures ClickedSelection(Checkboxes, ClickedSelection(Checkboxes, selected, id), id) == selected
  {
  }

  /** The selection after "select all": nothing without a payload, else unselect all or select every selectable id. */
  function SelectAllSelection(st: AccountPickerState): (r: set<string>)
    ensures st.payload.Success? && AllAccountsSelected(st) ==> r == {}
    ensures st.payload.Success? && !AllAccountsSelected(st) ==> r == IdSet(SelectableAccounts(st.payload.value))
    ensures !st.payload.Success? ==> r == st.selectedIds
  {
    match Invoke(st.payload)
    case None => st.selectedIds
    case Some(p) => if AllAccountsSelected(st) then {} else IdSet(SelectableAccounts(p))
  }

  /**
   * With distinct account ids, "select all" selects every selectable account,
   * after which the flag holds and a second press unselects all.
   */
  lemma SelectAllThenUnselectAll(st: AccountPickerState)
    requires st.payload.Success? && DistinctIds(SelectableAccounts(st.payload.value))
    requires !AllAccountsSelected(st)
    ensures var st1 := st.(selectedIds := SelectAllSelection(st));
      && st1.selectedIds == IdSet(SelectableAccounts(st.payload.value))
      && AllAccountsSelected(st1)
      && SelectAllSelection(st1) == {}
  {
    IdSetCardinality(SelectableAccounts(st.payload.value));
  }

  /**
   * A RADIO click always enables submission; a CHECKBOXES click disables it
   * exactly when it unticks the only selected account.
   */
  lemma ClickEnablesSubmit(st: AccountPickerState, id: string)
    ensures SubmitEnabled(st.(selectedIds := ClickedSelection(Radio, st.selectedIds, id)))
    ensures SubmitEnabled(st.(selectedIds := ClickedSelection(Checkboxes, st.selectedIds, id)))
      <==> st.selectedIds != {id}
  {
    var r := ClickedSelection(Checkboxes, st.selectedIds, id);
    if id in st.selectedIds && st.selectedIds != {id} {
      var other :| other in st.selectedIds && other != id;
      assert other in r;
    }
  }

  /**
   * Unselecting all disables submission; selecting all enables it exactly
   * when some account is selectable.
   */
  lemma SelectAllTogglesSubmit(st: AccountPickerState)
    requires st.payload.Success? && DistinctIds(SelectableAccounts(st.payload.value))
    ensures AllAccountsSelected(st) ==> !SubmitEnabled(st.(selectedIds := SelectAllSelection(st)))
    ensures !AllAccountsSelected(st) ==>
      (SubmitEnabled(st.(selectedIds := SelectAllSelection(st))) <==> |SelectableAccounts(st.payload.value)| > 0)
  {
    IdSetCardinality(SelectableAccounts(st.payload.value));
  }

  /** The submit button shows loading while the accounts reload, and afterwards only while a submission runs. */
  lemma SubmitLoadingFollowsLoads(st: AccountPickerState, loaded: Result<Payload, Throwable>)
    ensures SubmitLoading(st.(canRetry := false, payload := Loading))
    ensures SubmitLoading(st.(payload := Completed(loaded))) <==> st.selectAccounts.Loading?
  {
  }

  /**
   * The flag compares counts, not sets: a selection of the same size that
   * misses a selectable account still counts as "all selected".
   */
  lemma AllSelectedComparesCounts(a: PartnerAccount, other: string)
    requires a.allowSelection && other != a.id
    ensures var p := Payload(false, [a], Checkboxes, false, false, None, false, false);
      var st := AccountPickerState(Success(p), true, Uninitialized, {other});
      AllAccountsSelected(st) && a.id !in st.selectedIds
  {
    var p := Payload(false, [a], Checkboxes, false, false, None, false, false);
    assert Selectable([a]) == [a];
  }

  /**
   * `onPayloadLoaded`: skipping account selection submits every selectable id
   * without updating the local cache; otherwise a single account chosen at
   * the institution is submitted with the cache updated; otherwise nothing.
   */
  function AutoSubmission(p: Payload): (r: Option<Submission>)
    requires p.userSelectedSingleAccountInInstitution ==> |p.accounts| > 0   // `accounts.first()`
    ensures r.Some? <==> ShouldSkipPane(p)
    ensures p.skipAccountSelection ==> r == Some(Submission(IdSet(SelectableAccounts(p)), false))
    ensures !p.skipAccountSelection && p.userSelectedSingleAccountInInstitution ==>
      r == Some(Submission({p.accounts[0].id}, true))
  {
    if p.skipAccountSelection then Some(Submission(IdSet(SelectableAccounts(p)), false))
    else if p.userSelectedSingleAccountInInstitution then Some(Submission({p.accounts[0].id}, true))
    else None
  }

  /** For a loaded payload, an automatic single-account submission selects the one account there is. */
  lemma AutoSubmitsTheOnlyAccount(manifest: Manifest, session: AuthSession, list: PartnerAccountsList)
    requires !IsTrue(list.skipAccountSelection) && !IsTrue(session.skipAccountSelection)
    requires manifest.singleAccount && IsTrue(session.institutionSkipAccountSelection) && |list.data| == 1
    ensures AutoSubmission(BuildPayload(manifest, session, list)) == Some(Submission({list.data[0].id}, true))
  {
    var p := BuildPayload(manifest, session, list);
    assert multiset(p.accounts) == multiset(list.data);
    assert |p.accounts| == 1;
    assert p.accounts[0] in multiset(list.data);
  }

  /**
   * The outcome of `submitAccounts`'s suspend block: `getManifest` may throw,
   * a missing active session throws before `selectAccounts` is called, and
   * `selectAccounts` may throw.
   */
  function SelectOutcome(manifest: Result<Manifest, Throwable>, selected: Result<PartnerAccountsList, Throwable>)
    : (r: Result<PartnerAccountsList, Throwable>)
    ensures r.Ok? <==> RequireActiveSession(manifest).Ok? && selected.Ok?
    ensures RequireActiveSession(manifest).Ok? ==> r == selected
    ensures RequireActiveSession(manifest).Err? ==> r == Err(RequireActiveSession(manifest).error)
  {
    match RequireActiveSession(manifest)
    case Err(e) => Err(e)
    case Ok(_) => selected
  }

  /** `selectAccounts` is only called once the manifest and its active session are there. */
  function SelectCalls(ids: set<string>, updateLocalCache: bool, manifest: Result<Manifest, Throwable>)
    : (r: seq<Call>)
    ensures r != [] <==> RequireActiveSession(manifest).Ok?
    ensures r != [] ==> r == [SelectAccountsCall(ids, RequireActiveSession(manifest).value.id, updateLocalCache)]
  {
    match RequireActiveSession(manifest)
    case Err(_) => []
    case Ok(session) => [SelectAccountsCall(ids, session.id, updateLocalCache)]
  }

  // ------------------------------------------------------------ the view-model

  class AccountPickerViewModel {
    var state: AccountPickerState
    /** The events handed to `navigationManager.navigate`, oldest first. */
    var navigation: seq<N.NavigationState>
    /** The server calls made, oldest first. */
    var calls: seq<Call>
    /** `Pane.toNavigationCommand()`; the pane-to-direction table is not part of this model. */
    const toNavigationCommand: Pane -> N.Direction

    /** The navigation a completed submission emits: to the returned list's next pane. */
    function Navigated(outcome: Result<PartnerAccountsList, Throwable>, eventId: string): (r: seq<N.NavigationState>)
      ensures |r| <= 1
      ensures r != [] <==> outcome.Ok?
      ensures r != [] ==>
        r[0].NavigateToRoute? && !r[0].popCurrentFromBackStack
        && r[0].command == toNavigationCommand(outcome.value.nextPane)
    {
      if outcome.Ok? then [N.NavigateTo(toNavigationCommand(outcome.value.nextPane), false, eventId)] else []
    }

    /** `init`: `loadAccounts()` puts the payload in `Loading` until its block completes. */
    constructor (initialState: AccountPickerState, toNavigationCommand: Pane -> N.Direction)
      ensures state == initialState.(payload := Loading)
      ensures navigation == [] && calls == []
      ensures this.toNavigationCommand == toNavigationCommand
    {
      state := initialState.(payload := Loading);
      navigation := [];
      calls := [];
      this.toNavigationCommand := toNavigationCommand;
    }

    /**
     * `submitAccounts(ids, updateLocalCache)`, completed with what
     * `getManifest` and `selectAccounts` returned or threw.
     */
    method SubmitAccounts(ids: set<string>, updateLocalCache: bool,
                          manifest: Result<Manifest, Throwable>,
                          selected: Result<PartnerAccountsList, Throwable>, eventId: string)
      modifies this
      ensures state == old(state).(selectAccounts := Completed(SelectOutcome(manifest, selected)))
      ensures calls == old(calls) + SelectCalls(ids, updateLocalCache, manifest)
      ensures navigation == old(navigation) + Navigated(SelectOutcome(manifest, selected), eventId)
    {
      calls := calls + SelectCalls(ids, updateLocalCache, manifest);
      var outcome := SelectOutcome(manifest, selected);
      if outcome.Ok? {
        navigation := navigation + [N.NavigateTo(toNavigationCommand(outcome.value.nextPane), false, eventId)];
      }
      state := state.(selectAccounts := Completed(outcome));
    }

    /**
     * The completion of `loadAccounts`, followed by `onPayloadLoaded`'s
     * automatic submission (completed with `submitManifest` and `selected`).
     */
    method AccountsLoaded(manifest: Result<Manifest, Throwable>, polled: Result<PartnerAccountsList, Throwable>,
                          submitManifest: Result<Manifest, Throwable>,
                          selected: Result<PartnerAccountsList, Throwable>, eventId: string)
      modifies this
      ensures var loaded := LoadPayload(manifest, polled);
        var submission := if loaded.Ok? then AutoSubmission(loaded.value) else None;
        && state.payload == Completed(loaded)
        && state.canRetry == old(state.canRetry)
        && state.selectedIds == old(state.selectedIds)
        && state.selectAccounts ==
             (if submission.Some? then Completed(SelectOutcome(submitManifest, selected)) else old(state.selectAccounts))
        && calls == old(calls) + PollCalls(manifest, old(state.canRetry))
             + (if submission.Some?
                then SelectCalls(submission.value.selectedIds, submission.value.updateLocalCache, submitManifest)
                else [])
        && navigation == old(navigation)
             + (if submission.Some? then Navigated(SelectOutcome(submitManifest, selected), eventId) else [])
    {
      calls := calls + PollCalls(manifest, state.canRetry);
      var loaded := LoadPayload(manifest, polled);
      state := state.(payload := Completed(loaded));
      if loaded.Ok? {
        var submission := AutoSubmission(loaded.value);
        if submission.Some? {
          SubmitAccounts(submission.value.selectedIds, submission.value.updateLocalCache,
                         submitManifest, selected, eventId);
        }
      }
    }

    /** `onAccountClicked`: a click only changes the selection once a payload is there. */
    method OnAccountClicked(account: PartnerAccount)
      modifies this
      ensures old(state).payload.Success? ==>
        state == old(state).(selectedIds :=
          ClickedSelection(old(state).payload.value.selectionMode, old(state).selectedIds, account.id))
      ensures !old(state).payload.Success? ==> state == old(state)
      ensures navigation == old(navigation) && calls == old(calls)
    {
      if state.payload.Success? {
        state := state.(selectedIds := ClickedSelection(state.payload.value.selectionMode, state.selectedIds, account.id));
      }
    }

    /** `onSelectAllAccountsClicked`. */
    method OnSelectAllAccountsClicked()
      modifies this
      ensures state == old(state).(selectedIds := SelectAllSelection(old(state)))
      ensures navigation == old(navigation) && calls == old(calls)
    {
      state := state.(selectedIds := SelectAllSelection(state));
    }

    /** `onSubmit`: submits the current selection with the cache updated, once a payload is there. */
    method OnSubmit(manifest: Result<Manifest, Throwable>, selected: Result<PartnerAccountsList, Throwable>,
                    eventId: string)
      modifies this
      ensures old(state).payload.Success? ==>
        && state == old(state).(selectAccounts := Completed(SelectOutcome(manifest, selected)))
        && calls == old(calls) + SelectCalls(old(state).selectedIds, true, manifest)
        && navigation == old(navigation) + Navigated(SelectOutcome(manifest, selected), eventId)
      ensures !old(state).payload.Success? ==>
        state == old(state) && calls == old(calls) && navigation == old(navigation)
    {
      if state.payload.Success? {
        SubmitAccounts(state.selectedIds, true, manifest, selected, eventId);
      }
    }

    /** `onLoadAccountsAgain`: retries are switched off and the accounts load again. */
    method OnLoadAccountsAgain()
      modifies this
      ensures state == old(state).(canRetry := false, payload := Loading)
      ensures SubmitLoading(state)
      ensures navigation == old(navigation) && calls == old(calls)
    {
      state := state.(canRetry := false);
      state := state.(payload := Loading);
    }

    /** `selectAnotherBank`: back to the reset pane, keeping the back stack. */
    method SelectAnotherBank(eventId: string)
      modifies this
      ensures navigation == old(navigation) + [N.NavigateTo(N.Reset, false, eventId)]
      ensures state == old(state) && calls == old(calls)
    {
      navigation := navigation + [N.NavigateTo(N.Reset, false, eventId)];
    }

    /** `onEnterDetailsManually`: on to manual entry, keeping the back stack. */
    method OnEnterDetailsManually(eventId: string)
      modifies this
      ensures navigation == old(navigation) + [N.NavigateTo(N.ManualEntry, false, eventId)]
      ensures state == old(state) && calls == old(calls)
    {
      navigation := navigation + [N.NavigateTo(N.ManualEntry, false, eventId)];
    }
  }

  /** A reload after "load accounts again" polls without retrying. */
  method ReloadPollsWithoutRetry(vm: AccountPickerViewModel, manifest: Result<Manifest, Throwable>,
                                 polled: Result<PartnerAccountsList, Throwable>,
                                 submitManifest: Result<Manifest, Throwable>,
                                 selected: Result<PartnerAccountsList, Throwable>, eventId: string)
    requires RequireActiveSession(manifest).Ok?
    modifies vm
    ensures |vm.calls| > |old(vm.calls)| && vm.calls[|old(vm.calls)|] == PollAccounts(false)
  {
    vm.OnLoadAccountsAgain();
    vm.AccountsLoaded(manifest, polled, submitManifest, selected, eventId);
  }
}
