# Financial Connections navigation and pane view-models, modelled in Dafny

This project models part of the Stripe Android SDK: how the Financial
Connections flow moves between panes, and two of its panes.

- **Navigation** (`NavigationCommand.kt`, `NavigationState.kt`). Every
  direction has a base route and declared arguments. Its `destination`
  pattern is `base?key={...},...`. Its `invoke` renders
  `base?referrer_pane=<pane>,key=value,...`. A `NavigationState` event asks
  the host to go to a direction, optionally popping the current pane.
  Routes are proved to read back as their base and their pairs through a
  key-based reference decoder, and ManualEntrySuccess's `argMap` is proved
  to decode back through `microdeposits` and `last4`.
- **Account picker** (`AccountPickerViewModel.kt`). The pane polls the
  session's accounts and sorts the selectable ones first. It builds the
  payload flags, submits automatically when selection is skipped, and keeps
  the user's selection in RADIO or CHECKBOXES mode. The pane-state getters
  and the payload loading are pure functions. The view-model is a class
  whose methods update its state and append to a log of server calls and a
  log of navigation events.
- **Partner auth** (`PartnerAuthViewModel.kt`). The pane creates or restores
  an authorization session and opens the institution's URL without the
  native-redirect prefix. It reacts to the web flow's outcome: cancel,
  failure, in progress or success. Each handler's effect on the state, the
  calls and the navigation is a pure function, with lemmas stating what the
  source promises. The class's methods are proved to perform exactly that
  effect.
- **Duration provider** (`DurationProvider.kt`). A class holding a map from
  key to start time. `End` returns the elapsed time once, then null.
- **Analytics request** (`AnalyticsRequest.kt`). A GET, form-encoded
  request to `https://q.stripe.com`. The query is appended after `?` only
  when it is not empty, and only HTTP 429 is retried.

Modules: `Wrappers` (Option, Result), `Strings` (the Kotlin string
operations used), `FinancialConnectionsModel` (manifest, sessions,
accounts, errors), `Mavericks` (the `Async` state values), `WebAuthFlow`,
`Navigation`, `AccountPicker`, `PartnerAuth`, `DurationProvider` and
`Networking`.

Each `suspend { … }.execute` block is modelled as one atomic step. The
server's replies (or errors) are inputs to that step. A thrown exception is
the `Err` case of a `Result`. The model has no way to change
`authenticationStatus` to Success, because `completeAuthorizationSession`
never sets it: after a successful completion the status stays Loading, as
the code is written. The mapping `Pane.toNavigationCommand()` is a function
parameter of each view-model, since the pane table is not part of this
model. `ParseRoute` (in `Navigation`) is a key-based reference inverse of
`invoke`, written for the proofs: it cuts a route at `?`, `,` and `=`. It
does not model how the navigation host matches a route against a
registered `destination` pattern.

## Model

| member | source | states |
|---|---|---|
| Strings.IndexOfFrom | financial-connections/src/main/java/com/stripe/android/financialconnections/features/partnerauth/PartnerAuthViewModel.kt:154 | `indexOf(pat, from)`: the first index at or after `from` where `pat` occurs, -1 exactly when there is none |
| Strings.ReplaceFirst | financial-connections/src/main/java/com/stripe/android/financialconnections/features/partnerauth/PartnerAuthViewModel.kt:154 | a string in which the pattern does not occur is returned unchanged |
| Strings.ReplaceFirstAt | financial-connections/src/main/java/com/stripe/android/financialconnections/features/partnerauth/PartnerAuthViewModel.kt:154 | when the first occurrence is at `i`, the result is the prefix before `i`, the replacement, then the rest after the occurrence |
| Strings.ReplaceFirstLeading | financial-connections/src/main/java/com/stripe/android/financialconnections/features/partnerauth/PartnerAuthViewModel.kt:154 | a string that starts with the pattern loses exactly that leading copy |
| Strings.SplitJoin | financial-connections/src/main/java/com/stripe/android/financialconnections/navigation/NavigationCommand.kt:56 | splitting a `joinToString` result at its separator gives back the parts, when no part holds the separator |
| Strings.JoinSplit | financial-connections/src/main/java/com/stripe/android/financialconnections/navigation/NavigationCommand.kt:56 | joining the pieces of a split with the same separator gives back the string |
| FinancialConnectionsModel.RequireNotNull | financial-connections/src/main/java/com/stripe/android/financialconnections/features/accountpicker/AccountPickerViewModel.kt:58 | `requireNotNull` succeeds exactly on a present value and returns it; otherwise it throws IllegalArgumentException |
| FinancialConnectionsModel.RequireActiveSession | financial-connections/src/main/java/com/stripe/android/financialconnections/features/accountpicker/AccountPickerViewModel.kt:196 | `requireNotNull(manifest.activeAuthSession)` succeeds exactly when the manifest was fetched and has an active session; a failed fetch propagates its error |
| Mavericks.Invoke | financial-connections/src/main/java/com/stripe/android/financialconnections/features/accountpicker/AccountPickerViewModel.kt:153 | `state.payload()` is present exactly when the async value succeeded, and is that value |
| Mavericks.Completed | financial-connections/src/main/java/com/stripe/android/financialconnections/features/accountpicker/AccountPickerViewModel.kt:104 | `execute` turns a returned value into Success and a thrown error into Fail with that error |
| Navigation.BaseRoute | financial-connections/src/main/java/com/stripe/android/financialconnections/navigation/NavigationCommand.kt:60-191 | every base route is non-empty; with BaseRouteInjective and BaseRouteShape, the routes are pairwise distinct and hold no `?` |
| Navigation.BaseRouteInjective | financial-connections/src/main/java/com/stripe/android/financialconnections/navigation/NavigationCommand.kt:60-191 | no two directions share a base route |
| Navigation.VerificationBaseRouteShape | financial-connections/src/main/java/com/stripe/android/financialconnections/navigation/NavigationCommand.kt:141-157 | the two verification routes hold no `?` |
| Navigation.NetworkingBaseRouteShape | financial-connections/src/main/java/com/stripe/android/financialconnections/navigation/NavigationCommand.kt:123-139 | the networking sign-up and login-warmup routes hold no `?` |
| Navigation.LinkBaseRouteShape | financial-connections/src/main/java/com/stripe/android/financialconnections/navigation/NavigationCommand.kt:114-175 | the attach-account and step-up routes hold no `?` |
| Navigation.BaseRouteShape | financial-connections/src/main/java/com/stripe/android/financialconnections/navigation/NavigationCommand.kt:60-191 | no base route holds `?`, so the first `?` of a route ends its base |
| Navigation.CommonArguments | financial-connections/src/main/java/com/stripe/android/financialconnections/navigation/NavigationCommand.kt:40-46 | `commonArguments` is exactly one argument, `referrer_pane`: a nullable string whose default value is `null` |
| Navigation.Arguments | financial-connections/src/main/java/com/stripe/android/financialconnections/navigation/NavigationCommand.kt:193-198 | every direction declares `referrer_pane` first; only ManualEntrySuccess adds more, exactly `last4` then `microdeposits` |
| Navigation.ArgumentNamesOf | financial-connections/src/main/java/com/stripe/android/financialconnections/navigation/NavigationCommand.kt:40-46 | the argument names are `[referrer_pane]`, or `[referrer_pane, last4, microdeposits]` for ManualEntrySuccess |
| Navigation.Pattern | financial-connections/src/main/java/com/stripe/android/financialconnections/navigation/NavigationCommand.kt:18-21 | a destination pattern starts with its base route followed by `?` |
| Navigation.Destination | financial-connections/src/main/java/com/stripe/android/financialconnections/navigation/NavigationCommand.kt:18-21 | every `destination` starts with its base route and `?`; DestinationSegments states that it then lists one placeholder per declared argument |
| Navigation.PatternSegments | financial-connections/src/main/java/com/stripe/android/financialconnections/navigation/NavigationCommand.kt:18-21 | a pattern is its base, one `?`, then exactly one `key={...}` placeholder per argument, in order, separated by commas |
| Navigation.DestinationSegments | financial-connections/src/main/java/com/stripe/android/financialconnections/navigation/NavigationCommand.kt:18-21 | the destination of each direction reads back as its base route and one placeholder per declared argument |
| Navigation.AddParameters | financial-connections/src/main/java/com/stripe/android/financialconnections/navigation/NavigationCommand.kt:48-58 | `addParameters` gives the base, `?`, the `referrer_pane` segment first, then a comma and the parameter segments |
| Navigation.Route | financial-connections/src/main/java/com/stripe/android/financialconnections/navigation/NavigationCommand.kt:60-202 | every direction's `invoke` starts with its base route, `?` and the `referrer_pane` segment, and is exactly that when there are no parameters; ParseRouteOfRoute states that it reads back as its base and pairs |
| Navigation.ParseRoute | financial-connections/src/main/java/com/stripe/android/financialconnections/navigation/NavigationCommand.kt:48-58 | the key-based reference decoder finds a route exactly when the string holds `?`; the base it returns is a prefix without `?`, and there is always at least the first pair |
| Navigation.KeyValueOfSegment | financial-connections/src/main/java/com/stripe/android/financialconnections/navigation/NavigationCommand.kt:56 | a `key=value` segment whose key has no `=` reads back as that key and value |
| Navigation.SegmentsHaveNoComma | financial-connections/src/main/java/com/stripe/android/financialconnections/navigation/NavigationCommand.kt:52-56 | the rendered segments hold no comma when keys and values hold none |
| Navigation.ReferrerKeyShape | financial-connections/src/main/java/com/stripe/android/financialconnections/navigation/NavigationCommand.kt:52 | the `referrer_pane` key holds neither `=` nor `,` |
| Navigation.KeyValueAt | financial-connections/src/main/java/com/stripe/android/financialconnections/navigation/NavigationCommand.kt:52-56 | segment `k` of a route reads back as the `k`-th pair, the referrer being pair 0 |
| Navigation.KeyValuesOfSegments | financial-connections/src/main/java/com/stripe/android/financialconnections/navigation/NavigationCommand.kt:52-56 | all rendered segments read back as the referrer pair followed by the parameters in order |
| Navigation.ParseAddParameters | financial-connections/src/main/java/com/stripe/android/financialconnections/navigation/NavigationCommand.kt:48-58 | reading back `addParameters` on a base without `?` gives the base and the pairs it was built from (round trip) |
| Navigation.ParseRouteOfRoute | financial-connections/src/main/java/com/stripe/android/financialconnections/navigation/NavigationCommand.kt:60-202 | every direction's `invoke` reads back as its base route, `referrer_pane` first, then each parameter in given order |
| Navigation.NullIsRenderedAsText | financial-connections/src/main/java/com/stripe/android/financialconnections/navigation/NavigationCommand.kt:56 | a null parameter value renders exactly as the string "null" does, so the two cannot be told apart in a route |
| Navigation.ArgMap | financial-connections/src/main/java/com/stripe/android/financialconnections/navigation/NavigationCommand.kt:204-210 | `argMap` holds two parameters, `microdeposits` with the enum's wire value first and `last4` second; ArgMapPairs states the route pairs they give |
| Navigation.GetString | financial-connections/src/main/java/com/stripe/android/financialconnections/navigation/NavigationCommand.kt:218 | `arguments?.getString(key)` is present exactly when the bundle exists and holds the key, and is its value |
| Navigation.FirstIndexWithValue | financial-connections/src/main/java/com/stripe/android/financialconnections/navigation/NavigationCommand.kt:214 | the index of the first entry with the given value, or the length when none has it |
| Navigation.Microdeposits | financial-connections/src/main/java/com/stripe/android/financialconnections/navigation/NavigationCommand.kt:212-215 | a missing argument decodes to UNKNOWN; a present one to the entry with that value; an error (NoSuchElementException) exactly when no entry has it |
| Navigation.Last4 | financial-connections/src/main/java/com/stripe/android/financialconnections/navigation/NavigationCommand.kt:217-218 | `last4` is present exactly when the entry has a bundle holding `last4`, and is then that bundle's value |
| Navigation.PairsMap | financial-connections/src/main/java/com/stripe/android/financialconnections/navigation/NavigationCommand.kt:204-210 | the bundle holds every key of the pairs and no other, and the last pair's value wins for its key |
| Navigation.PairsMapOfThree | financial-connections/src/main/java/com/stripe/android/financialconnections/navigation/NavigationCommand.kt:204-210 | a bundle built from three pairs with distinct keys maps each key to its value |
| Navigation.FirstIndexOfDistinct | financial-connections/src/main/java/com/stripe/android/financialconnections/navigation/NavigationCommand.kt:214 | among entries with distinct values, `first { it.value == v }` finds the entry that has `v` |
| Navigation.ArgMapPairs | financial-connections/src/main/java/com/stripe/android/financialconnections/navigation/NavigationCommand.kt:204-210 | `argMap` yields the `microdeposits` pair, then the `last4` pair, after the referrer |
| Navigation.DecodeManualEntryBundle | financial-connections/src/main/java/com/stripe/android/financialconnections/navigation/NavigationCommand.kt:212-218 | a bundle holding the method's value and `last4` decodes to that method and that `last4` |
| Navigation.ManualEntrySuccessRoundTrip | financial-connections/src/main/java/com/stripe/android/financialconnections/navigation/NavigationCommand.kt:186-219 | a ManualEntrySuccess route built from `argMap(m, l)`, read back, decodes to `m` and to `l` as text |
| Navigation.EventRoute | financial-connections/src/main/java/com/stripe/android/financialconnections/navigation/NavigationState.kt:9-20 | only NavigateToRoute carries a route, and that route starts with its command's base route and `?` |
| Navigation.AddNoParameters | financial-connections/src/main/java/com/stripe/android/financialconnections/navigation/NavigationCommand.kt:48-58 | without referrer and parameters a route is `base?referrer_pane=null` |
| Navigation.NavigateTo | financial-connections/src/main/java/com/stripe/android/financialconnections/navigation/NavigationState.kt:13-19 | the event navigates to the given direction with the given pop flag and id; NavigateToDefaults states the default referrer, parameters and route |
| Navigation.NavigateToDefaults | financial-connections/src/main/java/com/stripe/android/financialconnections/navigation/NavigationState.kt:13-19 | a default event has no referrer, no parameters, pops only when asked, and routes to `base?referrer_pane=null` |
| Navigation.EventIdentity | financial-connections/src/main/java/com/stripe/android/financialconnections/navigation/NavigationState.kt:13-19 | two events built from the same command and flag are equal exactly when their ids are |
| AccountPicker.Selectable | financial-connections/src/main/java/com/stripe/android/financialconnections/features/accountpicker/AccountPickerViewModel.kt:290-291 | `selectableAccounts` holds exactly the accounts that allow selection, none other |
| AccountPicker.Unselectable | financial-connections/src/main/java/com/stripe/android/financialconnections/features/accountpicker/AccountPickerViewModel.kt:73 | the complement: exactly the accounts that do not allow selection |
| AccountPicker.Insert | financial-connections/src/main/java/com/stripe/android/financialconnections/features/accountpicker/AccountPickerViewModel.kt:73 | inserting into the sorted list adds exactly that account |
| AccountPicker.SortedBySelectable | financial-connections/src/main/java/com/stripe/android/financialconnections/features/accountpicker/AccountPickerViewModel.kt:73 | `sortedBy { !it.allowSelection }` is a permutation of its input |
| AccountPicker.InsertSelectable | financial-connections/src/main/java/com/stripe/android/financialconnections/features/accountpicker/AccountPickerViewModel.kt:73 | a selectable account is placed before every other |
| AccountPicker.InsertUnselectable | financial-connections/src/main/java/com/stripe/android/financialconnections/features/accountpicker/AccountPickerViewModel.kt:73 | a non-selectable account is placed after all selectable ones and before the other non-selectable ones |
| AccountPicker.PartitionStepSelectable | financial-connections/src/main/java/com/stripe/android/financialconnections/features/accountpicker/AccountPickerViewModel.kt:73 | the partition shape is kept when a selectable account is added in front |
| AccountPicker.PartitionStepUnselectable | financial-connections/src/main/java/com/stripe/android/financialconnections/features/accountpicker/AccountPickerViewModel.kt:73 | the partition shape is kept when a non-selectable account is added in front |
| AccountPicker.SortedByPartition | financial-connections/src/main/java/com/stripe/android/financialconnections/features/accountpicker/AccountPickerViewModel.kt:73 | the stable sort is exactly the selectable accounts in input order, then the others in input order |
| AccountPicker.SelectableFirst | financial-connections/src/main/java/com/stripe/android/financialconnections/features/accountpicker/AccountPickerViewModel.kt:73 | no non-selectable account precedes a selectable one after sorting |
| AccountPicker.SelectableAppend | financial-connections/src/main/java/com/stripe/android/financialconnections/features/accountpicker/AccountPickerViewModel.kt:290-291 | filtering distributes over concatenation |
| AccountPicker.SelectableOfFiltered | financial-connections/src/main/java/com/stripe/android/financialconnections/features/accountpicker/AccountPickerViewModel.kt:290-291 | filtering is idempotent and finds nothing among the non-selectable accounts |
| AccountPicker.SelectableOfSorted | financial-connections/src/main/java/com/stripe/android/financialconnections/features/accountpicker/AccountPickerViewModel.kt:73 | sorting does not change `selectableAccounts`, neither which nor in what order |
| AccountPicker.BuildPayload | financial-connections/src/main/java/com/stripe/android/financialconnections/features/accountpicker/AccountPickerViewModel.kt:73-100 | the accounts are the polled ones with selectable ones first, in order; the selection mode is RADIO exactly for single-account manifests; each flag holds exactly when the source's conjunction of manifest, session and poll flags does; `singleAccount`, `businessName` and `stripeDirect` come from the manifest |
| AccountPicker.LoadPayload | financial-connections/src/main/java/com/stripe/android/financialconnections/features/accountpicker/AccountPickerViewModel.kt:54-104 | the payload loads exactly when the manifest has an active session and the poll succeeds; otherwise the first thrown error is kept |
| AccountPicker.PollCalls | financial-connections/src/main/java/com/stripe/android/financialconnections/features/accountpicker/AccountPickerViewModel.kt:56-64 | the accounts are polled once with the current `canRetry`, exactly when the manifest has an active session |
| AccountPicker.SelectableAccounts | financial-connections/src/main/java/com/stripe/android/financialconnections/features/accountpicker/AccountPickerViewModel.kt:290-291 | `selectableAccounts` holds exactly the payload's accounts that allow selection |
| AccountPicker.ShouldSkipPane | financial-connections/src/main/java/com/stripe/android/financialconnections/features/accountpicker/AccountPickerViewModel.kt:293-294 | no contract of its own; ShouldSkipPaneOfLoadedPayload states when a loaded pane is skipped |
| AccountPicker.ShouldSkipPaneOfLoadedPayload | financial-connections/src/main/java/com/stripe/android/financialconnections/features/accountpicker/AccountPickerViewModel.kt:73-100 | a loaded pane is skipped exactly when the poll or the session skips account selection, or a single-account manifest meets an institution that skipped selection and exactly one account |
| AccountPicker.Subtitle | financial-connections/src/main/java/com/stripe/android/financialconnections/features/accountpicker/AccountPickerViewModel.kt:296-303 | a subtitle exists exactly when single-account confirmation is required, and it is the single-account description |
| AccountPicker.SubtitleOfLoadedPayload | financial-connections/src/main/java/com/stripe/android/financialconnections/features/accountpicker/AccountPickerViewModel.kt:92-94 | a loaded pane shows the single-account confirmation text exactly for a single-account OAuth session whose institution would have skipped selection |
| AccountPicker.SubmitLoading | financial-connections/src/main/java/com/stripe/android/financialconnections/features/accountpicker/AccountPickerViewModel.kt:269-270 | no contract of its own; SubmitLoadingFollowsLoads states that it is on while a load runs and follows the submission once the load completes |
| AccountPicker.SubmitEnabled | financial-connections/src/main/java/com/stripe/android/financialconnections/features/accountpicker/AccountPickerViewModel.kt:272-273 | no contract of its own; ClickEnablesSubmit and SelectAllTogglesSubmit state when clicks turn it on and off |
| AccountPicker.AllAccountsSelected | financial-connections/src/main/java/com/stripe/android/financialconnections/features/accountpicker/AccountPickerViewModel.kt:275-276 | true exactly when a payload has succeeded and its selectable accounts are as many as the selected ids |
| AccountPicker.IdSet | financial-connections/src/main/java/com/stripe/android/financialconnections/features/accountpicker/AccountPickerViewModel.kt:228 | the id set holds the id of every account and nothing else; IdSetCardinality states its size for distinct ids |
| AccountPicker.IdSetCardinality | financial-connections/src/main/java/com/stripe/android/financialconnections/features/accountpicker/AccountPickerViewModel.kt:228 | with distinct ids, the id set is as large as the account list |
| AccountPicker.ClickedSelection | financial-connections/src/main/java/com/stripe/android/financialconnections/features/accountpicker/AccountPickerViewModel.kt:151-173 | RADIO selects only the clicked id; CHECKBOXES toggles the clicked id and keeps every other |
| AccountPicker.ToggleTwice | financial-connections/src/main/java/com/stripe/android/financialconnections/features/accountpicker/AccountPickerViewModel.kt:159-167 | clicking the same checkbox twice restores the selection |
| AccountPicker.SelectAllSelection | financial-connections/src/main/java/com/stripe/android/financialconnections/features/accountpicker/AccountPickerViewModel.kt:219-234 | with a payload, "all selected" clears the selection and otherwise selects every selectable id; without one nothing changes |
| AccountPicker.SelectAllThenUnselectAll | financial-connections/src/main/java/com/stripe/android/financialconnections/features/accountpicker/AccountPickerViewModel.kt:219-234 | selecting all makes "all selected" true, and clicking again clears the selection |
| AccountPicker.ClickEnablesSubmit | financial-connections/src/main/java/com/stripe/android/financialconnections/features/accountpicker/AccountPickerViewModel.kt:151-173 | `submitEnabled` after a RADIO click always; after a CHECKBOXES click exactly unless it unticked the only selected account |
| AccountPicker.SelectAllTogglesSubmit | financial-connections/src/main/java/com/stripe/android/financialconnections/features/accountpicker/AccountPickerViewModel.kt:219-234 | unselect-all disables submission; select-all enables it exactly when some account is selectable |
| AccountPicker.SubmitLoadingFollowsLoads | financial-connections/src/main/java/com/stripe/android/financialconnections/features/accountpicker/AccountPickerViewModel.kt:269-270 | `submitLoading` holds while the accounts reload, and once they are loaded exactly while a submission is loading |
| AccountPicker.AllSelectedComparesCounts | financial-connections/src/main/java/com/stripe/android/financialconnections/features/accountpicker/AccountPickerViewModel.kt:275-276 | "all selected" compares counts only: a selection of the right size that misses the selectable account still counts |
| AccountPicker.AutoSubmission | financial-connections/src/main/java/com/stripe/android/financialconnections/features/accountpicker/AccountPickerViewModel.kt:107-124 | a submission happens exactly when the pane is skipped: every selectable id without cache update, or the first account with cache update |
| AccountPicker.AutoSubmitsTheOnlyAccount | financial-connections/src/main/java/com/stripe/android/financialconnections/features/accountpicker/AccountPickerViewModel.kt:96-121 | a single account chosen at the institution is submitted alone, with the cache updated |
| AccountPicker.SelectOutcome | financial-connections/src/main/java/com/stripe/android/financialconnections/features/accountpicker/AccountPickerViewModel.kt:192-202 | `submitAccounts` succeeds exactly when the manifest has an active session and `selectAccounts` succeeds, and returns its list |
| AccountPicker.SelectCalls | financial-connections/src/main/java/com/stripe/android/financialconnections/features/accountpicker/AccountPickerViewModel.kt:193-198 | accounts are selected once, for the active session, exactly when there is one |
| AccountPicker.AccountPickerViewModel.Navigated | financial-connections/src/main/java/com/stripe/android/financialconnections/features/accountpicker/AccountPickerViewModel.kt:199-201 | at most one navigation, exactly on success, to the returned next pane, without popping |
| AccountPicker.AccountPickerViewModel.constructor | financial-connections/src/main/java/com/stripe/android/financialconnections/features/accountpicker/AccountPickerViewModel.kt:48-52 | the payload starts loading; no call and no navigation yet |
| AccountPicker.AccountPickerViewModel.SubmitAccounts | financial-connections/src/main/java/com/stripe/android/financialconnections/features/accountpicker/AccountPickerViewModel.kt:188-206 | `selectAccounts` is completed with the outcome; the call and navigation logs grow by the submission's call and navigation |
| AccountPicker.AccountPickerViewModel.AccountsLoaded | financial-connections/src/main/java/com/stripe/android/financialconnections/features/accountpicker/AccountPickerViewModel.kt:54-124 | the payload completes with the loaded outcome, and a successful one triggers the automatic submission; nothing else changes |
| AccountPicker.AccountPickerViewModel.OnAccountClicked | financial-connections/src/main/java/com/stripe/android/financialconnections/features/accountpicker/AccountPickerViewModel.kt:151-173 | a click changes only the selection, and only when a payload is there |
| AccountPicker.AccountPickerViewModel.OnSelectAllAccountsClicked | financial-connections/src/main/java/com/stripe/android/financialconnections/features/accountpicker/AccountPickerViewModel.kt:219-234 | only the selection changes, to the select-all outcome |
| AccountPicker.AccountPickerViewModel.OnSubmit | financial-connections/src/main/java/com/stripe/android/financialconnections/features/accountpicker/AccountPickerViewModel.kt:175-186 | with a payload, the current selection is submitted with cache update; without one nothing changes |
| AccountPicker.AccountPickerViewModel.OnLoadAccountsAgain | financial-connections/src/main/java/com/stripe/android/financialconnections/features/accountpicker/AccountPickerViewModel.kt:214-217 | retrying is switched off and the payload starts loading again |
| AccountPicker.AccountPickerViewModel.SelectAnotherBank | financial-connections/src/main/java/com/stripe/android/financialconnections/features/accountpicker/AccountPickerViewModel.kt:208-209 | one navigation to Reset, without popping; nothing else changes |
| AccountPicker.AccountPickerViewModel.OnEnterDetailsManually | financial-connections/src/main/java/com/stripe/android/financialconnections/features/accountpicker/AccountPickerViewModel.kt:211-212 | one navigation to ManualEntry, without popping; nothing else changes |
| AccountPicker.ReloadPollsWithoutRetry | financial-connections/src/main/java/com/stripe/android/financialconnections/features/accountpicker/AccountPickerViewModel.kt:214-217 | the poll after "load accounts again" is made with `canRetry = false` |
| PartnerAuth.RedirectPrefix | financial-connections/src/main/java/com/stripe/android/financialconnections/features/partnerauth/PartnerAuthViewModel.kt:154 | the prefix is `stripe-auth://native-redirect/`, the application id, then `/` |
| PartnerAuth.PartnerAuthUrl | financial-connections/src/main/java/com/stripe/android/financialconnections/features/partnerauth/PartnerAuthViewModel.kt:154 | the URL is either unchanged or exactly one prefix-length shorter; the three lemmas after it say which part is removed |
| PartnerAuth.PartnerAuthUrlStripsPrefix | financial-connections/src/main/java/com/stripe/android/financialconnections/features/partnerauth/PartnerAuthViewModel.kt:154 | a URL starting with the native-redirect prefix for this application loses exactly that prefix |
| PartnerAuth.PartnerAuthUrlRemovesFirstOccurrence | financial-connections/src/main/java/com/stripe/android/financialconnections/features/partnerauth/PartnerAuthViewModel.kt:154 | only the first occurrence of the prefix is removed, wherever it is |
| PartnerAuth.PartnerAuthUrlWithoutPrefix | financial-connections/src/main/java/com/stripe/android/financialconnections/features/partnerauth/PartnerAuthViewModel.kt:154 | a URL without the prefix is opened as is |
| PartnerAuth.LaunchedState | financial-connections/src/main/java/com/stripe/android/financialconnections/features/partnerauth/PartnerAuthViewModel.kt:150-162 | launching never changes the payload or the active session id |
| PartnerAuth.LaunchOutcomes | financial-connections/src/main/java/com/stripe/android/financialconnections/features/partnerauth/PartnerAuthViewModel.kt:150-162 | a failed fetch or a missing session fails the status; a session without URL does nothing; otherwise the stripped URL is opened |
| PartnerAuth.LaunchOpensStrippedUrl | financial-connections/src/main/java/com/stripe/android/financialconnections/features/partnerauth/PartnerAuthViewModel.kt:150-156 | a session URL of the form prefix + rest opens `rest` and leaves the status alone |
| PartnerAuth.LaunchEvents | financial-connections/src/main/java/com/stripe/android/financialconnections/features/partnerauth/PartnerAuthViewModel.kt:93-110 | Launched is always posted first, and Loaded follows exactly for an OAuth session |
| PartnerAuth.CreatedPayload | financial-connections/src/main/java/com/stripe/android/financialconnections/features/partnerauth/PartnerAuthViewModel.kt:91-118 | the block succeeds exactly when the manifest was fetched with an active institution and the creation succeeded; the payload holds the new session, the institution and `isStripeDirect ?: false`; a missing institution throws IllegalArgumentException |
| PartnerAuth.CreateCalls | financial-connections/src/main/java/com/stripe/android/financialconnections/features/partnerauth/PartnerAuthViewModel.kt:91-118 | a session is created exactly when the manifest has an active institution, first in the log, and its events are posted exactly when the creation succeeds |
| PartnerAuth.CreateEffect | financial-connections/src/main/java/com/stripe/android/financialconnections/features/partnerauth/PartnerAuthViewModel.kt:91-128 | creating a session navigates nowhere, completes the payload with the block's outcome, and records an active session exactly when that outcome succeeded |
| PartnerAuth.CreateSetsActiveSession | financial-connections/src/main/java/com/stripe/android/financialconnections/features/partnerauth/PartnerAuthViewModel.kt:91-118 | a created session becomes the payload and the active session, with its creation and its events posted; any failure fails the payload and clears the active session; no navigation |
| PartnerAuth.CreateOAuthWaitsForClick | financial-connections/src/main/java/com/stripe/android/financialconnections/features/partnerauth/PartnerAuthViewModel.kt:120-128 | a new OAuth session does not open the browser or touch the status |
| PartnerAuth.RestoredPayload | financial-connections/src/main/java/com/stripe/android/financialconnections/features/partnerauth/PartnerAuthViewModel.kt:74-89 | a restored payload needs a fetched manifest with an active institution; it holds the manifest's session when there is one, and otherwise the newly created one |
| PartnerAuth.RestoreCalls | financial-connections/src/main/java/com/stripe/android/financialconnections/features/partnerauth/PartnerAuthViewModel.kt:74-89 | at most one call, a creation, made exactly when the fetched manifest has an institution but no active session |
| PartnerAuth.RestoreReusesSession | financial-connections/src/main/java/com/stripe/android/financialconnections/features/partnerauth/PartnerAuthViewModel.kt:74-89 | restoring reuses the manifest's active session without a call, and creates one only when there is none |
| PartnerAuth.FailEffect | financial-connections/src/main/java/com/stripe/android/financialconnections/features/partnerauth/PartnerAuthViewModel.kt:188-209 | a failed web flow navigates nowhere and changes only the status, which stays or becomes Fail with the web-flow error; calls are made exactly when the manifest has an active session |
| PartnerAuth.FailedSetsWebAuthError | financial-connections/src/main/java/com/stripe/android/financialconnections/features/partnerauth/PartnerAuthViewModel.kt:188-209 | once the manifest is read, the status fails with the web-flow error; without it nothing changes; never a navigation |
| PartnerAuth.CancelEffect | financial-connections/src/main/java/com/stripe/android/financialconnections/features/partnerauth/PartnerAuthViewModel.kt:211-240 | without an active session no call is made; otherwise the session is cancelled first; at most one navigation, which pops the pane |
| PartnerAuth.CancelOAuthCreatesNewSession | financial-connections/src/main/java/com/stripe/android/financialconnections/features/partnerauth/PartnerAuthViewModel.kt:211-225 | an OAuth cancel cancels the session, posts Retry, then creates a new session; no navigation |
| PartnerAuth.CancelOAuthResetsStatus | financial-connections/src/main/java/com/stripe/android/financialconnections/features/partnerauth/PartnerAuthViewModel.kt:217-225 | after an OAuth cancel the status is Uninitialized again, unless the new session launches the browser |
| PartnerAuth.CancelNonOAuthNavigates | financial-connections/src/main/java/com/stripe/android/financialconnections/features/partnerauth/PartnerAuthViewModel.kt:226-235 | a non-OAuth cancel navigates once to the cancellation's next pane, popping the pane, with the status still loading |
| PartnerAuth.CancelFailureFails | financial-connections/src/main/java/com/stripe/android/financialconnections/features/partnerauth/PartnerAuthViewModel.kt:211-239 | a missing session or failed cancellation fails the status, changes nothing else, and navigates nowhere |
| PartnerAuth.CompleteEffect | financial-connections/src/main/java/com/stripe/android/financialconnections/features/partnerauth/PartnerAuthViewModel.kt:242-274 | without an active session no call is made; otherwise Success is posted first; at most one navigation, which pops the pane |
| PartnerAuth.CompleteNonOAuthGoesToAccountPicker | financial-connections/src/main/java/com/stripe/android/financialconnections/features/partnerauth/PartnerAuthViewModel.kt:262-269 | a completed non-OAuth flow navigates once, to the account picker, popping the pane |
| PartnerAuth.CompleteOAuthGoesToNextPane | financial-connections/src/main/java/com/stripe/android/financialconnections/features/partnerauth/PartnerAuthViewModel.kt:247-261 | a completed OAuth flow posts Success, polls the results, completes the session with their public token, then navigates to its next pane |
| PartnerAuth.CompleteFailureFails | financial-connections/src/main/java/com/stripe/android/financialconnections/features/partnerauth/PartnerAuthViewModel.kt:242-273 | any failing step fails the status and navigates nowhere |
| PartnerAuth.FinishedEffect | financial-connections/src/main/java/com/stripe/android/financialconnections/features/partnerauth/PartnerAuthViewModel.kt:173-186 | only Canceled and Success can navigate; InProgress and Uninitialized make no call |
| PartnerAuth.InProgressAndUninitialized | financial-connections/src/main/java/com/stripe/android/financialconnections/features/partnerauth/PartnerAuthViewModel.kt:178-184 | InProgress only marks the status loading; Uninitialized does nothing |
| PartnerAuth.FinishedNavigatesAtMostOnce | financial-connections/src/main/java/com/stripe/android/financialconnections/features/partnerauth/PartnerAuthViewModel.kt:173-186 | whatever the browser reports, at most one navigation, and it pops the pane |
| PartnerAuth.CompleteNeverCancels | financial-connections/src/main/java/com/stripe/android/financialconnections/features/partnerauth/PartnerAuthViewModel.kt:242-274 | completion never cancels the session |
| PartnerAuth.PartnerAuthViewModel.constructor | financial-connections/src/main/java/com/stripe/android/financialconnections/features/partnerauth/PartnerAuthViewModel.kt:61-72 | without an active session the hook is registered and a session is created; with one it is restored; no navigation |
| PartnerAuth.PartnerAuthViewModel.RestoreAuthSession | financial-connections/src/main/java/com/stripe/android/financialconnections/features/partnerauth/PartnerAuthViewModel.kt:74-89 | the payload completes with the restored outcome; only the creation call, if any, is logged |
| PartnerAuth.PartnerAuthViewModel.CreateAuthSession | financial-connections/src/main/java/com/stripe/android/financialconnections/features/partnerauth/PartnerAuthViewModel.kt:91-128 | state and calls become those of the creation effect, launching a new non-OAuth session when the hook is registered |
| PartnerAuth.PartnerAuthViewModel.LaunchAuthInBrowser | financial-connections/src/main/java/com/stripe/android/financialconnections/features/partnerauth/PartnerAuthViewModel.kt:150-162 | the state becomes the launched state; no call, no navigation |
| PartnerAuth.PartnerAuthViewModel.OnLaunchAuthClick | financial-connections/src/main/java/com/stripe/android/financialconnections/features/partnerauth/PartnerAuthViewModel.kt:141-148 | OAuthLaunched is posted for a loaded session, then the browser is launched |
| PartnerAuth.PartnerAuthViewModel.OnWebAuthFlowFinished | financial-connections/src/main/java/com/stripe/android/financialconnections/features/partnerauth/PartnerAuthViewModel.kt:173-186 | the state and logs follow the dispatch on the web-flow status |
| PartnerAuth.PartnerAuthViewModel.OnAuthFailed | financial-connections/src/main/java/com/stripe/android/financialconnections/features/partnerauth/PartnerAuthViewModel.kt:188-209 | the state and logs follow the failure effect |
| PartnerAuth.PartnerAuthViewModel.OnAuthCancelled | financial-connections/src/main/java/com/stripe/android/financialconnections/features/partnerauth/PartnerAuthViewModel.kt:211-240 | the state and logs follow the cancel effect |
| PartnerAuth.PartnerAuthViewModel.CompleteAuthorizationSession | financial-connections/src/main/java/com/stripe/android/financialconnections/features/partnerauth/PartnerAuthViewModel.kt:242-274 | the state and logs follow the completion effect |
| PartnerAuth.PartnerAuthViewModel.OnSelectAnotherBank | financial-connections/src/main/java/com/stripe/android/financialconnections/features/partnerauth/PartnerAuthViewModel.kt:164-171 | one navigation to Reset, popping the pane; nothing else changes |
| PartnerAuth.PartnerAuthViewModel.OnEnterDetailsManuallyClick | financial-connections/src/main/java/com/stripe/android/financialconnections/features/partnerauth/PartnerAuthViewModel.kt:276-281 | one navigation to ManualEntry, popping the pane; nothing else changes |
| PartnerAuth.PartnerAuthViewModel.OnClickableTextClick | financial-connections/src/main/java/com/stripe/android/financialconnections/features/partnerauth/PartnerAuthViewModel.kt:283-319 | a network URL opens in the browser; otherwise the data link opens the bottom sheet; anything else changes nothing |
| PartnerAuth.PartnerAuthViewModel.OnViewEffectLaunched | financial-connections/src/main/java/com/stripe/android/financialconnections/features/partnerauth/PartnerAuthViewModel.kt:321-325 | only the view effect is cleared |
| DurationProvider.DefaultDurationProvider.constructor | paymentsheet/src/main/java/com/stripe/android/paymentsheet/analytics/DurationProvider.kt:11-13 | the store starts empty |
| DurationProvider.DefaultDurationProvider.Start | paymentsheet/src/main/java/com/stripe/android/paymentsheet/analytics/DurationProvider.kt:15-18 | the key is mapped to the current time, replacing any earlier start |
| DurationProvider.DefaultDurationProvider.End | paymentsheet/src/main/java/com/stripe/android/paymentsheet/analytics/DurationProvider.kt:20-23 | a key never started gives null and changes nothing; a started one gives now minus its start and is removed |
| DurationProvider.EndWithoutStart | paymentsheet/src/main/java/com/stripe/android/paymentsheet/analytics/DurationProvider.kt:21 | ending a key that was never started returns null |
| DurationProvider.EndAfterStart | paymentsheet/src/main/java/com/stripe/android/paymentsheet/analytics/DurationProvider.kt:15-23 | start then end returns the elapsed time, never negative on a monotonic clock |
| DurationProvider.SecondEndIsNull | paymentsheet/src/main/java/com/stripe/android/paymentsheet/analytics/DurationProvider.kt:20-23 | a second end of the same key returns null |
| DurationProvider.RestartOverwrites | paymentsheet/src/main/java/com/stripe/android/paymentsheet/analytics/DurationProvider.kt:15-18 | a restart overwrites the start time, so end measures from the last start |
| DurationProvider.OtherKeysUnchanged | paymentsheet/src/main/java/com/stripe/android/paymentsheet/analytics/DurationProvider.kt:15-23 | starting and ending one key leaves every other key as it was |
| Networking.Query | stripe-core/src/main/java/com/stripe/android/core/networking/AnalyticsRequest.kt:22 | no contract of its own; RequestDependsOnParamsOnly states that the query and URL depend on the parameters alone |
| Networking.RequestMethod | stripe-core/src/main/java/com/stripe/android/core/networking/AnalyticsRequest.kt:24 | no contract of its own; RequestDependsOnParamsOnly states that every request is a GET |
| Networking.RequestMimeType | stripe-core/src/main/java/com/stripe/android/core/networking/AnalyticsRequest.kt:26 | no contract of its own; RequestDependsOnParamsOnly states that every request is form-encoded |
| Networking.RetryResponseCodes | stripe-core/src/main/java/com/stripe/android/core/networking/AnalyticsRequest.kt:28 | a response code is retried exactly when it is 429 |
| Networking.IntRange | stripe-core/src/main/java/com/stripe/android/core/networking/AnalyticsRequest.kt:28 | `lo..hi` holds each integer from `lo` to `hi` once, in order, and nothing when `lo > hi` |
| Networking.ListOfNotNull | stripe-core/src/main/java/com/stripe/android/core/networking/AnalyticsRequest.kt:30-33 | `listOfNotNull` keeps exactly the present values |
| Networking.Url | stripe-core/src/main/java/com/stripe/android/core/networking/AnalyticsRequest.kt:30-33 | the URL is the host alone for an empty query, and host, `?`, query otherwise |
| Networking.OnlyTooManyRequestsIsRetried | stripe-core/src/main/java/com/stripe/android/core/networking/AnalyticsRequest.kt:28 | a request is retried on 429 and no other code |
| Networking.UrlSplitsIntoHostAndQuery | stripe-core/src/main/java/com/stripe/android/core/networking/AnalyticsRequest.kt:30-33 | a URL with a non-empty query splits at `?` into exactly the host and the query |
| Networking.RequestDependsOnParamsOnly | stripe-core/src/main/java/com/stripe/android/core/networking/AnalyticsRequest.kt:18-33 | two requests with the same params have the same URL, whatever their headers; both are GET and form-encoded |

## Left out

- Analytics tracking, logging and the `Date()` timestamps of events: these are side effects that do not affect state or navigation, so `eventTracker`, `logger` and `logErrors` are not modelled.
- `onLearnMoreAboutDataAccessClick` only tracks an analytics event, so it is not modelled.
- The `accessibleData` callout of the account-picker payload (`AccessibleDataCalloutModel`, `getDataPolicyUrl`): its class is not part of this model.
- Coroutine interleaving: each `suspend`/`execute`/`launch` block runs atomically, and Mavericks' Loading intermediate is modelled only where a later step reads it.
- `onAsync` subscriptions: the payload hooks are modelled as direct calls when the payload completes.
- The `Pane` enum and `toNavigationCommand`: the table is not part of this model. `Pane` wraps its wire value, and the mapping is a parameter.
- Matching a route against the registered `destination` pattern, and the typed decoding of `NavArgument`s (the `EnumType` of `microdeposits`, lines 196-197 of `NavigationCommand.kt`), belong to the navigation library and are not modelled. `ParseRoute` reads pairs by key, so it does not observe that the pattern lists `last4` before `microdeposits` (lines 193-198) while `argMap` puts `microdeposits` first (lines 204-210).
- How the navigation library renders a `NavArgument` inside `{...}` in `destination`: its `toString` is not part of this model, so the rendering is a parameter.
- Kotlin `Map` iteration order: parameter maps are sequences of pairs in insertion order, which is what `toList()` yields for the `LinkedHashMap` built by `mapOf`.
- `QueryStringFactory.createFromParamsWithEmptyValues` is not part of this model. The query is a function of the params, given as a parameter.
- `AnalyticsRequest.toJson`/`fromJson`: JSON serialisation is outside the model.
- `pollAuthorizationSessionAccounts` and `pollAuthorizationSessionOAuthResults`: their retry and polling internals are not part of this model, so only their outcome is an input.
- `postAuthSessionEvent` is taken not to throw: it is a call whose failure handling is not part of this model.
- `URLUtil.isNetworkUrl` and `UriUtils.compareSchemeAuthorityAndPath` are platform utilities, so their answers are boolean inputs of `OnClickableTextClick`.
- `UUID.randomUUID()` and `SystemClock.elapsedRealtime()`: the event id and the clock reading are parameters.
- The navigation host and its back stack (`navigateToRoute` in `FinancialConnectionsSheetNativeActivity.kt`): the model records the events handed to the navigation manager, not what the host does with them. The host navigates only when the computed route is non-empty and differs from the current one (line 303 of that file), then pops the current screen when `popCurrentFromBackStack` is set; that back-stack behaviour belongs to the navigation library and is not modelled.
- `PartnerAuthState.kt` is not part of this model. The state record and its `ClickableText` values are reconstructed from their uses in the view-model.
- `onAuthCancelled` calls `createAuthSession()` directly, not through `init`. The launch hook is registered only by `init` when it saw no active session, and `Config.launchesBrowserForNonOAuth` records this, so a pane that was restored never auto-launches.
- Dependency-injection factories (`companion object ... create`) are not modelled, since they only wire objects together.
- DurationProvider.DefaultDurationProvider.End: Kotlin's `Long` subtraction could wrap around; the model computes the exact difference and proves it lies within `Long` range for clock readings in range, so wrap-around never arises.
