# Stripe Android SDK: verified model of the launcher and connections flows

This project is a Dafny model of seven Kotlin files from the Stripe Android SDK. Each state-changing unit becomes a Dafny class whose methods are proved against pure transition functions. Those functions carry lemmas for the behaviour the code promises.

- **FinancialConnectionsSheet** (`financial_connections_sheet.dfy`) models the bank-connection sheet's view model.
  - It fetches the session manifest and opens the hosted auth flow.
  - It tracks the auth-flow status (NONE, WEB, APP2APP) across `onResume` and `onActivityResult`.
  - It routes each redirect URL received by `handleOnNewIntent`: native redirect, login return, success URL, cancel URL, or fatal.
  - It finishes with `Completed`, `Canceled` or `Failed`.
- **InstitutionPicker** (`institution_picker.dfy`) models the institution search screen. It holds its state and the one pending search job, which every new query replaces.
- **GooglePayLauncher** (`google_pay_launcher_activity.dfy`) models the activity that resolves the Google Pay task. It routes the activity result to a Google Pay result or to the confirmation of the Stripe intent. Its calls to collaborators are recorded as a sequence.
- **GooglePayPaymentMethodLauncher** (`google_pay_payment_method_launcher_activity.dfy`) models the activity that launches the payment-data task at most once. It turns Google Pay status codes into results with error codes.
- **CustomerAdapter** (`customer_adapter.dfy`) models the persisted payment option, its conversions to and from `SavedSelection`, and the ephemeral-key record.
- **USBankAccountTextBuilder** (`us_bank_account_text_builder.dfy`) models the ACH mandate text. It chooses the template, then rewrites `<terms>`…`</terms>` into an anchor to the terms link.
- **DevToolsNetworkScreen** (`devtools_network_screen.dfy`) models `buildAnnotatedUrl`. It splits an endpoint title on braces and colours its path parameters Gray.
- Two support modules:
  - `Wrappers` holds `Option` and an `Outcome` for the results of network calls.
  - `Strings` holds Kotlin's `indexOf`, `replaceFirst`, `replace` and `Int.toString`, with their properties.

Conventions:

- **Network and SDK calls are inputs.** This covers the manifest, session and token fetches, the institution search, Google Pay tasks, and `createPaymentMethod`. Each outcome is passed in as an `Outcome` parameter or as a separate event method.
- **Platform constants are record parameters.** `RESULT_OK` and the other `CommonStatusCodes` values belong to Android and the Google Pay SDK, so `ResultCodes` and `StatusCodes` carry them. The functions keep the first-match order of Kotlin's `when`; lemmas that need the codes to differ require `Distinct()`.
- **Kotlin null semantics are written out.**
  - `Any?.toString()` of `null` is `"null"`. So a missing redirect URL is compared as the string `"null"`, and a missing fragment is interpolated as `"null"`. The payment-method launcher also interpolates a missing status message as `"null"`; the Google Pay launcher uses `orEmpty()` and shows nothing.
  - `!!` on `null` is an explicit crash outcome, not a precondition.
  - `requireNotNull` fails with `"Required value was null."`.
- **Mavericks framework behaviour is assumed.** `execute` sets `Loading` when its block starts and `Success` or `Fail` when it ends. Reducers queued by `setState` apply in order to the current state.

## Model

| member | source | states |
|---|---|---|
| FinancialConnectionsSheet.OpenAuthFlow | financial-connections/src/main/java/com/stripe/android/financialconnections/FinancialConnectionsSheetViewModel.kt:84-93 | stores the manifest, sets status WEB and emits `OpenAuthFlowWithUrl(hostedAuthUrl)`; keeps the args and recreation flag |
| FinancialConnectionsSheet.OnFatal | financial-connections/src/main/java/com/stripe/android/financialconnections/FinancialConnectionsSheetViewModel.kt:213-217 | emits `FinishWithResult(Failed(error))` and changes nothing else |
| FinancialConnectionsSheet.ManifestFetched | financial-connections/src/main/java/com/stripe/android/financialconnections/FinancialConnectionsSheetViewModel.kt:60-76 | a successful fetch opens the auth flow with that manifest; a failure (argument validation included) is fatal with its message |
| FinancialConnectionsSheet.ActivityRecreated | financial-connections/src/main/java/com/stripe/android/financialconnections/FinancialConnectionsSheetViewModel.kt:113-119 | sets `activityRecreated` and nothing else |
| FinancialConnectionsSheet.BackWithoutRedirect | financial-connections/src/main/java/com/stripe/android/financialconnections/FinancialConnectionsSheetViewModel.kt:131-136 | WEB finishes `Canceled` keeping status WEB; APP2APP falls back to WEB keeping the effect; NONE changes nothing; manifest and recreation flag kept |
| FinancialConnectionsSheet.AfterResume | financial-connections/src/main/java/com/stripe/android/financialconnections/FinancialConnectionsSheetViewModel.kt:126-141 | acts by status only when the activity was not recreated, otherwise is the identity |
| FinancialConnectionsSheet.AfterActivityResult | financial-connections/src/main/java/com/stripe/android/financialconnections/FinancialConnectionsSheetViewModel.kt:148-163 | the mirror image: acts by status only after a recreation |
| FinancialConnectionsSheet.ResumeAndActivityResultAgree | financial-connections/src/main/java/com/stripe/android/financialconnections/FinancialConnectionsSheetViewModel.kt:126-163 | one of the two callbacks always leaves the state unchanged; neither touches manifest or recreation flag; both orders give the same state |
| FinancialConnectionsSheet.StrippedUrl | financial-connections/src/main/java/com/stripe/android/financialconnections/FinancialConnectionsSheetViewModel.kt:254-259 | the query-stripped string form of the URL, or "null" for a missing URL |
| FinancialConnectionsSheet.IsNativeRedirect | financial-connections/src/main/java/com/stripe/android/financialconnections/FinancialConnectionsSheetViewModel.kt:246 | matches only a present URL |
| FinancialConnectionsSheet.IsLoginReturn | financial-connections/src/main/java/com/stripe/android/financialconnections/FinancialConnectionsSheetViewModel.kt:246-251 | matches only a present URL, and never one that is a native redirect |
| FinancialConnectionsSheet.RouteOf | financial-connections/src/main/java/com/stripe/android/financialconnections/FinancialConnectionsSheetViewModel.kt:243-268 | the five routes, each characterised (iff) by its test and the failure of every earlier test, in source priority |
| FinancialConnectionsSheet.SuccessFromLinkFlow | financial-connections/src/main/java/com/stripe/android/financialconnections/FinancialConnectionsSheetViewModel.kt:319-328 | finishes `Completed(linkedAccountId)` exactly when the URL has `linked_account`, with that value; otherwise it is `onFatal` with "Required value was null." |
| FinancialConnectionsSheet.WebFlowSucceed | financial-connections/src/main/java/com/stripe/android/financialconnections/FinancialConnectionsSheetViewModel.kt:292-302 | status NONE; a data launch starts the session fetch, a token launch the session-and-token fetch, neither changing anything else; a link launch finishes by `SuccessFromLinkFlow` with no fetch |
| FinancialConnectionsSheet.AfterNewIntent | financial-connections/src/main/java/com/stripe/android/financialconnections/FinancialConnectionsSheetViewModel.kt:238-313 | crashes exactly on a login return without manifest; APP2APP exactly on the two app-to-app routes, NONE on every other; manifest, launch arguments and recreation flag kept; fetches only on success, and a success redirect gives exactly `WebFlowSucceed`'s step |
| FinancialConnectionsSheet.UnrecognisedFails | financial-connections/src/main/java/com/stripe/android/financialconnections/FinancialConnectionsSheetViewModel.kt:262-267 | an unrecognised URL gives status NONE and `Failed("Error processing FinancialConnectionsSheet intent")`, nothing else |
| FinancialConnectionsSheet.MissingUrlFails | financial-connections/src/main/java/com/stripe/android/financialconnections/FinancialConnectionsSheetViewModel.kt:241-267 | a missing URL is fatal with status NONE unless a manifest URL is literally "null" |
| FinancialConnectionsSheet.CancelUrlCancels | financial-connections/src/main/java/com/stripe/android/financialconnections/FinancialConnectionsSheetViewModel.kt:256-290 | the cancel URL gives status NONE and `FinishWithResult(Canceled)`, nothing else |
| FinancialConnectionsSheet.NativeRedirectOpensTarget | financial-connections/src/main/java/com/stripe/android/financialconnections/FinancialConnectionsSheetViewModel.kt:275-285 | a URL with host `native-redirect` sets APP2APP and opens its text with the first `stripe-auth://native-redirect/` removed: at the front, at any first occurrence, or none at all (text opened unchanged); every other field kept |
| FinancialConnectionsSheet.LoginReturnResumesPolling | financial-connections/src/main/java/com/stripe/android/financialconnections/FinancialConnectionsSheetViewModel.kt:304-313 | with a manifest, the login return sets APP2APP and opens `hostedAuthUrl + "&startPolling=true&" + fragment`; every other field kept |
| FinancialConnectionsSheet.SuccessUrlStartsFetch | financial-connections/src/main/java/com/stripe/android/financialconnections/FinancialConnectionsSheetViewModel.kt:254-256 | a success redirect in a data launch sets NONE and starts the session fetch; in a token launch it sets NONE and starts the session-and-token fetch; nothing else changes |
| FinancialConnectionsSheet.LinkSuccessNeedsLinkedAccount | financial-connections/src/main/java/com/stripe/android/financialconnections/FinancialConnectionsSheetViewModel.kt:292-328 | for a link launch the success URL sets NONE, starts no fetch, and completes iff `linked_account` is present, else fails with "Required value was null." |
| FinancialConnectionsSheet.FetchCompleted | financial-connections/src/main/java/com/stripe/android/financialconnections/FinancialConnectionsSheetViewModel.kt:172-205 | a fetched session finishes `Completed` with that session, a fetched session and token `Completed` with both, and a failed fetch is `onFatal` with its error; nothing else changes |
| FinancialConnectionsSheet.ViewEffectLaunched | financial-connections/src/main/java/com/stripe/android/financialconnections/FinancialConnectionsSheetViewModel.kt:330-332 | clears only `viewEffect` |
| FinancialConnectionsSheet.FinancialConnectionsSheetViewModel.constructor | financial-connections/src/main/java/com/stripe/android/financialconnections/FinancialConnectionsSheetViewModel.kt:45-54 | holds the initial state; a manifest fetch is pending exactly when the state has no manifest (line 48) |
| FinancialConnectionsSheet.FinancialConnectionsSheetViewModel.OnManifestFetched | financial-connections/src/main/java/com/stripe/android/financialconnections/FinancialConnectionsSheetViewModel.kt:60-93 | the new state is `ManifestFetched` of the old one and the fetch is no longer pending |
| FinancialConnectionsSheet.FinancialConnectionsSheetViewModel.OnActivityRecreated | financial-connections/src/main/java/com/stripe/android/financialconnections/FinancialConnectionsSheetViewModel.kt:113-119 | the new state is `ActivityRecreated` of the old one |
| FinancialConnectionsSheet.FinancialConnectionsSheetViewModel.OnResume | financial-connections/src/main/java/com/stripe/android/financialconnections/FinancialConnectionsSheetViewModel.kt:126-141 | the new state is `AfterResume` of the old one |
| FinancialConnectionsSheet.FinancialConnectionsSheetViewModel.OnActivityResult | financial-connections/src/main/java/com/stripe/android/financialconnections/FinancialConnectionsSheetViewModel.kt:148-163 | the new state is `AfterActivityResult` of the old one |
| FinancialConnectionsSheet.FinancialConnectionsSheetViewModel.HandleOnNewIntent | financial-connections/src/main/java/com/stripe/android/financialconnections/FinancialConnectionsSheetViewModel.kt:238-273 | takes the state and fetch of `AfterNewIntent`, or reports the exception and keeps the state |
| FinancialConnectionsSheet.FinancialConnectionsSheetViewModel.OnFetchCompleted | financial-connections/src/main/java/com/stripe/android/financialconnections/FinancialConnectionsSheetViewModel.kt:172-205 | the new state is `FetchCompleted` of the old one |
| FinancialConnectionsSheet.FinancialConnectionsSheetViewModel.OnViewEffectLaunched | financial-connections/src/main/java/com/stripe/android/financialconnections/FinancialConnectionsSheetViewModel.kt:330-332 | the new state is `ViewEffectLaunched` of the old one |
| InstitutionPicker.DefaultState | financial-connections/src/main/java/com/stripe/android/financialconnections/features/institutionpicker/InstitutionPickerViewModel.kt:127-132 | empty query, not searching, no manual entry, both async fields Uninitialized |
| InstitutionPicker.PayloadAllowManualEntry | financial-connections/src/main/java/com/stripe/android/financialconnections/features/institutionpicker/InstitutionPickerViewModel.kt:46-48 | true exactly when the read succeeded with true; a failing read gives false |
| InstitutionPicker.PayloadOutcome | financial-connections/src/main/java/com/stripe/android/financialconnections/features/institutionpicker/InstitutionPickerViewModel.kt:40-50 | `Success` exactly when both calls succeed, with their values; otherwise `Fail` with the first error |
| InstitutionPicker.WithQuery | financial-connections/src/main/java/com/stripe/android/financialconnections/features/institutionpicker/InstitutionPickerViewModel.kt:62-72 | sets the query and a Loading search, nothing else |
| InstitutionPicker.Cleared | financial-connections/src/main/java/com/stripe/android/financialconnections/features/institutionpicker/InstitutionPickerViewModel.kt:88-96 | empty query, empty successful search, search mode off; payload and manual-entry flag kept |
| InstitutionPicker.Focused | financial-connections/src/main/java/com/stripe/android/financialconnections/features/institutionpicker/InstitutionPickerViewModel.kt:98-102 | sets only `searchMode` |
| InstitutionPicker.SearchCompleted | financial-connections/src/main/java/com/stripe/android/financialconnections/features/institutionpicker/InstitutionPickerViewModel.kt:65-71 | sets only `searchInstitutions`, to the search's outcome |
| InstitutionPicker.ClearedIdempotent | financial-connections/src/main/java/com/stripe/android/financialconnections/features/institutionpicker/InstitutionPickerViewModel.kt:88-96 | clearing twice equals clearing once |
| InstitutionPicker.CompletionAfterClearOverwrites | financial-connections/src/main/java/com/stripe/android/financialconnections/features/institutionpicker/InstitutionPickerViewModel.kt:62-96 | a search completing after a clear overwrites the cleared results while the query stays empty |
| InstitutionPicker.InstitutionPickerViewModel.constructor | financial-connections/src/main/java/com/stripe/android/financialconnections/features/institutionpicker/InstitutionPickerViewModel.kt:36-51 | starts the payload fetch (`payload` Loading), no search job, no navigation |
| InstitutionPicker.InstitutionPickerViewModel.OnPayloadLoaded | financial-connections/src/main/java/com/stripe/android/financialconnections/features/institutionpicker/InstitutionPickerViewModel.kt:40-50 | stores `PayloadOutcome` as `payload`, nothing else |
| InstitutionPicker.InstitutionPickerViewModel.OnQueryChanged | financial-connections/src/main/java/com/stripe/android/financialconnections/features/institutionpicker/InstitutionPickerViewModel.kt:62-72 | new state is `WithQuery`; the one pending search is for the latest query |
| InstitutionPicker.InstitutionPickerViewModel.OnSearchCompleted | financial-connections/src/main/java/com/stripe/android/financialconnections/features/institutionpicker/InstitutionPickerViewModel.kt:65-71 | new state is `SearchCompleted`; no search pending |
| InstitutionPicker.InstitutionPickerViewModel.ClearSearch | financial-connections/src/main/java/com/stripe/android/financialconnections/features/institutionpicker/InstitutionPickerViewModel.kt:88-96 | new state is `Cleared`; the search job is left alone |
| InstitutionPicker.InstitutionPickerViewModel.OnCancelSearchClick | financial-connections/src/main/java/com/stripe/android/financialconnections/features/institutionpicker/InstitutionPickerViewModel.kt:84-86 | exactly the effect of `clearSearch` |
| InstitutionPicker.InstitutionPickerViewModel.OnSearchFocused | financial-connections/src/main/java/com/stripe/android/financialconnections/features/institutionpicker/InstitutionPickerViewModel.kt:98-102 | new state is `Focused` |
| InstitutionPicker.InstitutionPickerViewModel.OnInstitutionSelected | financial-connections/src/main/java/com/stripe/android/financialconnections/features/institutionpicker/InstitutionPickerViewModel.kt:74-82 | clears the search, records the active institution, navigates to partner auth |
| InstitutionPicker.InstitutionPickerViewModel.OnManualEntryClick | financial-connections/src/main/java/com/stripe/android/financialconnections/features/institutionpicker/InstitutionPickerViewModel.kt:104-106 | appends one manual-entry navigation |
| InstitutionPicker.CancelDoesNotStopSearch | financial-connections/src/main/java/com/stripe/android/financialconnections/features/institutionpicker/InstitutionPickerViewModel.kt:62-96 | scenario through the view-model methods: query, cancel, then completion: query "" and search mode off, yet the abandoned query's results are shown |
| GooglePayLauncher.OnGooglePayResult | payments-core/src/main/java/com/stripe/android/googlepaylauncher/GooglePayLauncherActivity.kt:139-156 | with payment data only `confirmStripeIntent`; without, a report then `Failed(IllegalArgumentException)` |
| GooglePayLauncher.ErrorMessage | payments-core/src/main/java/com/stripe/android/googlepaylauncher/GooglePayLauncherActivity.kt:111-116 | the prefix "Google Pay failed with error: " followed by the status message, or the prefix alone when there is no status or message |
| GooglePayLauncher.DispatchActivityResult | payments-core/src/main/java/com/stripe/android/googlepaylauncher/GooglePayLauncherActivity.kt:94-137 | other request codes are forwarded intact (empty intent for null data); request 4444 sets a result or starts confirmation, never both; never relaunches |
| GooglePayLauncher.GooglePayRequestOutcomes | payments-core/src/main/java/com/stripe/android/googlepaylauncher/GooglePayLauncherActivity.kt:100-130 | with request 4444: OK defers to the payment data, CANCELED gives `Canceled`, ERROR and every other code give their `Failed` |
| GooglePayLauncher.ResultSetIff | payments-core/src/main/java/com/stripe/android/googlepaylauncher/GooglePayLauncherActivity.kt:94-156 | a result is set iff the request is 4444 and it did not deliver OK with payment data |
| GooglePayLauncher.GooglePayLauncherActivity.constructor | payments-core/src/main/java/com/stripe/android/googlepaylauncher/GooglePayLauncherActivity.kt:46 | no args, nothing collected, no calls, not finished |
| GooglePayLauncher.GooglePayLauncherActivity.OnCreate | payments-core/src/main/java/com/stripe/android/googlepaylauncher/GooglePayLauncherActivity.kt:48-78 | missing args finish `Failed(IllegalArgumentException)` and start nothing; otherwise args kept and collectors started |
| GooglePayLauncher.GooglePayLauncherActivity.OnLaunchTaskEmitted | payments-core/src/main/java/com/stripe/android/googlepaylauncher/GooglePayLauncherActivity.kt:68-91 | a non-null task is resolved with 4444 and then marked launched; every mark follows a launch |
| GooglePayLauncher.GooglePayLauncherActivity.OnGooglePayResultEmitted | payments-core/src/main/java/com/stripe/android/googlepaylauncher/GooglePayLauncherActivity.kt:62-66 | a non-null result finishes the activity with it |
| GooglePayLauncher.GooglePayLauncherActivity.OnActivityResult | payments-core/src/main/java/com/stripe/android/googlepaylauncher/GooglePayLauncherActivity.kt:94-137 | appends exactly the calls of `DispatchActivityResult` |
| GooglePayPaymentMethodLauncher.StatusCodeToErrorCode | payments-core/src/main/java/com/stripe/android/googlepaylauncher/GooglePayPaymentMethodLauncherActivity.kt:154-161 | NETWORK_ERROR iff network, DEVELOPER_ERROR iff developer, INTERNAL_ERROR for every other code |
| GooglePayPaymentMethodLauncher.FailedWithErrorMessage | payments-core/src/main/java/com/stripe/android/googlepaylauncher/GooglePayPaymentMethodLauncherActivity.kt:110 | the prefix, then the status code in canonical decimal (a minus sign for negative codes, no leading zero), then `": "` and the status message or "null" |
| GooglePayPaymentMethodLauncher.TaskResultHandling | payments-core/src/main/java/com/stripe/android/googlepaylauncher/GooglePayPaymentMethodLauncherActivity.kt:95-125 | SUCCESS with data creates the payment method from it, SUCCESS without data throws; any result set directly is not `Completed` |
| GooglePayPaymentMethodLauncher.StatusOutcomes | payments-core/src/main/java/com/stripe/android/googlepaylauncher/GooglePayPaymentMethodLauncherActivity.kt:100-123 | CANCELED gives `Canceled`, RESULT_ERROR `Failed` with the mapped code, any other code `Failed` with INTERNAL_ERROR |
| GooglePayPaymentMethodLauncher.ResultErrorIsAlwaysInternal | payments-core/src/main/java/com/stripe/android/googlepaylauncher/GooglePayPaymentMethodLauncherActivity.kt:105-161 | with distinct codes the RESULT_ERROR branch always carries INTERNAL_ERROR |
| GooglePayPaymentMethodLauncher.GooglePayPaymentMethodLauncherActivity.constructor | payments-core/src/main/java/com/stripe/android/googlepaylauncher/GooglePayPaymentMethodLauncherActivity.kt:39-56 | nothing launched, `hasLaunched` false, no result |
| GooglePayPaymentMethodLauncher.GooglePayPaymentMethodLauncherActivity.OnCreate | payments-core/src/main/java/com/stripe/android/googlepaylauncher/GooglePayPaymentMethodLauncherActivity.kt:40-87 | missing args finish with DEVELOPER_ERROR; the task is launched only when not launched before, `hasLaunched` set only after a launch; creation failure gives INTERNAL_ERROR |
| GooglePayPaymentMethodLauncher.GooglePayPaymentMethodLauncherActivity.OnGooglePayResult | payments-core/src/main/java/com/stripe/android/googlepaylauncher/GooglePayPaymentMethodLauncherActivity.kt:95-137 | SUCCESS finishes with the created payment method, other results wait for the collector, SUCCESS without data throws |
| GooglePayPaymentMethodLauncher.GooglePayPaymentMethodLauncherActivity.OnResultCollected | payments-core/src/main/java/com/stripe/android/googlepaylauncher/GooglePayPaymentMethodLauncherActivity.kt:58-62 | a waiting result finishes the activity |
| CustomerAdapter.PersistablePaymentMethodOption.Id | paymentsheet/src/main/java/com/stripe/android/paymentsheet/repositories/CustomerAdapter.kt:102-110 | "google_pay", "link", or the Stripe id |
| CustomerAdapter.FromId | paymentsheet/src/main/java/com/stripe/android/paymentsheet/repositories/CustomerAdapter.kt:115-121 | `FromId(s).Id() == s`; GooglePay iff "google_pay", Link iff "link", StripeId otherwise |
| CustomerAdapter.ToSavedSelection | paymentsheet/src/main/java/com/stripe/android/paymentsheet/repositories/CustomerAdapter.kt:123-129 | never `None`; GooglePay iff `SavedSelection.GooglePay`, Link iff `SavedSelection.Link`, StripeId iff PaymentMethod with the id preserved |
| CustomerAdapter.ToPersistablePaymentMethodOption | paymentsheet/src/main/java/com/stripe/android/paymentsheet/repositories/CustomerAdapter.kt:131-139 | null iff `None`; `SavedSelection.GooglePay` iff GooglePay, `SavedSelection.Link` iff Link, PaymentMethod iff StripeId with the id preserved |
| CustomerAdapter.FromIdOfId | paymentsheet/src/main/java/com/stripe/android/paymentsheet/repositories/CustomerAdapter.kt:106-121 | `FromId(o.Id()) == o` iff o is not a StripeId with a reserved id |
| CustomerAdapter.ReservedStripeIdIsNotRestored | paymentsheet/src/main/java/com/stripe/android/paymentsheet/repositories/CustomerAdapter.kt:110-121 | `StripeId("google_pay")` comes back as GooglePay |
| CustomerAdapter.OptionRoundTrip | paymentsheet/src/main/java/com/stripe/android/paymentsheet/repositories/CustomerAdapter.kt:123-139 | option to selection and back is the identity |
| CustomerAdapter.SelectionRoundTrip | paymentsheet/src/main/java/com/stripe/android/paymentsheet/repositories/CustomerAdapter.kt:123-139 | selection to option and back is the identity wherever the option exists |
| CustomerAdapter.CreateCustomerEphemeralKey | paymentsheet/src/main/java/com/stripe/android/paymentsheet/repositories/CustomerAdapter.kt:172-180 | stores the customer id and the ephemeral key unchanged |
| USBankAccountTextBuilder.TermsLink | paymentsheet/src/main/java/com/stripe/android/paymentsheet/paymentdatacollection/ach/USBankAccountTextBuilder.kt:33-36 | Link's URL iff instant debits, Stripe's URL otherwise |
| USBankAccountTextBuilder.TermsLinkIsPlain | paymentsheet/src/main/java/com/stripe/android/paymentsheet/paymentdatacollection/ach/USBankAccountTextBuilder.kt:33-36 | neither terms link contains `<`, so the inserted anchor cannot form a marker |
| USBankAccountTextBuilder.OpenAnchor | paymentsheet/src/main/java/com/stripe/android/paymentsheet/paymentdatacollection/ach/USBankAccountTextBuilder.kt:26 | `<a href="` + link + `">`; for a link without `<` the anchor has no `<` after its first character |
| USBankAccountTextBuilder.MandateTemplate | paymentsheet/src/main/java/com/stripe/android/paymentsheet/paymentdatacollection/ach/USBankAccountTextBuilder.kt:18-22 | the save mandate with the merchant name iff saving or setting up, else the continue mandate |
| USBankAccountTextBuilder.ContinueMandateText | paymentsheet/src/main/java/com/stripe/android/paymentsheet/paymentdatacollection/ach/USBankAccountTextBuilder.kt:11-31 | a template without either marker is returned unchanged |
| USBankAccountTextBuilder.MarkerFreeUnchanged | paymentsheet/src/main/java/com/stripe/android/paymentsheet/paymentdatacollection/ach/USBankAccountTextBuilder.kt:24-30 | both replacements leave a marker-free text as it is |
| USBankAccountTextBuilder.ReplaceOpenMarkers | paymentsheet/src/main/java/com/stripe/android/paymentsheet/paymentdatacollection/ach/USBankAccountTextBuilder.kt:24-26 | the first replace turns every `<terms>` into the anchor and leaves the rest |
| USBankAccountTextBuilder.ReplaceCloseMarkers | paymentsheet/src/main/java/com/stripe/android/paymentsheet/paymentdatacollection/ach/USBankAccountTextBuilder.kt:27-30 | the second replace turns every `</terms>` into `</a>` and leaves the anchors |
| USBankAccountTextBuilder.MarkersBecomeAnchors | paymentsheet/src/main/java/com/stripe/android/paymentsheet/paymentdatacollection/ach/USBankAccountTextBuilder.kt:11-36 | the text is the template with every `<terms>` as `<a href="LINK">` and every `</terms>` as `</a>`, LINK the flow's terms link |
| USBankAccountTextBuilder.MerchantNameOnlyInSaveBranch | paymentsheet/src/main/java/com/stripe/android/paymentsheet/paymentdatacollection/ach/USBankAccountTextBuilder.kt:18-22 | outside the save branch the merchant name does not affect the text |
| DevToolsNetworkScreen.SplitOnBraces | paymentsheet-example/src/main/java/com/stripe/android/paymentsheet/example/devtools/DevToolsNetworkScreen.kt:145 | one part more than there are braces (empty parts kept), every part brace-free |
| DevToolsNetworkScreen.SplitConcat | paymentsheet-example/src/main/java/com/stripe/android/paymentsheet/example/devtools/DevToolsNetworkScreen.kt:145 | the parts concatenated are the input without braces |
| DevToolsNetworkScreen.SplitWeave | paymentsheet-example/src/main/java/com/stripe/android/paymentsheet/example/devtools/DevToolsNetworkScreen.kt:145 | the parts rejoined with the input's braces give the input back |
| DevToolsNetworkScreen.SplitIsUnique | paymentsheet-example/src/main/java/com/stripe/android/paymentsheet/example/devtools/DevToolsNetworkScreen.kt:145 | any brace-free parts that rejoin to the input are its split |
| DevToolsNetworkScreen.ParamParts | paymentsheet-example/src/main/java/com/stripe/android/paymentsheet/example/devtools/DevToolsNetworkScreen.kt:146 | exactly the parts at odd indices, in order |
| DevToolsNetworkScreen.InParamParts | paymentsheet-example/src/main/java/com/stripe/android/paymentsheet/example/devtools/DevToolsNetworkScreen.kt:146 | a text is a parameter part iff it is the text of some odd-index part |
| DevToolsNetworkScreen.PartColor | paymentsheet-example/src/main/java/com/stripe/android/paymentsheet/example/devtools/DevToolsNetworkScreen.kt:150 | Gray iff the part is among the parameter parts, Unspecified otherwise |
| DevToolsNetworkScreen.AnnotatedUrl | paymentsheet-example/src/main/java/com/stripe/android/paymentsheet/example/devtools/DevToolsNetworkScreen.kt:146-154 | one span per split part, in order, with the part's text, Gray iff that text is a parameter part |
| DevToolsNetworkScreen.BuildAnnotatedUrl | paymentsheet-example/src/main/java/com/stripe/android/paymentsheet/example/devtools/DevToolsNetworkScreen.kt:144-156 | the loop emits one styled span per part, in order, coloured by membership in the parameter parts |
| DevToolsNetworkScreen.AnnotatedUrlText | paymentsheet-example/src/main/java/com/stripe/android/paymentsheet/example/devtools/DevToolsNetworkScreen.kt:144-156 | one span per brace plus one; their texts concatenate to the input without braces and rejoin with the braces to the input |
| DevToolsNetworkScreen.OddPartsAreGray | paymentsheet-example/src/main/java/com/stripe/android/paymentsheet/example/devtools/DevToolsNetworkScreen.kt:146-150 | every odd-index span is Gray |
| DevToolsNetworkScreen.GrayIffTextOfOddPart | paymentsheet-example/src/main/java/com/stripe/android/paymentsheet/example/devtools/DevToolsNetworkScreen.kt:150 | a span is Gray iff its text equals that of some odd-index span, else Unspecified |
| Strings.IndexOf | financial-connections/src/main/java/com/stripe/android/financialconnections/FinancialConnectionsSheetViewModel.kt:279-281 | the least index at which the pattern occurs, or none when it is absent |
| Strings.ReplaceFirst | financial-connections/src/main/java/com/stripe/android/financialconnections/FinancialConnectionsSheetViewModel.kt:279-281 | Kotlin's `replaceFirst`: unchanged when the pattern is absent, otherwise its first occurrence is replaced |
| Strings.ReplaceFirstOfPrefix | financial-connections/src/main/java/com/stripe/android/financialconnections/FinancialConnectionsSheetViewModel.kt:279-281 | a pattern that starts the string is what gets replaced |
| Strings.ReplaceAll | paymentsheet/src/main/java/com/stripe/android/paymentsheet/paymentdatacollection/ach/USBankAccountTextBuilder.kt:24-30 | Kotlin's `replace`: with an empty pattern the result has length `|s| + (|s|+1)·|n|`; replacing the pattern by itself changes nothing |
| Strings.ReplaceAllAbsent | paymentsheet/src/main/java/com/stripe/android/paymentsheet/paymentdatacollection/ach/USBankAccountTextBuilder.kt:24-30 | Kotlin's `replace` leaves a string without the pattern unchanged |
| Strings.ReplaceAllKeepsPrefix | paymentsheet/src/main/java/com/stripe/android/paymentsheet/paymentdatacollection/ach/USBankAccountTextBuilder.kt:24-30 | a prefix in which no occurrence starts is kept and the replacement continues after it |
| Strings.ReplaceAllAtFront | paymentsheet/src/main/java/com/stripe/android/paymentsheet/paymentdatacollection/ach/USBankAccountTextBuilder.kt:24-30 | an occurrence at the front is replaced and the scan resumes after it |
| Strings.IntToDecimal | payments-core/src/main/java/com/stripe/android/googlepaylauncher/GooglePayPaymentMethodLauncherActivity.kt:110 | the decimal form of the status code: a minus sign exactly for negative codes, then digits without leading zeros whose value is the magnitude |

## Left out

- Analytics and logging are not modelled: `eventReporter.onPresented`/`onResult`, `logger` calls, the state-logging collector, and `errorReporter.report`. `errorReporter.report` is kept only as a recorded call in the Google Pay launcher.
- FinancialConnectionsSheet.FinancialConnectionsSheetViewModel.OnFetchCompleted does not require a session fetch to be pending, and does not tie the kind of outcome (session, or session and token) to the kind of fetch that was started.
- Coroutines, the sheet's `mutex` and the Android lifecycle are not modelled. Each callback is one atomic event. A backend result reaches the model as a separate event. `OnManifestFetched`, `OnPayloadLoaded` and `OnSearchCompleted` require their call to be pending.
- The 300 ms debounce of the institution search is not timed. The pending search stands for it.
- Android's `Uri` parsing is not modelled. A redirect is a record of host, path, string form, query-stripped string form, fragment and query parameters. `None` stands for a missing intent, missing data or a failed parse.
- FinancialConnectionsSheet.AfterNewIntent: the `manifest!!` of a login return without a manifest is a crash outcome that leaves the state as it was. What the app does after the exception is not modelled.
- The sheet keeps a failure's message, not the exception object. Session, token and manifest contents are reduced to the fields the flow reads.
- The launch arguments' `validate()` is not modelled on its own. Its failure is part of the manifest fetch's `Err` outcome.
- JSON conversion of Google Pay payment data, `PaymentMethodCreateParams`, `AuthActivityStarterHost` are not modelled, and neither is the work behind the view models' `confirmStripeIntent`, `onConfirmResult` and `createPaymentMethod`. These calls are recorded, or their results are given.
- GooglePayLauncher.GooglePayLauncherActivity.OnActivityResult requires that the activity has its arguments. Without them the view model that the callback uses cannot be built.
- `repeatOnLifecycle(RESUMED)` is simplified. The launch-task collector runs whenever `onCreate` has started it, whatever the lifecycle state.
- `finish`, fade animations, `setResult` extras and bundles are not modelled. Only the result passed to `finishWithResult` is kept.
- The numeric values of `RESULT_OK`, `CommonStatusCodes` and `AutoResolveHelper.RESULT_ERROR` are parameters, because they come from Android and the Google Pay SDK. The error codes are an enumeration, not their integer values.
- The mandate string resources and `getString` formatting are not modelled. They are inputs: the formatted save mandate is a function of the merchant name.
- USBankAccountTextBuilder.MarkersBecomeAnchors is stated only for templates whose plain text contains no `<`. `<` could form part of a marker. The save template embeds the merchant name, which is arbitrary text, so a merchant name containing `<` (even `<terms>`) is outside this lemma. ContinueMandateText's own contract covers every marker-free template.
- Compose's `AnnotatedString` builder is not modelled. The annotated title is the sequence of its styled parts.
- The institution picker's `updateLocalManifest` and `navigate` run inside `execute` after `clearSearch`. Here they take effect at once, with the local manifest reduced to its active institution.
