# Designer News login screen — a Dafny model

This project models the login dialog of the Plaid client for Designer News (`DesignerNewsLogin`, an Android activity). The user types a username and password. The dialog exchanges them for an access token with a password-grant request, saves the token, fetches the user's profile and reports the outcome to the screen that opened it. Beside the form, the dialog suggests usernames taken from the device's email-shaped accounts. Those suggestions sit behind the GET_ACCOUNTS runtime permission, with a "primer" checkbox that asks again after a refusal.

The dialog is modelled as a class, `LoginActivity.DesignerNewsLogin`. Its fields are the flags the activity sets on its widgets, plus the dismissing and deferred-prompt flags, the suggestion adapter, the saved token and user, and two result fields. `result` is the code last passed to `setResult`. `delivered` is what the invoking screen receives: the code current at the first `finish()` call, fixed from then on. Each widget action and each asynchronous completion is an event method: a login click, the password field's "done" key, a primer tap, a token response, a token transport failure, a profile response or failure, a permission result, a focus change, a text change, the end of the enter or exit transition, and back. Every method states the new value of each field it changes, the ghost record of the accounts behind the adapter included, apart from the form flags that `Valid()` fixes once `loadingVisible` is known. Field-granular `modifies` clauses (`this`field`) make every other field provably unchanged. `Valid()` is the invariant every method keeps:

- the form and the progress indicator are never shown together;
- no field has focus while the form is hidden, since the hidden labels take the focus from the fields inside them;
- the primer is shown only once its listener is installed;
- the suggestion adapter, once set, offers exactly the email-shaped names of the accounts it was built from;
- a dismissing dialog has a result set, and has either finished or is waiting for its exit transition;
- success is set or delivered only once a token is saved.

`LoginButtonInStep()` says the login button is enabled exactly when the credentials may be submitted. Both text-change methods establish it. No other method touches the fields it reads.

The pure parts are functions:

- `LoginForm.IsLoginValid` decides when the credentials may be submitted.
- `LoginForm.BuildLoginParams` builds the five-field token request. It is checked against `IsPasswordGrantRequest`, which restates the request of section 4.3.2 of RFC 6749, with client authentication in the body as section 2.3.1 allows.
- `AccountSuggestions` holds the filter / map / to-set pipeline that builds the suggestion set.

`LoginScenarios` drives event sequences through the class and proves their outcomes from the method contracts alone. Every submit in a scenario except those of `RepeatedSubmitEnqueuesTwice` goes through the login button, which must be shown and enabled, or the password field's keyboard action, which needs a shown field and valid credentials. `RepeatedSubmitEnqueuesTwice` calls `doLogin` directly, to show that it has no guard of its own.

Platform answers are parameters of the events that consult them:

- whether GET_ACCOUNTS is held;
- whether a rationale should be shown;
- the device accounts;
- the email pattern, as an uninterpreted `isEmail: string -> bool` fixed when the screen is created;
- whether the username field is attached to its window;
- whether the dialog has an exit transition when it is dismissed.

The client id and secret are constants whose values are configuration. The initial login-button state and the preference store's earlier contents are constructor parameters.

Three behaviours of the code a reader may not expect:

- The code has no guard against a second submit while one is in flight. Only the hidden actions row prevents it. See `RepeatedSubmitEnqueuesTwice`.
- `isDismissing` is written but never read, so no late callback is suppressed. A profile that arrives after dismissal is still saved. A token that arrives during the exit transition is saved, and the invoking screen then receives OK even though the user dismissed the dialog. See `DismissAfterSuccess` and `LateSuccessAfterDismiss`.
- There is no four-valued permission state. The code reads two booleans: whether the permission is held and whether the platform suggests a rationale. "Not yet asked" and "denied permanently" give the same answer (no rationale), so both defer a request to the end of the enter animation.

## Model

| member | source | states |
|---|---|---|
| `AccountSuggestions.FilterEmail` | app/src/main/java/io/plaidapp/ui/DesignerNewsLogin.kt:290-291 | keeps exactly the accounts whose name matches the email pattern, and never more accounts than given |
| `AccountSuggestions.Names` | app/src/main/java/io/plaidapp/ui/DesignerNewsLogin.kt:292 | one name per account; a string occurs exactly when some account has that name |
| `AccountSuggestions.ToSet` | app/src/main/java/io/plaidapp/ui/DesignerNewsLogin.kt:293 | the same members as the sequence, without duplicates, so never larger |
| `AccountSuggestions.EmailSet` | app/src/main/java/io/plaidapp/ui/DesignerNewsLogin.kt:289-293 | a name is suggested iff it is email-shaped and the name of some device account; no more suggestions than accounts |
| `AccountSuggestions.EmailSetOfMixedAccounts` | app/src/main/java/io/plaidapp/ui/DesignerNewsLogin.kt:290-293 | accounts a@x.com, not-an-email, b@x.com give exactly {a@x.com, b@x.com} |
| `AccountSuggestions.EmailSetIgnoresOrderAndRepeats` | app/src/main/java/io/plaidapp/ui/DesignerNewsLogin.kt:290-293 | account lists with the same members give the same suggestions, whatever the order or repetition |
| `LoginForm.IsLoginValid` | app/src/main/java/io/plaidapp/ui/DesignerNewsLogin.kt:181-182 | the credentials may be submitted iff both the username and the password are non-empty |
| `LoginForm.BuildLoginParams` | app/src/main/java/io/plaidapp/ui/DesignerNewsLogin.kt:275-283 | exactly the keys client_id, client_secret, grant_type, username, password; grant_type is "password"; username and password are the arguments unchanged; the client credentials are the configured ones |
| `Permissions.GrantedAsWritten` | app/src/main/java/io/plaidapp/ui/DesignerNewsLogin.kt:139 | the handler as written throws exactly on an empty result array; otherwise it takes the granted branch iff the first code is PERMISSION_GRANTED |
| `Permissions.InterruptedRequestThrows` | app/src/main/java/io/plaidapp/ui/DesignerNewsLogin.kt:139 | the empty result array of an interrupted request makes the handler as written throw |
| `Permissions.Granted` | app/src/main/java/io/plaidapp/ui/DesignerNewsLogin.kt:139 | an empty result array reads as a refusal; a grant needs a first code equal to PERMISSION_GRANTED |
| `Permissions.GrantedAgreesWhereDefined` | app/src/main/java/io/plaidapp/ui/DesignerNewsLogin.kt:139 | the corrected reading takes the branch of the code as written wherever that does not throw, and refuses where it throws |
| `LoginActivity.DesignerNewsLogin.constructor` | app/src/main/java/io/plaidapp/ui/DesignerNewsLogin.kt:85-113 | the form is shown with empty fields, no field focused yet and the login button as the layout declares it; the progress indicator is hidden; the suggestion gate has run once, leaving the primer unchecked and its listener installed iff the permission is missing and a rationale is advised; nothing is pending and no result is set or delivered |
| `LoginActivity.DesignerNewsLogin.SetupAccountAutocomplete` | app/src/main/java/io/plaidapp/ui/DesignerNewsLogin.kt:286-304 | permission held: primer hidden, adapter is the email set. Otherwise, with a rationale: primer shown unchecked, deferred flag untouched. Without one: primer hidden, deferred flag set. No suggestions are built unless the permission is held |
| `LoginActivity.DesignerNewsLogin.SetEmailAdapter` | app/src/main/java/io/plaidapp/ui/DesignerNewsLogin.kt:289-295 | the adapter is set to the email set of the given accounts |
| `LoginActivity.DesignerNewsLogin.SetupPermissionPrimer` | app/src/main/java/io/plaidapp/ui/DesignerNewsLogin.kt:307-316 | the primer is visible, unchecked, with its listener installed |
| `LoginActivity.DesignerNewsLogin.OnPrimerTapped` | app/src/main/java/io/plaidapp/ui/DesignerNewsLogin.kt:310-314 | a tap on the shown primer flips its checked state; a permission request is issued iff it becomes checked; unchecking issues none |
| `LoginActivity.DesignerNewsLogin.OnEnterAnimationComplete` | app/src/main/java/io/plaidapp/ui/DesignerNewsLogin.kt:116-127 | a request is issued iff one was deferred, and the deferred flag is then false (at most once); the focus listener is installed; the dropdown shows iff the username is focused, attached and its adapter is non-empty |
| `LoginActivity.DesignerNewsLogin.MaybeShowAccounts` | app/src/main/java/io/plaidapp/ui/DesignerNewsLogin.kt:172-179 | the dropdown shows iff the username field has focus, is attached, and has an adapter with at least one entry; a dropdown offers only email-shaped names of device accounts |
| `LoginActivity.DesignerNewsLogin.OnFocusChange` | app/src/main/java/io/plaidapp/ui/DesignerNewsLogin.kt:125 | the focus moves to the target unless the form is hidden, where no field can take it; the dropdown shows only once the listener is installed, on the username gaining focus, under the conditions above |
| `LoginActivity.DesignerNewsLogin.OnRequestPermissionsResult` | app/src/main/java/io/plaidapp/ui/DesignerNewsLogin.kt:134-155 | another request code changes nothing. Granted: suggestions rebuilt, primer hidden, username focused unless the form is hidden, dropdown shown, since line 142 requests it unconditionally. Refused with a rationale: primer shown unchecked. Refused without one: primer hidden. A refusal builds no suggestions |
| `LoginActivity.DesignerNewsLogin.OnUsernameChanged` | app/src/main/java/io/plaidapp/ui/DesignerNewsLogin.kt:224-232 | the login button is enabled iff both fields are non-empty after the change |
| `LoginActivity.DesignerNewsLogin.OnPasswordChanged` | app/src/main/java/io/plaidapp/ui/DesignerNewsLogin.kt:229-231 | the login button is enabled iff both fields are non-empty after the change |
| `LoginActivity.DesignerNewsLogin.ShowLoading` | app/src/main/java/io/plaidapp/ui/DesignerNewsLogin.kt:234-242 | title, both labels, primer and actions hidden; progress shown; the focus leaves the hidden fields |
| `LoginActivity.DesignerNewsLogin.ShowLogin` | app/src/main/java/io/plaidapp/ui/DesignerNewsLogin.kt:244-251 | title, both labels and actions shown, progress hidden; the primer is left as it was |
| `LoginActivity.DesignerNewsLogin.DoLogin` | app/src/main/java/io/plaidapp/ui/DesignerNewsLogin.kt:157-160 | the loading layout replaces the form, no field keeps focus, and one more token request is in flight, carrying the current fields as a password-grant request |
| `LoginActivity.DesignerNewsLogin.OnLoginClicked` | app/src/main/java/io/plaidapp/ui/DesignerNewsLogin.kt:157-160 | a click, possible only on a shown and enabled button, replaces the form and the primer by the loading layout, clears the focus, and puts one more password-grant request, with exactly the five keys, for the current fields in flight |
| `LoginActivity.DesignerNewsLogin.OnPasswordEditorDone` | app/src/main/java/io/plaidapp/ui/DesignerNewsLogin.kt:106-111 | the "done" key in the shown password field submits iff both fields are non-empty, hiding the form and the primer, clearing the focus and putting one request in flight as a click would; otherwise nothing changes |
| `LoginActivity.DesignerNewsLogin.GetAccessToken` | app/src/main/java/io/plaidapp/ui/DesignerNewsLogin.kt:253-256 | enqueues one request built from the fields' text |
| `LoginActivity.DesignerNewsLogin.OnTokenResponse` | app/src/main/java/io/plaidapp/ui/DesignerNewsLogin.kt:257-266 | Success: exactly the response's access_token is saved, a profile fetch is enqueued, the result is OK and the invoking screen receives OK unless an earlier finish already delivered a result. Failure: the token, result and delivered result are unchanged, the form is restored and the password field is focused |
| `LoginActivity.DesignerNewsLogin.SaveTokenAndFinish` | app/src/main/java/io/plaidapp/ui/DesignerNewsLogin.kt:258-262 | the token is saved, one profile fetch is enqueued, the result is OK, and a first finish delivers OK |
| `LoginActivity.DesignerNewsLogin.OnTokenFailure` | app/src/main/java/io/plaidapp/ui/DesignerNewsLogin.kt:268-271 | no token is saved; the form is restored without the primer, progress is hidden, and the password field is focused |
| `LoginActivity.DesignerNewsLogin.ShowLoginFailed` | app/src/main/java/io/plaidapp/ui/DesignerNewsLogin.kt:218-222 | the form is restored and the focus moves to the password field |
| `LoginActivity.DesignerNewsLogin.ShowLoggedInUser` | app/src/main/java/io/plaidapp/ui/DesignerNewsLogin.kt:185-187 | enqueues one profile fetch |
| `LoginActivity.DesignerNewsLogin.OnProfileResponse` | app/src/main/java/io/plaidapp/ui/DesignerNewsLogin.kt:188-191 | the user is saved only when the response is successful; otherwise nothing changes |
| `LoginActivity.DesignerNewsLogin.OnProfileFailure` | app/src/main/java/io/plaidapp/ui/DesignerNewsLogin.kt:212-214 | nothing but the in-flight count changes |
| `LoginActivity.DesignerNewsLogin.Finish` | app/src/main/java/io/plaidapp/ui/DesignerNewsLogin.kt:262 | the first finish delivers the result set at that moment; later calls change nothing |
| `LoginActivity.DesignerNewsLogin.Dismiss` | app/src/main/java/io/plaidapp/ui/DesignerNewsLogin.kt:166-170 | the dialog is dismissing with result CANCELED; without an exit transition it finishes at once, delivering CANCELED unless a result was delivered before; with one, delivery waits for the transition's end |
| `LoginActivity.DesignerNewsLogin.OnExitTransitionEnd` | app/src/main/java/io/plaidapp/ui/DesignerNewsLogin.kt:169 | the end of the exit transition finishes the dialog with the result set by then, unless a result was delivered before |
| `LoginActivity.DesignerNewsLogin.OnBackPressed` | app/src/main/java/io/plaidapp/ui/DesignerNewsLogin.kt:129-131 | back behaves as dismiss, with or without an exit transition |
| `LoginScenarios.ScreenWithCredentials` | app/src/main/java/io/plaidapp/ui/DesignerNewsLogin.kt:224-232 | typing non-empty credentials into a fresh screen enables the shown login button; nothing is saved, set, delivered or in flight |
| `LoginScenarios.TwoFailuresThenSuccess` | app/src/main/java/io/plaidapp/ui/DesignerNewsLogin.kt:253-271 | after a rejected and a transport-failed attempt no token is saved; a third, successful attempt saves exactly its token and the invoking screen receives OK |
| `LoginScenarios.FailedAttempt` | app/src/main/java/io/plaidapp/ui/DesignerNewsLogin.kt:263-271 | a click answered by either failure leaves the token, the result and the delivered result unchanged, restores the form with the button enabled but without the primer, and focuses the password field |
| `LoginScenarios.RefusedWithoutRationaleNeverSuggests` | app/src/main/java/io/plaidapp/ui/DesignerNewsLogin.kt:296-303 | with no rationale advised: one deferred request fires, a second animation end fires none, the refusal shows no primer, and focus events show no suggestions or dropdown |
| `LoginScenarios.PrimerLeadsToSuggestions` | app/src/main/java/io/plaidapp/ui/DesignerNewsLogin.kt:307-314 | the primer is offered unchecked; checking it requests the permission, unchecking requests nothing, checking again requests again; granting builds the email set, hides the primer and shows the dropdown |
| `LoginScenarios.ProfileFailureKeepsLogin` | app/src/main/java/io/plaidapp/ui/DesignerNewsLogin.kt:212-214 | a failed profile fetch after a successful exchange keeps the token, the invoking screen receives OK, and no user is saved |
| `LoginScenarios.DismissAfterSuccess` | app/src/main/java/io/plaidapp/ui/DesignerNewsLogin.kt:166-170 | dismissal after success sets CANCELED, but the invoking screen still receives OK and the token stays saved; a later profile is still saved |
| `LoginScenarios.LateSuccessAfterDismiss` | app/src/main/java/io/plaidapp/ui/DesignerNewsLogin.kt:166-170 | a token arriving after back is pressed is saved; the invoking screen receives CANCELED without an exit transition and OK when the token arrived during it |
| `LoginScenarios.FailureDoesNotRestorePrimer` | app/src/main/java/io/plaidapp/ui/DesignerNewsLogin.kt:236-251 | a primer shown before a submit is hidden by the loading layout and stays hidden once the attempt fails, while the form comes back |
| `LoginScenarios.NoDropDownWhileLoading` | app/src/main/java/io/plaidapp/ui/DesignerNewsLogin.kt:172-179 | after a click on a screen whose username field had focus, no field has focus, and neither the end of the enter animation nor a focus request shows the dropdown, whatever the adapter holds |
| `LoginScenarios.SubmitHidesBothSubmitPaths` | app/src/main/java/io/plaidapp/ui/DesignerNewsLogin.kt:236-241 | after the keyboard submit, neither the login button nor the password field is shown, so no second submit is possible while one request is in flight |
| `LoginScenarios.RepeatedSubmitEnqueuesTwice` | app/src/main/java/io/plaidapp/ui/DesignerNewsLogin.kt:157-160 | `doLogin` has no guard of its own: two calls put two token requests in flight |

## Left out

- The visual side is left out: transitions (`TransitionManager`, `FabTransform`, `MorphTransform`), the Snackbar, the confirmation Toast, Glide image loading, scrim drawables and layout inflation. Only visibility, checked, enabled and focus flags remain.
- The Retrofit calls `api.login` and `api.authedUser` become counters of requests in flight. Each completion is an event method that needs a request in flight. Concurrency and callback threads are not modelled.
- The device platform is not modelled. The email pattern (`Patterns.EMAIL_ADDRESS`) is an uninterpreted predicate. The account registry is an input sequence. The permission check, the rationale answer and the window attachment are inputs.
- The suggestion adapter is a set. The order that `ArrayList(emailSet)` gives it and the dropdown's own dismissal are not modelled.
- In the granted branch of `OnRequestPermissionsResult`, the model rebuilds the suggestions as if the platform's permission check reports the grant just received. The source asks the platform again at that point.
- `signup` only launches a browser, and the username field's "next" key only moves focus to the password field. Neither changes state of interest, so both are left out. The listeners' boolean return values are left out too.
- OnTokenResponse: the model always receives a body. In the source, a successful response whose `body()` is null throws a NullPointerException at line 259; that crash is not modelled.
- OnProfileResponse: the model always receives a user. In the source, a successful response whose `body()` is null is passed to `setLoggedInUser` as null, and the dereference at line 195 then throws; that crash is not modelled.
- The platform's initial focus is not part of onCreate. The model starts with no field focused and treats the focus the window gives a field on its first layout as an `OnFocusChange` event, which may come before the enter animation ends and the focus listener is installed.
- When `finishAfterTransition` finishes is a platform decision. The model makes it an input: `hasExitTransition` says whether the finish waits for `OnExitTransitionEnd` or happens at once.
- The preference store's other effects are left out. Only the saved token and user are modelled.
- Logging of failures is left out.

## Findings

| source | as written | input that shows it | evidently intended | confidence | as-written member | corrected member |
|---|---|---|---|---|---|---|
| app/src/main/java/io/plaidapp/ui/DesignerNewsLogin.kt:139 | reads `grantResults[0]` without checking the array's length | an empty `grantResults`, which the platform delivers when the permission dialog is interrupted | an interrupted request is handled as a refusal instead of throwing | medium, not executed | `Permissions.GrantedAsWritten` | `Permissions.Granted` |

`LoginActivity.DesignerNewsLogin.OnRequestPermissionsResult` uses the corrected `Permissions.Granted`. `Permissions.GrantedAgreesWhereDefined` proves that this matches the code as written on every non-empty result array.
