/**
 * Event sequences driven through the login screen, each proved from the
 * contracts of its methods alone. Every submit except those of
 * `RepeatedSubmitEnqueuesTwice` goes through the login button, which must be
 * shown and enabled, or the password field's keyboard action, which needs a
 * shown field and valid credentials. `RepeatedSubmitEnqueuesTwice` calls
 * `DoLogin` directly, to show that it has no guard of its own.
 */
module LoginScenarios {
  import opened Wrappers
  import opened LoginForm
  import opened AccountSuggestions
  import opened Permissions
  import opened LoginActivity

  /** A fresh screen, offering the primer, whose fields hold the given credentials. */
  method ScreenWithCredentials(name: string, secret: string, accounts: seq<Account>, isEmail: string -> bool)
    returns (screen: DesignerNewsLogin)
    requires |name| > 0 && |secret| > 0
    ensures fresh(screen) && screen.Valid()
    ensures screen.actionsVisible && screen.passwordLabelVisible && screen.loginEnabled && screen.primerVisible
    ensures screen.username == name && screen.password == secret
    ensures screen.accessToken == None && screen.loggedInUser == None
    ensures screen.result == ResultNotSet && screen.delivered == None && !screen.exitTransitionRunning
    ensures screen.pendingTokenCalls == 0 && screen.pendingProfileCalls == 0
  {
    screen := new DesignerNewsLogin(false, true, accounts, isEmail, false, None, None);
    screen.OnUsernameChanged(name);
    screen.OnPasswordChanged(secret);
  }

  /**
   * Two failed attempts (one rejected, one lost in transport) leave the
   * preference store as it was; the third, successful attempt saves exactly its
   * own token, and the invoking screen receives success.
   */
  method TwoFailuresThenSuccess(name: string, secret: string, rejected: AccessToken, token: AccessToken,
                                accounts: seq<Account>, isEmail: string -> bool)
    returns (afterFailures: Option<string>, saved: Option<string>, received: Option<ActivityResult>)
    requires |name| > 0 && |secret| > 0
    ensures afterFailures == None
    ensures saved == Some(token.access_token) && received == Some(ResultOk)
  {
    var screen := ScreenWithCredentials(name, secret, accounts, isEmail);
    FailedAttempt(screen, rejected, true);
    FailedAttempt(screen, rejected, false);
    afterFailures := screen.accessToken;
    var request := screen.OnLoginClicked();
    assert request["username"] == name && request["password"] == secret;
    screen.OnTokenResponse(true, token);
    saved, received := screen.accessToken, screen.delivered;
  }

  /**
   * One click answered by a rejection or a transport failure leaves the token
   * and the result alone and gives the form back, so the user can retry.
   */
  method FailedAttempt(screen: DesignerNewsLogin, rejected: AccessToken, errorResponse: bool)
    requires screen.Valid() && screen.actionsVisible && screen.loginEnabled
    modifies screen
    ensures screen.Valid()
    ensures screen.accessToken == old(screen.accessToken) && screen.result == old(screen.result)
    ensures screen.delivered == old(screen.delivered)
    ensures screen.pendingTokenCalls == old(screen.pendingTokenCalls)
    ensures screen.username == old(screen.username) && screen.password == old(screen.password)
    ensures screen.actionsVisible && screen.loginEnabled && !screen.loadingVisible && screen.focus == PasswordFocus
    ensures !screen.primerVisible
  {
    var _ := screen.OnLoginClicked();
    if errorResponse {
      screen.OnTokenResponse(false, rejected);
    } else {
      screen.OnTokenFailure();
    }
  }

  /**
   * The primer shown before a submit stays hidden once the attempt fails:
   * restoring the form does not bring it back.
   */
  method FailureDoesNotRestorePrimer(name: string, secret: string, rejected: AccessToken, errorResponse: bool,
                                     accounts: seq<Account>, isEmail: string -> bool)
    returns (primerBefore: bool, primerAfter: bool, formBack: bool)
    requires |name| > 0 && |secret| > 0
    ensures primerBefore && !primerAfter && formBack
  {
    var screen := ScreenWithCredentials(name, secret, accounts, isEmail);
    primerBefore := screen.primerVisible;
    FailedAttempt(screen, rejected, errorResponse);
    primerAfter, formBack := screen.primerVisible, screen.actionsVisible && !screen.loadingVisible;
  }

  /**
   * A submit takes the focus from the username field, so neither the end of
   * the enter animation nor a later focus request offers the dropdown while
   * the form is hidden, whatever the adapter holds.
   */
  method NoDropDownWhileLoading(screen: DesignerNewsLogin, attached: bool) returns (dropDowns: bool)
    requires screen.Valid() && screen.actionsVisible && screen.loginEnabled && screen.focus == UsernameFocus
    modifies screen
    ensures screen.Valid() && screen.loadingVisible && screen.focus == NoFocus
    ensures !dropDowns
  {
    var _ := screen.OnLoginClicked();
    var _, d1 := screen.OnEnterAnimationComplete(attached);
    var d2 := screen.OnFocusChange(UsernameFocus, attached);
    dropDowns := d1 || d2;
  }

  /**
   * While a submit is in flight neither the login button nor the password
   * field's keyboard action is available: the form is hidden, and that is all
   * that stands in the way of a second submit.
   */
  method SubmitHidesBothSubmitPaths(name: string, secret: string, accounts: seq<Account>, isEmail: string -> bool)
    returns (buttonShown: bool, passwordFieldShown: bool, inFlight: nat)
    requires |name| > 0 && |secret| > 0
    ensures !buttonShown && !passwordFieldShown && inFlight == 1
  {
    var screen := ScreenWithCredentials(name, secret, accounts, isEmail);
    var submitted := screen.OnPasswordEditorDone();
    buttonShown, passwordFieldShown, inFlight := screen.actionsVisible, screen.passwordLabelVisible, screen.pendingTokenCalls;
  }

  /** `doLogin` has no guard of its own: called twice, it puts two token requests in flight. */
  method RepeatedSubmitEnqueuesTwice(accounts: seq<Account>, isEmail: string -> bool)
    returns (inFlight: nat)
    ensures inFlight == 2
  {
    var screen := new DesignerNewsLogin(true, false, accounts, isEmail, false, None, None);
    var _ := screen.DoLogin();
    var _ := screen.DoLogin();
    inFlight := screen.pendingTokenCalls;
  }

  /**
   * Without a primer to offer (the platform advises no rationale), the screen
   * defers one request to the end of the enter animation, never shows the
   * primer, builds no suggestions and shows no dropdown, whatever the focus does,
   * once that request is refused.
   */
  method RefusedWithoutRationaleNeverSuggests(accounts: seq<Account>, isEmail: string -> bool)
    returns (requested: bool, primerShown: bool, suggestionsBuilt: bool, dropDowns: bool)
    ensures requested
    ensures !primerShown && !suggestionsBuilt && !dropDowns
  {
    var screen := new DesignerNewsLogin(false, false, accounts, isEmail, false, None, None);
    primerShown := screen.primerVisible;
    var second, d1, d2, d3, d4;
    requested, d1 := screen.OnEnterAnimationComplete(true);
    d2 := screen.OnRequestPermissionsResult(PERMISSIONS_REQUEST_GET_ACCOUNTS, [PERMISSION_DENIED], false, accounts, true);
    primerShown := primerShown || screen.primerVisible;
    d3 := screen.OnFocusChange(UsernameFocus, true);
    second, d4 := screen.OnEnterAnimationComplete(true);
    assert !second;
    primerShown := primerShown || screen.primerVisible;
    suggestionsBuilt := screen.suggestions.Some?;
    dropDowns := d1 || d2 || d3 || d4;
  }

  /**
   * With a rationale advised, the primer is shown unchecked; checking it issues
   * the request, unchecking it issues none, and checking it again and granting
   * that request builds the suggestions, hides the primer and shows the
   * dropdown on the focused username field.
   */
  method PrimerLeadsToSuggestions(accounts: seq<Account>, isEmail: string -> bool)
    returns (primerShownFirst: bool, requests: seq<bool>, dropDown: bool, built: Option<set<string>>, primerShownAfter: bool)
    ensures primerShownFirst && requests == [true, false, true] && dropDown && !primerShownAfter
    ensures built == Some(EmailSet(accounts, isEmail))
  {
    var screen := new DesignerNewsLogin(false, true, accounts, isEmail, false, None, None);
    primerShownFirst := screen.primerVisible && !screen.primerChecked;
    var checked := screen.OnPrimerTapped();
    var unchecked := screen.OnPrimerTapped();
    var rechecked := screen.OnPrimerTapped();
    requests := [checked, unchecked, rechecked];
    dropDown := screen.OnRequestPermissionsResult(PERMISSIONS_REQUEST_GET_ACCOUNTS, [PERMISSION_GRANTED], true, accounts, true);
    built, primerShownAfter := screen.suggestions, screen.primerVisible;
  }

  /**
   * A failed profile fetch after a successful token exchange keeps the login:
   * the token stays saved, the invoking screen receives success and no user
   * is saved.
   */
  method ProfileFailureKeepsLogin(name: string, secret: string, token: AccessToken,
                                  accounts: seq<Account>, isEmail: string -> bool)
    returns (saved: Option<string>, user: Option<User>, received: Option<ActivityResult>)
    requires |name| > 0 && |secret| > 0
    ensures saved == Some(token.access_token) && user == None && received == Some(ResultOk)
  {
    var screen := ScreenWithCredentials(name, secret, accounts, isEmail);
    var _ := screen.OnLoginClicked();
    screen.OnTokenResponse(true, token);
    screen.OnProfileFailure();
    saved, user, received := screen.accessToken, screen.loggedInUser, screen.delivered;
  }

  /**
   * Dismissing after a successful exchange sets cancellation, but the invoking
   * screen already received success when the exchange finished the screen;
   * the token stays saved, and a profile arriving afterwards is still saved:
   * the dismissing flag suppresses nothing.
   */
  method DismissAfterSuccess(name: string, secret: string, token: AccessToken, profile: User, hasExitTransition: bool,
                             accounts: seq<Account>, isEmail: string -> bool)
    returns (saved: Option<string>, user: Option<User>, lastSet: ActivityResult, received: Option<ActivityResult>)
    requires |name| > 0 && |secret| > 0
    ensures saved == Some(token.access_token) && user == Some(profile)
    ensures lastSet == ResultCanceled && received == Some(ResultOk)
  {
    var screen := ScreenWithCredentials(name, secret, accounts, isEmail);
    var _ := screen.OnLoginClicked();
    screen.OnTokenResponse(true, token);
    screen.Dismiss(hasExitTransition);
    screen.OnProfileResponse(true, profile);
    saved, user, lastSet, received := screen.accessToken, screen.loggedInUser, screen.result, screen.delivered;
  }

  /**
   * A token arriving after the user dismissed the dialog is still saved. The
   * invoking screen receives cancellation when the dismissal finished at once,
   * but success when the late token arrived during the exit transition.
   */
  method LateSuccessAfterDismiss(name: string, secret: string, token: AccessToken, hasExitTransition: bool,
                                 accounts: seq<Account>, isEmail: string -> bool)
    returns (saved: Option<string>, received: Option<ActivityResult>)
    requires |name| > 0 && |secret| > 0
    ensures saved == Some(token.access_token)
    ensures received == if hasExitTransition then Some(ResultOk) else Some(ResultCanceled)
  {
    var screen := ScreenWithCredentials(name, secret, accounts, isEmail);
    var _ := screen.OnLoginClicked();
    screen.OnBackPressed(hasExitTransition);
    screen.OnTokenResponse(true, token);
    if hasExitTransition {
      screen.OnExitTransitionEnd();
    }
    saved, received := screen.accessToken, screen.delivered;
  }
}
