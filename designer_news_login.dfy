/**
 * The login screen for Designer News as a state machine. Widgets are reduced
 * to the flags the screen sets on them (visible, checked, enabled, focused),
 * the preference store to the token and user it holds, and every asynchronous
 * completion (token response, profile response, permission result) to an
 * event method. Platform answers (is the permission held, should a rationale
 * be shown, the device accounts, the email pattern, is the field attached to
 * its window) are parameters of the events that consult them.
 */
module LoginActivity {
  import opened Wrappers
  import opened LoginForm
  import opened AccountSuggestions
  import opened Permissions

  /** The request code of the GET_ACCOUNTS permission request. */
  const PERMISSIONS_REQUEST_GET_ACCOUNTS: int := 0

  /** Which input field holds the focus. */
  datatype Focus = NoFocus | UsernameFocus | PasswordFocus

  /** A result code passed to setResult; `ResultNotSet` before the first call (the platform then reports cancellation). */
  datatype ActivityResult = ResultNotSet | ResultOk | ResultCanceled

  /** The body of a successful token response. */
  datatype AccessToken = AccessToken(access_token: string)

  /** The body of a successful profile response. */
  datatype User = User(display_name: string, portrait_url: string)

  class DesignerNewsLogin {
    var isDismissing: bool
    var shouldPromptForPermission: bool

    // The permission primer checkbox, and whether its checked-change listener is installed.
    var primerVisible: bool
    var primerChecked: bool
    var primerListenerSet: bool

    // The rest of the dialog: title, the two field labels (with their fields),
    // the actions row holding the login button, and the progress indicator.
    var titleVisible: bool
    var usernameLabelVisible: bool
    var passwordLabelVisible: bool
    var actionsVisible: bool
    var loadingVisible: bool
    var loginEnabled: bool

    var username: string
    var password: string
    var focus: Focus
    var focusListenerSet: bool

    /** The username field's suggestion adapter: `None` while no adapter is set. */
    var suggestions: Option<set<string>>
    /** The device accounts the adapter was last built from. */
    ghost var suggestedFrom: seq<Account>

    /** The platform's email pattern, fixed for the life of the screen. */
    const isEmail: string -> bool

    // The preference store: the saved access token and logged-in user.
    var accessToken: Option<string>
    var loggedInUser: Option<User>

    /** The last result code set. */
    var result: ActivityResult
    /** The result the invoking screen receives: fixed by the first finish(), `None` before it. */
    var delivered: Option<ActivityResult>
    /** A dismissal is waiting for its exit transition to end before it finishes. */
    var exitTransitionRunning: bool

    // Requests enqueued whose callback has not yet arrived.
    var pendingTokenCalls: nat
    var pendingProfileCalls: nat

    /**
     * What holds in every reachable state: the form and the progress indicator
     * are never shown together, no field has focus while the form is hidden, the primer is only ever shown with its listener
     * installed, the adapter holds the email set of the accounts it was built
     * from, a dismissal has finished or is waiting for its exit transition, a
     * result is set before it is delivered, and success is only set or
     * delivered once a token is saved.
     */
    ghost predicate Valid()
      reads this
    {
      && (loadingVisible ==> !titleVisible && !usernameLabelVisible && !passwordLabelVisible && !actionsVisible)
      && (!loadingVisible ==> titleVisible && usernameLabelVisible && passwordLabelVisible && actionsVisible)
      && (loadingVisible ==> focus == NoFocus)
      && (primerVisible ==> primerListenerSet)
      && AdapterFromAccounts()
      && (isDismissing ==> delivered.Some? || exitTransitionRunning)
      && (exitTransitionRunning ==> isDismissing)
      && (isDismissing ==> result != ResultNotSet)
      && delivered != Some(ResultNotSet)
      && (result == ResultOk ==> accessToken.Some?)
      && (delivered == Some(ResultOk) ==> accessToken.Some?)
    }

    /**
     * The adapter, when set, offers exactly the email-shaped names of the
     * accounts it was built from.
     */
    ghost predicate AdapterFromAccounts()
      reads this`suggestions, this`suggestedFrom
    {
      suggestions.Some? ==>
        && (forall x :: x in suggestions.value ==> isEmail(x) && exists a :: a in suggestedFrom && a.name == x)
        && (forall a :: a in suggestedFrom && isEmail(a.name) ==> a.name in suggestions.value)
    }

    /** The login button is enabled exactly when the credentials may be submitted. */
    predicate LoginButtonInStep()
      reads this
    {
      loginEnabled == IsLoginValid(username, password)
    }

    /**
     * onCreate: the layout shows the form with empty fields and the login button
     * as the layout declares it, the progress indicator is hidden, and the
     * suggestion gate runs once. The preference store keeps what it held before.
     */
    constructor (granted: bool, showRationale: bool, accounts: seq<Account>, isEmail: string -> bool,
                 loginEnabledInLayout: bool, savedToken: Option<string>, savedUser: Option<User>)
      ensures Valid()
      ensures titleVisible && usernameLabelVisible && passwordLabelVisible && actionsVisible && !loadingVisible
      ensures loginEnabled == loginEnabledInLayout
      ensures username == [] && password == [] && focus == NoFocus && !focusListenerSet
      ensures this.isEmail == isEmail && suggestedFrom == accounts
      ensures accessToken == savedToken && loggedInUser == savedUser
      ensures result == ResultNotSet && delivered == None && !exitTransitionRunning && !isDismissing
      ensures pendingTokenCalls == 0 && pendingProfileCalls == 0
      ensures !primerChecked && (primerListenerSet <==> !granted && showRationale)
      ensures granted ==> !primerVisible && !shouldPromptForPermission && suggestions == Some(EmailSet(accounts, isEmail))
      ensures !granted && showRationale ==> primerVisible && !shouldPromptForPermission && suggestions == None
      ensures !granted && !showRationale ==> !primerVisible && shouldPromptForPermission && suggestions == None
    {
      isDismissing, shouldPromptForPermission := false, false;
      primerVisible, primerChecked, primerListenerSet := false, false, false;
      titleVisible, usernameLabelVisible, passwordLabelVisible, actionsVisible := true, true, true, true;
      loadingVisible, loginEnabled := false, loginEnabledInLayout;
      username, password, focus, focusListenerSet := [], [], NoFocus, false;
      suggestions, suggestedFrom := None, accounts;
      this.isEmail := isEmail;
      accessToken, loggedInUser := savedToken, savedUser;
      result, delivered, exitTransitionRunning := ResultNotSet, None, false;
      pendingTokenCalls, pendingProfileCalls := 0, 0;
      new;
      SetupAccountAutocomplete(granted, showRationale, accounts);
    }

    /**
     * The suggestion gate. With the permission held, the primer is hidden and
     * the adapter replaced by the email suggestions; without it, the primer is
     * offered when the platform advises a rationale, and otherwise the request
     * is deferred until the enter animation completes.
     */
    method SetupAccountAutocomplete(granted: bool, showRationale: bool, accounts: seq<Account>)
      requires Valid()
      modifies this`primerVisible, this`primerChecked, this`primerListenerSet, this`shouldPromptForPermission, this`suggestions,
               this`suggestedFrom
      ensures Valid()
      ensures !granted ==> suggestedFrom == old(suggestedFrom)
      ensures granted ==> && !primerVisible && suggestions == Some(EmailSet(accounts, isEmail))
                          && suggestedFrom == accounts
                          && primerChecked == old(primerChecked) && primerListenerSet == old(primerListenerSet)
                          && shouldPromptForPermission == old(shouldPromptForPermission)
      ensures !granted && showRationale ==> && primerVisible && !primerChecked && primerListenerSet
                                            && shouldPromptForPermission == old(shouldPromptForPermission)
                                            && suggestions == old(suggestions)
      ensures !granted && !showRationale ==> && !primerVisible && shouldPromptForPermission
                                             && primerChecked == old(primerChecked) && primerListenerSet == old(primerListenerSet)
                                             && suggestions == old(suggestions)
    {
      if granted {
        primerVisible := false;
        SetEmailAdapter(accounts);
      } else if showRationale {
        SetupPermissionPrimer();
      } else {
        primerVisible := false;
        shouldPromptForPermission := true;
      }
    }

    /** Replaces the username field's adapter by the email suggestions of the accounts. */
    method SetEmailAdapter(accounts: seq<Account>)
      modifies this`suggestions, this`suggestedFrom
      ensures suggestions == Some(EmailSet(accounts, isEmail)) && suggestedFrom == accounts
      ensures AdapterFromAccounts()
    {
      var emails := EmailSet(accounts, isEmail);
      suggestions := Some(emails);
      suggestedFrom := accounts;
    }

    /** Shows the primer unchecked and installs its checked-change listener. */
    method SetupPermissionPrimer()
      requires Valid()
      modifies this`primerVisible, this`primerChecked, this`primerListenerSet
      ensures Valid()
      ensures primerVisible && !primerChecked && primerListenerSet
    {
      primerChecked := false;
      primerVisible := true;
      primerListenerSet := true;
    }

    /**
     * The user taps the primer, which only a shown primer allows: the box
     * toggles, and the checked-change listener issues a permission request
     * exactly when the box has just become checked.
     */
    method OnPrimerTapped() returns (requested: bool)
      requires Valid() && primerVisible
      modifies this`primerChecked
      ensures Valid()
      ensures primerChecked == !old(primerChecked)
      ensures requested <==> !old(primerChecked)
    {
      primerChecked := !primerChecked;
      requested := primerListenerSet && primerChecked;
    }

    /**
     * The deferred request fires here, at most once: a request is issued exactly
     * when one was deferred, and afterwards none is. The focus listener is
     * installed and the dropdown offered.
     */
    method OnEnterAnimationComplete(attached: bool) returns (requested: bool, dropDown: bool)
      requires Valid()
      modifies this`shouldPromptForPermission, this`focusListenerSet
      ensures Valid()
      ensures requested == old(shouldPromptForPermission)
      ensures !shouldPromptForPermission && focusListenerSet
      ensures dropDown <==> focus == UsernameFocus && attached && suggestions.Some? && |suggestions.value| > 0
    {
      requested := false;
      if shouldPromptForPermission {
        requested := true;
        shouldPromptForPermission := false;
      }
      focusListenerSet := true;
      dropDown := MaybeShowAccounts(attached);
    }

    /**
     * The dropdown is shown only on a focused, attached username field with a
     * non-empty adapter, and then everything it offers is the email-shaped
     * name of a device account.
     */
    method MaybeShowAccounts(attached: bool) returns (dropDown: bool)
      requires Valid()
      ensures dropDown <==> focus == UsernameFocus && attached && suggestions.Some? && |suggestions.value| > 0
      ensures dropDown ==> forall x :: x in suggestions.value ==>
                isEmail(x) && exists a :: a in suggestedFrom && a.name == x
    {
      dropDown := focus == UsernameFocus && attached && suggestions.Some? && |suggestions.value| > 0;
    }

    /**
     * The focus moves to `target`, unless the form is hidden behind the progress
     * indicator: a field inside a hidden label cannot take focus. Once the focus
     * listener is installed, a change of the username field's focus offers the
     * dropdown.
     */
    method OnFocusChange(target: Focus, attached: bool) returns (dropDown: bool)
      requires Valid()
      modifies this`focus
      ensures Valid()
      ensures focus == if loadingVisible then NoFocus else target
      ensures dropDown <==> && focusListenerSet && old(focus) != UsernameFocus && target == UsernameFocus
                            && !loadingVisible && attached && suggestions.Some? && |suggestions.value| > 0
    {
      var next := if loadingVisible then NoFocus else target;
      var changed := (focus == UsernameFocus) != (next == UsernameFocus);
      focus := next;
      dropDown := false;
      if focusListenerSet && changed {
        dropDown := MaybeShowAccounts(attached);
      }
    }

    /**
     * The answer to a permission request. Another request code changes nothing.
     * For GET_ACCOUNTS: granted rebuilds the suggestions (the permission is now
     * held), focuses the username field unless the form is hidden, and shows the
     * dropdown, which the code requests unconditionally; refused shows the
     * primer when the platform still advises a rationale and hides it otherwise.
     */
    method OnRequestPermissionsResult(requestCode: int, grantResults: seq<int>, showRationale: bool,
                                      accounts: seq<Account>, attached: bool)
      returns (dropDown: bool)
      requires Valid()
      modifies this`primerVisible, this`primerChecked, this`primerListenerSet, this`shouldPromptForPermission,
               this`suggestions, this`suggestedFrom, this`focus
      ensures Valid()
      ensures shouldPromptForPermission == old(shouldPromptForPermission)
      ensures suggestedFrom == if requestCode == PERMISSIONS_REQUEST_GET_ACCOUNTS && Granted(grantResults)
                               then accounts else old(suggestedFrom)
      ensures requestCode != PERMISSIONS_REQUEST_GET_ACCOUNTS ==>
                && !dropDown && primerVisible == old(primerVisible) && primerChecked == old(primerChecked)
                && primerListenerSet == old(primerListenerSet) && suggestions == old(suggestions) && focus == old(focus)
      ensures requestCode == PERMISSIONS_REQUEST_GET_ACCOUNTS && Granted(grantResults) ==>
                && dropDown && !primerVisible && suggestions == Some(EmailSet(accounts, isEmail))
                && focus == (if loadingVisible then NoFocus else UsernameFocus)
                && primerChecked == old(primerChecked) && primerListenerSet == old(primerListenerSet)
      ensures requestCode == PERMISSIONS_REQUEST_GET_ACCOUNTS && !Granted(grantResults) && showRationale ==>
                && !dropDown && primerVisible && !primerChecked && primerListenerSet
                && suggestions == old(suggestions) && focus == old(focus)
      ensures requestCode == PERMISSIONS_REQUEST_GET_ACCOUNTS && !Granted(grantResults) && !showRationale ==>
                && !dropDown && !primerVisible && primerChecked == old(primerChecked)
                && primerListenerSet == old(primerListenerSet) && suggestions == old(suggestions) && focus == old(focus)
    {
      dropDown := false;
      if requestCode == PERMISSIONS_REQUEST_GET_ACCOUNTS {
        if Granted(grantResults) {
          SetupAccountAutocomplete(true, showRationale, accounts);
          var _ := OnFocusChange(UsernameFocus, attached);
          dropDown := true;
        } else if showRationale {
          SetupPermissionPrimer();
        } else {
          primerVisible := false;
        }
      }
    }

    /** A text change in the username field; the watcher re-evaluates the login button. */
    method OnUsernameChanged(text: string)
      requires Valid()
      modifies this`username, this`loginEnabled
      ensures Valid()
      ensures username == text
      ensures loginEnabled <==> |text| > 0 && |password| > 0
      ensures LoginButtonInStep()
    {
      username := text;
      loginEnabled := IsLoginValid(username, password);
    }

    /** A text change in the password field; the watcher re-evaluates the login button. */
    method OnPasswordChanged(text: string)
      requires Valid()
      modifies this`password, this`loginEnabled
      ensures Valid()
      ensures password == text
      ensures loginEnabled <==> |username| > 0 && |text| > 0
      ensures LoginButtonInStep()
    {
      password := text;
      loginEnabled := IsLoginValid(username, password);
    }

    /**
     * Hides the title, both labels, the primer and the actions, and shows the
     * progress indicator. Hiding the labels takes the focus from the field
     * inside them.
     */
    method ShowLoading()
      requires Valid()
      modifies this`titleVisible, this`usernameLabelVisible, this`primerVisible, this`passwordLabelVisible,
               this`actionsVisible, this`loadingVisible, this`focus
      ensures Valid()
      ensures !titleVisible && !usernameLabelVisible && !primerVisible && !passwordLabelVisible && !actionsVisible
      ensures loadingVisible && focus == NoFocus
    {
      focus := NoFocus;
      titleVisible := false;
      usernameLabelVisible := false;
      primerVisible := false;
      passwordLabelVisible := false;
      actionsVisible := false;
      loadingVisible := true;
    }

    /** Shows the title, both labels and the actions again and hides the progress indicator; the primer is left as it is. */
    method ShowLogin()
      requires Valid()
      modifies this`titleVisible, this`usernameLabelVisible, this`passwordLabelVisible, this`actionsVisible,
               this`loadingVisible
      ensures titleVisible && usernameLabelVisible && passwordLabelVisible && actionsVisible
      ensures Valid()
      ensures !loadingVisible
    {
      titleVisible := true;
      usernameLabelVisible := true;
      passwordLabelVisible := true;
      actionsVisible := true;
      loadingVisible := false;
    }

    /**
     * Submitting: the progress indicator replaces the form and a token request
     * carrying the current credentials is enqueued. There is no guard against a
     * request already in flight.
     */
    method DoLogin() returns (request: map<string, string>)
      requires Valid()
      modifies this`titleVisible, this`usernameLabelVisible, this`primerVisible, this`passwordLabelVisible,
               this`actionsVisible, this`loadingVisible, this`pendingTokenCalls, this`focus
      ensures Valid()
      ensures !titleVisible && !usernameLabelVisible && !primerVisible && !passwordLabelVisible && !actionsVisible
      ensures loadingVisible && focus == NoFocus
      ensures pendingTokenCalls == old(pendingTokenCalls) + 1
      ensures request.Keys == {"client_id", "client_secret", "grant_type", "username", "password"}
      ensures IsPasswordGrantRequest(request, username, password)
    {
      ShowLoading();
      request := GetAccessToken();
    }

    /** A click on the login button, which only a shown and enabled button allows. */
    method OnLoginClicked() returns (request: map<string, string>)
      requires Valid() && actionsVisible && loginEnabled
      modifies this`titleVisible, this`usernameLabelVisible, this`primerVisible, this`passwordLabelVisible,
               this`actionsVisible, this`loadingVisible, this`pendingTokenCalls, this`focus
      ensures Valid()
      ensures !titleVisible && !usernameLabelVisible && !primerVisible && !passwordLabelVisible && !actionsVisible
      ensures loadingVisible && focus == NoFocus
      ensures pendingTokenCalls == old(pendingTokenCalls) + 1
      ensures request.Keys == {"client_id", "client_secret", "grant_type", "username", "password"}
      ensures IsPasswordGrantRequest(request, username, password)
    {
      request := DoLogin();
    }

    /**
     * The keyboard's "done" action in the shown password field: it clicks the
     * login button exactly when the credentials may be submitted.
     */
    method OnPasswordEditorDone() returns (submitted: bool)
      requires Valid() && passwordLabelVisible
      modifies this`titleVisible, this`usernameLabelVisible, this`primerVisible, this`passwordLabelVisible,
               this`actionsVisible, this`loadingVisible, this`pendingTokenCalls, this`focus
      ensures Valid()
      ensures submitted <==> |username| > 0 && |password| > 0
      ensures submitted ==> && !titleVisible && !usernameLabelVisible && !primerVisible && !passwordLabelVisible
                            && !actionsVisible && loadingVisible && focus == NoFocus
                            && pendingTokenCalls == old(pendingTokenCalls) + 1
      ensures !submitted ==> && actionsVisible == old(actionsVisible) && loadingVisible == old(loadingVisible)
                             && primerVisible == old(primerVisible) && pendingTokenCalls == old(pendingTokenCalls)
                             && focus == old(focus)
    {
      submitted := IsLoginValid(username, password);
      if submitted {
        var _ := DoLogin();
      }
    }

    /** Builds the request from the fields' text and enqueues it. */
    method GetAccessToken() returns (request: map<string, string>)
      modifies this`pendingTokenCalls
      ensures pendingTokenCalls == old(pendingTokenCalls) + 1
      ensures request.Keys == {"client_id", "client_secret", "grant_type", "username", "password"}
      ensures IsPasswordGrantRequest(request, username, password)
    {
      request := BuildLoginParams(username, password);
      pendingTokenCalls := pendingTokenCalls + 1;
    }

    /**
     * A token response arrives. A successful one saves exactly the token it
     * carries, enqueues the profile fetch, sets success and finishes, so the
     * invoking screen receives success unless an earlier finish already
     * delivered a result; an unsuccessful one saves nothing and shows the
     * login failure.
     */
    method OnTokenResponse(isSuccessful: bool, body: AccessToken)
      requires Valid() && pendingTokenCalls > 0
      modifies this`accessToken, this`pendingTokenCalls, this`pendingProfileCalls, this`result, this`delivered,
               this`titleVisible, this`usernameLabelVisible, this`passwordLabelVisible, this`actionsVisible,
               this`loadingVisible, this`focus
      ensures Valid()
      ensures pendingTokenCalls == old(pendingTokenCalls) - 1
      ensures isSuccessful ==>
                && accessToken == Some(body.access_token) && result == ResultOk
                && delivered == (if old(delivered).None? then Some(ResultOk) else old(delivered))
                && pendingProfileCalls == old(pendingProfileCalls) + 1
                && loadingVisible == old(loadingVisible) && titleVisible == old(titleVisible)
                && usernameLabelVisible == old(usernameLabelVisible)
                && passwordLabelVisible == old(passwordLabelVisible) && actionsVisible == old(actionsVisible)
                && focus == old(focus)
      ensures !isSuccessful ==>
                && accessToken == old(accessToken) && result == old(result) && delivered == old(delivered)
                && pendingProfileCalls == old(pendingProfileCalls)
                && titleVisible && usernameLabelVisible && passwordLabelVisible && actionsVisible && !loadingVisible
                && focus == PasswordFocus
    {
      pendingTokenCalls := pendingTokenCalls - 1;
      if isSuccessful {
        SaveTokenAndFinish(body.access_token);
      } else {
        ShowLoginFailed();
      }
    }

    /** The successful branch: save the token, fetch the profile, set success and finish. */
    method SaveTokenAndFinish(token: string)
      requires Valid()
      modifies this`accessToken, this`pendingProfileCalls, this`result, this`delivered
      ensures Valid()
      ensures accessToken == Some(token) && result == ResultOk
      ensures delivered == if old(delivered).None? then Some(ResultOk) else old(delivered)
      ensures pendingProfileCalls == old(pendingProfileCalls) + 1
    {
      accessToken := Some(token);
      ShowLoggedInUser();
      result := ResultOk;
      Finish();
    }

    /** The token request fails in transport: nothing is saved and the login failure is shown. */
    method OnTokenFailure()
      requires Valid() && pendingTokenCalls > 0
      modifies this`pendingTokenCalls, this`titleVisible, this`usernameLabelVisible, this`passwordLabelVisible,
               this`actionsVisible, this`loadingVisible, this`focus
      ensures Valid()
      ensures pendingTokenCalls == old(pendingTokenCalls) - 1
      ensures titleVisible && usernameLabelVisible && passwordLabelVisible && actionsVisible && !loadingVisible
      ensures focus == PasswordFocus
    {
      pendingTokenCalls := pendingTokenCalls - 1;
      ShowLoginFailed();
    }

    /** Restores the form and moves the focus to the password field; the failure notice itself is presentation. */
    method ShowLoginFailed()
      requires Valid()
      modifies this`titleVisible, this`usernameLabelVisible, this`passwordLabelVisible, this`actionsVisible,
               this`loadingVisible, this`focus
      ensures Valid()
      ensures titleVisible && usernameLabelVisible && passwordLabelVisible && actionsVisible && !loadingVisible
      ensures focus == PasswordFocus
    {
      ShowLogin();
      var _ := OnFocusChange(PasswordFocus, false);
    }

    /** Enqueues the profile fetch. */
    method ShowLoggedInUser()
      modifies this`pendingProfileCalls
      ensures pendingProfileCalls == old(pendingProfileCalls) + 1
    {
      pendingProfileCalls := pendingProfileCalls + 1;
    }

    /** A profile response arrives: only a successful one saves the user it carries. */
    method OnProfileResponse(isSuccessful: bool, body: User)
      requires Valid() && pendingProfileCalls > 0
      modifies this`loggedInUser, this`pendingProfileCalls
      ensures Valid()
      ensures pendingProfileCalls == old(pendingProfileCalls) - 1
      ensures loggedInUser == if isSuccessful then Some(body) else old(loggedInUser)
    {
      pendingProfileCalls := pendingProfileCalls - 1;
      if isSuccessful {
        loggedInUser := Some(body);
      }
    }

    /** The profile fetch fails in transport: the failure is logged and no state changes. */
    method OnProfileFailure()
      requires Valid() && pendingProfileCalls > 0
      modifies this`pendingProfileCalls
      ensures Valid()
      ensures pendingProfileCalls == old(pendingProfileCalls) - 1
    {
      pendingProfileCalls := pendingProfileCalls - 1;
    }

    /**
     * finish(): the first call delivers the result set at that moment; a
     * later call on a finishing screen changes nothing.
     */
    method Finish()
      requires result != ResultNotSet
      modifies this`delivered
      ensures delivered == if old(delivered).None? then Some(result) else old(delivered)
    {
      if delivered.None? {
        delivered := Some(result);
      }
    }

    /**
     * Closing the dialog: marks it dismissing and sets cancellation, then
     * finishes after the exit transition, at once when there is none.
     */
    method Dismiss(hasExitTransition: bool)
      requires Valid()
      modifies this`isDismissing, this`result, this`delivered, this`exitTransitionRunning
      ensures Valid()
      ensures isDismissing && result == ResultCanceled
      ensures hasExitTransition ==> exitTransitionRunning && delivered == old(delivered)
      ensures !hasExitTransition ==> && exitTransitionRunning == old(exitTransitionRunning)
                                     && delivered == (if old(delivered).None? then Some(ResultCanceled) else old(delivered))
    {
      isDismissing := true;
      result := ResultCanceled;
      if hasExitTransition {
        exitTransitionRunning := true;
      } else {
        Finish();
      }
    }

    /** The exit transition of a dismissal ends and the screen finishes with the result set by then. */
    method OnExitTransitionEnd()
      requires Valid() && exitTransitionRunning
      modifies this`delivered, this`exitTransitionRunning
      ensures Valid()
      ensures !exitTransitionRunning
      ensures delivered == if old(delivered).None? then Some(result) else old(delivered)
    {
      exitTransitionRunning := false;
      Finish();
    }

    /** The back button dismisses the dialog. */
    method OnBackPressed(hasExitTransition: bool)
      requires Valid()
      modifies this`isDismissing, this`result, this`delivered, this`exitTransitionRunning
      ensures Valid()
      ensures isDismissing && result == ResultCanceled
      ensures hasExitTransition ==> exitTransitionRunning && delivered == old(delivered)
      ensures !hasExitTransition ==> && exitTransitionRunning == old(exitTransitionRunning)
                                     && delivered == (if old(delivered).None? then Some(ResultCanceled) else old(delivered))
    {
      Dismiss(hasExitTransition);
    }
  }
}
