/**
 * Automatic login (features/AutoLogin.js): with stored credentials, the page the browser is on
 * (recognised by URL prefix) decides one step of the login flow — click through the LMS start
 * page, fill in and submit the user name or the password, or leave a timeout or error page.
 */
module AutoLogin {
  import opened Wrappers
  import opened Text
  import opened Constants

  /** What `getCredentials` resolves with; a storage error gives the empty object, both fields absent. */
  datatype Credentials = Credentials(username: Option<string>, password: Option<string>)

  /** A stored string is truthy when it is present and not empty. */
  predicate Truthy(v: Option<string>) {
    v.Some? && v.value != ""
  }

  /** The handler `main` runs. */
  datatype Handler = StartPage | PreLogin | Login | TimeoutPage | ErrorPage | NoHandler

  /** `main`: no handler without both credentials, then the first URL prefix that `href` starts with. */
  function Dispatch(creds: Credentials, href: string): (h: Handler)
    ensures !Truthy(creds.username) || !Truthy(creds.password) ==> h == NoHandler
    ensures Truthy(creds.username) && Truthy(creds.password) ==>
      && (h == StartPage <==> StartsWith(href, LMS_LOGIN_URL))
      && (h == PreLogin <==> !StartsWith(href, LMS_LOGIN_URL) && StartsWith(href, SSO_PRELOGIN_URL))
      && (h == Login <==> !StartsWith(href, LMS_LOGIN_URL) && !StartsWith(href, SSO_PRELOGIN_URL) && StartsWith(href, SSO_LOGIN_URL))
      && (h == TimeoutPage <==> !StartsWith(href, LMS_LOGIN_URL) && !StartsWith(href, SSO_PRELOGIN_URL)
                                && !StartsWith(href, SSO_LOGIN_URL) && StartsWith(href, SSO_TIMEOUT_URL))
      && (h == ErrorPage <==> !StartsWith(href, LMS_LOGIN_URL) && !StartsWith(href, SSO_PRELOGIN_URL)
                              && !StartsWith(href, SSO_LOGIN_URL) && !StartsWith(href, SSO_TIMEOUT_URL) && StartsWith(href, LMS_ERROR_URL))
  {
    if !Truthy(creds.username) || !Truthy(creds.password) then NoHandler
    else if StartsWith(href, LMS_LOGIN_URL) then StartPage
    else if StartsWith(href, SSO_PRELOGIN_URL) then PreLogin
    else if StartsWith(href, SSO_LOGIN_URL) then Login
    else if StartsWith(href, SSO_TIMEOUT_URL) then TimeoutPage
    else if StartsWith(href, LMS_ERROR_URL) then ErrorPage
    else NoHandler
  }

  /** How many of the five login-flow URLs `href` starts with. */
  function PrefixCount(href: string): nat {
    (if StartsWith(href, LMS_LOGIN_URL) then 1 else 0)
    + (if StartsWith(href, SSO_PRELOGIN_URL) then 1 else 0)
    + (if StartsWith(href, SSO_LOGIN_URL) then 1 else 0)
    + (if StartsWith(href, SSO_TIMEOUT_URL) then 1 else 0)
    + (if StartsWith(href, LMS_ERROR_URL) then 1 else 0)
  }

  /** Two strings that differ at index `k` are never both prefixes of one URL. */
  lemma NotBothPrefixes(href: string, a: string, b: string, k: nat)
    requires k < |a| && k < |b| && a[k] != b[k]
    ensures !(StartsWith(href, a) && StartsWith(href, b))
  {
  }

  /**
   * No URL starts with two of the login-flow prefixes, so the order of the tests in `main`
   * never matters: each page is recognised by exactly one prefix.
   */
  lemma PrefixesExclusive(href: string)
    ensures PrefixCount(href) <= 1
  {
    // the LMS URLs differ from the single-sign-on URLs at index 9 ('t' against 'l')
    NotBothPrefixes(href, LMS_LOGIN_URL, SSO_PRELOGIN_URL, 9);
    NotBothPrefixes(href, LMS_LOGIN_URL, SSO_LOGIN_URL, 9);
    NotBothPrefixes(href, LMS_LOGIN_URL, SSO_TIMEOUT_URL, 9);
    NotBothPrefixes(href, LMS_ERROR_URL, SSO_PRELOGIN_URL, 9);
    NotBothPrefixes(href, LMS_ERROR_URL, SSO_LOGIN_URL, 9);
    NotBothPrefixes(href, LMS_ERROR_URL, SSO_TIMEOUT_URL, 9);
    // "lms/lginLgir/" against "lms/error/"
    NotBothPrefixes(href, LMS_LOGIN_URL, LMS_ERROR_URL, 36);
    // "pub/prelogin.cgi", "pub/login.cgi" and "sso/timeout.cgi"
    NotBothPrefixes(href, SSO_PRELOGIN_URL, SSO_LOGIN_URL, 30);
    NotBothPrefixes(href, SSO_PRELOGIN_URL, SSO_TIMEOUT_URL, 26);
    NotBothPrefixes(href, SSO_LOGIN_URL, SSO_TIMEOUT_URL, 26);
  }

  /** The elements of the page the handlers look for: whether each is present. */
  datatype Page = Page(loginButton: bool, loginLink: bool, usernameInput: bool, passwordInput: bool, loginForm: bool)

  datatype Click = LoginButton | LoginLink

  /**
   * What a handler does to the page: the element it clicks, the values it writes into the
   * user-name and password inputs, whether it submits `form#login`, and the path it sends the
   * window to.
   */
  datatype Effect = Effect(click: Option<Click>, username: Option<string>, password: Option<string>, submitted: bool, pathname: Option<string>)

  const NO_EFFECT: Effect := Effect(None, None, None, false, None)

  /** Where the timeout page sends the browser, on the single-sign-on host. */
  const SSO_USER_PATH: string := "/user/"
  /** Where the LMS error page sends the browser: the path of the LMS login page. */
  const LMS_LOGIN_PATH: string := "/lms/lginLgir/"

  /** The effect of `handler` on `page` with the credentials `creds`. */
  function HandlerEffect(h: Handler, page: Page, creds: Credentials): Effect {
    match h
    case StartPage =>
      if page.loginButton then Effect(Some(LoginButton), None, None, false, None)
      else if page.loginLink then Effect(Some(LoginLink), None, None, false, None)
      else NO_EFFECT
    case PreLogin =>
      if page.usernameInput && page.loginForm then Effect(None, Some(creds.username.GetOr("")), None, true, None)
      else NO_EFFECT
    case Login =>
      if page.passwordInput && page.loginForm then Effect(None, None, Some(creds.password.GetOr("")), true, None)
      else NO_EFFECT
    case TimeoutPage => Effect(None, None, None, false, Some(SSO_USER_PATH))
    case ErrorPage => Effect(None, None, None, false, Some(LMS_LOGIN_PATH))
    case NoHandler => NO_EFFECT
  }

  /** What one run of `main` does to the page at `href`. */
  function MainEffect(creds: Credentials, href: string, page: Page): Effect {
    HandlerEffect(Dispatch(creds, href), page, creds)
  }

  /** Without a non-empty user name and password, nothing on the page is touched. */
  lemma MissingCredentialsDoNothing(creds: Credentials, href: string, page: Page)
    requires !Truthy(creds.username) || !Truthy(creds.password)
    ensures MainEffect(creds, href, page) == NO_EFFECT
  {
  }

  /**
   * A run does at most one kind of thing: a click, a form filled in and submitted, or a
   * navigation. A submitted form carries exactly one of the two credentials, typed into an
   * input that is there, and the user name only goes to the pre-login page and the password
   * only to the login page.
   */
  lemma OneStepPerRun(creds: Credentials, href: string, page: Page)
    ensures var e := MainEffect(creds, href, page);
      && (e.click.Some? ==> e == Effect(e.click, None, None, false, None))
      && (e.pathname.Some? ==> e == Effect(None, None, None, false, e.pathname))
      && (e.submitted <==> e.username.Some? || e.password.Some?)
      && (e.submitted ==> page.loginForm && (e.username.Some? != e.password.Some?))
      && (e.username.Some? ==> page.usernameInput && e.username == creds.username && StartsWith(href, SSO_PRELOGIN_URL))
      && (e.password.Some? ==> page.passwordInput && e.password == creds.password && StartsWith(href, SSO_LOGIN_URL))
  {
  }

  /** On the LMS start page the login button is clicked when there is one, and otherwise the login link, if any. */
  lemma StartPageClicks(creds: Credentials, href: string, page: Page)
    requires Truthy(creds.username) && Truthy(creds.password) && StartsWith(href, LMS_LOGIN_URL)
    ensures MainEffect(creds, href, page).click ==
      (if page.loginButton then Some(LoginButton) else if page.loginLink then Some(LoginLink) else None)
  {
  }

  /** With credentials, the pre-login and login pages submit exactly when both their input and the form are there. */
  lemma SubmitNeedsInputAndForm(creds: Credentials, href: string, page: Page)
    requires Truthy(creds.username) && Truthy(creds.password)
    ensures StartsWith(href, SSO_PRELOGIN_URL) ==>
      (MainEffect(creds, href, page).submitted <==> page.usernameInput && page.loginForm)
    ensures StartsWith(href, SSO_LOGIN_URL) ==>
      (MainEffect(creds, href, page).submitted <==> page.passwordInput && page.loginForm)
  {
    PrefixesExclusive(href);
  }

  /** The timeout and error pages lead back to the start of the login flow and touch nothing else. */
  lemma RecoveryPagesNavigate(creds: Credentials, href: string, page: Page)
    requires Truthy(creds.username) && Truthy(creds.password)
    ensures StartsWith(href, SSO_TIMEOUT_URL) ==> MainEffect(creds, href, page) == Effect(None, None, None, false, Some(SSO_USER_PATH))
    ensures StartsWith(href, LMS_ERROR_URL) ==> MainEffect(creds, href, page) == Effect(None, None, None, false, Some(LMS_LOGIN_PATH))
    ensures LMS_URL + LMS_LOGIN_PATH[1..] == LMS_LOGIN_URL
  {
    PrefixesExclusive(href);
  }

  /** The page `main` runs on, with what the handlers have done to it so far. */
  class LoginDocument {
    const page: Page
    var clicked: Option<Click>
    var usernameValue: Option<string>
    var passwordValue: Option<string>
    var submitted: bool
    var pathname: Option<string>

    function Done(): Effect
      reads this
    {
      Effect(clicked, usernameValue, passwordValue, submitted, pathname)
    }

    constructor(page: Page)
      ensures this.page == page && Done() == NO_EFFECT
    {
      this.page := page;
      clicked, usernameValue, passwordValue, submitted, pathname := None, None, None, false, None;
    }

    /** `handleLmsStartPage`. */
    method HandleLmsStartPage()
      modifies this
      requires Done() == NO_EFFECT
      ensures Done() == HandlerEffect(StartPage, page, Credentials(None, None))
    {
      if page.loginButton {
        clicked := Some(LoginButton);
      } else if page.loginLink {
        clicked := Some(LoginLink);
      }
    }

    /** `handlePreLogin`. */
    method HandlePreLogin(username: string)
      modifies this
      requires Done() == NO_EFFECT
      ensures Done() == HandlerEffect(PreLogin, page, Credentials(Some(username), None))
    {
      if page.usernameInput && page.loginForm {
        usernameValue := Some(username);
        submitted := true;
      }
    }

    /** `handleLogin`. */
    method HandleLogin(password: string)
      modifies this
      requires Done() == NO_EFFECT
      ensures Done() == HandlerEffect(Login, page, Credentials(None, Some(password)))
    {
      if page.passwordInput && page.loginForm {
        passwordValue := Some(password);
        submitted := true;
      }
    }

    /** `sso_timeoutpage`. */
    method SsoTimeoutPage()
      modifies this
      requires Done() == NO_EFFECT
      ensures Done() == HandlerEffect(TimeoutPage, page, Credentials(None, None))
    {
      pathname := Some(SSO_USER_PATH);
    }

    /** `lms_errorpage`. */
    method LmsErrorPage()
      modifies this
      requires Done() == NO_EFFECT
      ensures Done() == HandlerEffect(ErrorPage, page, Credentials(None, None))
    {
      pathname := Some(LMS_LOGIN_PATH);
    }

    /** `main`, run once on the loaded page at `href`. */
    method Run(creds: Credentials, href: string)
      modifies this
      requires Done() == NO_EFFECT
      ensures Done() == MainEffect(creds, href, page)
    {
      if !Truthy(creds.username) || !Truthy(creds.password) {
        return;
      }
      if StartsWith(href, LMS_LOGIN_URL) {
        HandleLmsStartPage();
      } else if StartsWith(href, SSO_PRELOGIN_URL) {
        HandlePreLogin(creds.username.value);
      } else if StartsWith(href, SSO_LOGIN_URL) {
        HandleLogin(creds.password.value);
      } else if StartsWith(href, SSO_TIMEOUT_URL) {
        SsoTimeoutPage();
      } else if StartsWith(href, LMS_ERROR_URL) {
        LmsErrorPage();
      }
    }
  }
}
