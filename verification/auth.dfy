/**
 * The authenticator (internal/auth/auth.go): restore the saved session if it is still
 * good, otherwise log in through the form and save the new session's cookies.
 * Every answer of the site is part of a `LoginSite`, read step by step.
 */
module Auth {
  import opened Results
  import Strings
  import opened Browser

  datatype Credentials = Credentials(username: string, password: string)

  /** A form field: absent, or present with the outcome of clicking it and of typing. */
  datatype FormField = FieldMissing | FieldPresent(clickOk: bool, typeOk: bool)

  /** One session check: whether the feed loads, and whether the logged-in marker is on it. */
  datatype SessionProbe = SessionProbe(navOk: bool, markerFound: bool)

  /** How the login page answers a fresh login. */
  datatype LoginForm = LoginForm(
    navOk: bool,
    username: FormField,
    password: FormField,
    submit: Control,
    landingUrl: string,     // where the submit leads
    sessionJar: seq<Cookie>,// the page's cookie jar once the submit has gone through
    probe: SessionProbe)    // the session check that follows

  /** Everything `Login` asks of the site and the disk, in the order it asks. */
  datatype LoginSite = LoginSite(
    setCookiesOk: bool,           // the page accepts the cookies read from the file
    restoredProbe: SessionProbe,  // the session check after restoring them
    form: LoginForm,
    cookiesReadOk: bool,          // the page's cookies can be read for saving
    writeOk: bool)                // the cookie file can be written

  datatype AuthError =
    | CookieFileMissing | CookieFileCorrupt | CookiesRejected
    | NavigationFailed
    | UsernameNotFound | PasswordNotFound | SubmitNotFound
    | ClickFailed(target: Target) | TypeFailed(target: Target)
    | SessionNotValid
    | CookiesUnreadable | CookieWriteFailed

  const LoginUrl: string := "https://www.linkedin.com/login"
  const FeedUrl: string := "https://www.linkedin.com/feed/"

  /** `isChallengePage`: the location names a challenge or a checkpoint. */
  function IsChallengePage(url: string): (r: bool)
    ensures r <==> ((exists i :: Strings.OccursAt(url, "challenge", i))
                    || (exists i :: Strings.OccursAt(url, "checkpoint", i)))
  {
    Strings.Contains(url, "challenge") || Strings.Contains(url, "checkpoint")
  }

  predicate SessionValid(p: SessionProbe)
  {
    p.navOk && p.markerFound
  }

  /** `checkSession`: open the feed; the session is good exactly when the feed loads
      and shows the logged-in marker. */
  method CheckSession(b: Browser, probe: SessionProbe) returns (valid: bool)
    modifies b`trace
    ensures valid <==> SessionValid(probe)
    ensures !probe.navOk ==> !valid
    ensures b.trace == old(b.trace) + [Visited(FeedUrl)]
  {
    var navigated := b.Navigate(FeedUrl, probe.navOk);
    if !navigated {
      return false;
    }
    return probe.markerFound;
  }

  // ------------------------------------------------------------------ doLogin

  /** The actions spent on one form field. */
  function FieldTrace(target: Target, f: FormField, text: string): seq<Action>
  {
    match f
    case FieldMissing => []
    case FieldPresent(clickOk, _) => [Clicked(target)] + (if clickOk then [Typed(target, text)] else [])
  }

  /** How filling one field ends. */
  function FieldResult(target: Target, f: FormField, missing: AuthError): Outcome<AuthError>
  {
    match f
    case FieldMissing => Fail(missing)
    case FieldPresent(clickOk, typeOk) =>
      if !clickOk then Fail(ClickFailed(target))
      else if !typeOk then Fail(TypeFailed(target))
      else Pass
  }

  /** Find a field, click it and type into it, stopping at the first failure. */
  method FillField(b: Browser, target: Target, f: FormField, text: string, missing: AuthError)
    returns (res: Outcome<AuthError>)
    modifies b`trace
    ensures res == FieldResult(target, f, missing)
    ensures b.trace == old(b.trace) + FieldTrace(target, f, text)
  {
    if f.FieldMissing? {
      return Fail(missing);
    }
    var clicked := b.Click(target, f.clickOk);
    if !clicked {
      return Fail(ClickFailed(target));
    }
    var typed := b.TypeText(target, text, f.typeOk);
    if !typed {
      return Fail(TypeFailed(target));
    }
    return Pass;
  }

  /** The outcome of a fresh login: the first failing step decides, and a login that
      gets through the form is judged by the session check alone. */
  function LoginResult(f: LoginForm): Outcome<AuthError>
  {
    if !f.navOk then Fail(NavigationFailed)
    else if FieldResult(UsernameField, f.username, UsernameNotFound).Fail? then
      FieldResult(UsernameField, f.username, UsernameNotFound)
    else if FieldResult(PasswordField, f.password, PasswordNotFound).Fail? then
      FieldResult(PasswordField, f.password, PasswordNotFound)
    else if f.submit.Missing? then Fail(SubmitNotFound)
    else if !f.submit.works then Fail(ClickFailed(SubmitButton))
    else if SessionValid(f.probe) then Pass
    else Fail(SessionNotValid)
  }

  /** The form is filled and its submit click goes through: from then on the page
      holds the cookies the site set in response. */
  predicate SubmitGoesThrough(f: LoginForm)
  {
    f.navOk
    && FieldResult(UsernameField, f.username, UsernameNotFound).Pass?
    && FieldResult(PasswordField, f.password, PasswordNotFound).Pass?
    && f.submit == Present(true)
  }

  /** The actions of a fresh login, up to the step that ends it. */
  function LoginTrace(cred: Credentials, f: LoginForm): seq<Action>
  {
    [Visited(LoginUrl)] + if !f.navOk then [] else [Paused(2000)] + UsernameTrace(cred, f)
  }

  function UsernameTrace(cred: Credentials, f: LoginForm): seq<Action>
  {
    FieldTrace(UsernameField, f.username, cred.username)
    + if FieldResult(UsernameField, f.username, UsernameNotFound).Fail? then []
      else [Paused(500)] + PasswordTrace(cred, f)
  }

  function PasswordTrace(cred: Credentials, f: LoginForm): seq<Action>
  {
    FieldTrace(PasswordField, f.password, cred.password)
    + if FieldResult(PasswordField, f.password, PasswordNotFound).Fail? then []
      else [Paused(1000)] + SubmitTrace(f)
  }

  function SubmitTrace(f: LoginForm): seq<Action>
  {
    if f.submit.Missing? then []
    else [Clicked(SubmitButton)] + if !f.submit.works then [] else LandingTrace(f)
  }

  /** After the submit: a pause when the landing page is a challenge, then the session check. */
  function LandingTrace(f: LoginForm): seq<Action>
  {
    (if IsChallengePage(f.landingUrl) then [Paused(10000)] else []) + [Visited(FeedUrl)]
  }

  /** `doLogin`: open the login page, fill username and password, submit, wait out a
      challenge page, and check that the session works. */
  method DoLogin(b: Browser, cred: Credentials, f: LoginForm) returns (res: Outcome<AuthError>)
    modifies b`trace, b`cookies
    ensures res == LoginResult(f)
    ensures b.trace == old(b.trace) + LoginTrace(cred, f)
    ensures b.cookies == if SubmitGoesThrough(f) then f.sessionJar else old(b.cookies)
  {
    var navigated := b.Navigate(LoginUrl, f.navOk);
    if !navigated {
      assert [Visited(LoginUrl)] + [] == [Visited(LoginUrl)];
      return Fail(NavigationFailed);
    }
    b.Sleep(2000);
    AppendAssociative(old(b.trace), [Visited(LoginUrl)], [Paused(2000)]);
    res := EnterUsername(b, cred, f);
    AppendAssociative(old(b.trace), [Visited(LoginUrl)] + [Paused(2000)], UsernameTrace(cred, f));
    AppendAssociative([Visited(LoginUrl)], [Paused(2000)], UsernameTrace(cred, f));
  }

  /** The username step of `doLogin`, then the rest. */
  method EnterUsername(b: Browser, cred: Credentials, f: LoginForm) returns (res: Outcome<AuthError>)
    requires f.navOk
    modifies b`trace, b`cookies
    ensures res == LoginResult(f)
    ensures b.trace == old(b.trace) + UsernameTrace(cred, f)
    ensures b.cookies == if SubmitGoesThrough(f) then f.sessionJar else old(b.cookies)
  {
    ghost var field := FieldTrace(UsernameField, f.username, cred.username);
    res := FillField(b, UsernameField, f.username, cred.username, UsernameNotFound);
    if res.Fail? {
      assert field + [] == field;
      return;
    }
    b.Sleep(500);
    AppendAssociative(old(b.trace), field, [Paused(500)]);
    res := EnterPassword(b, cred, f);
    AppendAssociative(old(b.trace), field + [Paused(500)], PasswordTrace(cred, f));
    AppendAssociative(field, [Paused(500)], PasswordTrace(cred, f));
  }

  /** The password step of `doLogin`, then the submit. */
  method EnterPassword(b: Browser, cred: Credentials, f: LoginForm) returns (res: Outcome<AuthError>)
    requires f.navOk
    requires FieldResult(UsernameField, f.username, UsernameNotFound).Pass?
    modifies b`trace, b`cookies
    ensures res == LoginResult(f)
    ensures b.trace == old(b.trace) + PasswordTrace(cred, f)
    ensures b.cookies == if SubmitGoesThrough(f) then f.sessionJar else old(b.cookies)
  {
    ghost var field := FieldTrace(PasswordField, f.password, cred.password);
    res := FillField(b, PasswordField, f.password, cred.password, PasswordNotFound);
    if res.Fail? {
      assert field + [] == field;
      return;
    }
    b.Sleep(1000);
    AppendAssociative(old(b.trace), field, [Paused(1000)]);
    res := Submit(b, f);
    AppendAssociative(old(b.trace), field + [Paused(1000)], SubmitTrace(f));
    AppendAssociative(field, [Paused(1000)], SubmitTrace(f));
  }

  /** The rest of `doLogin`: submit the form, wait out a challenge page, check the session. */
  method Submit(b: Browser, f: LoginForm) returns (res: Outcome<AuthError>)
    requires f.navOk
    requires FieldResult(UsernameField, f.username, UsernameNotFound).Pass?
    requires FieldResult(PasswordField, f.password, PasswordNotFound).Pass?
    modifies b`trace, b`cookies
    ensures res == LoginResult(f)
    ensures b.trace == old(b.trace) + SubmitTrace(f)
    ensures b.cookies == if SubmitGoesThrough(f) then f.sessionJar else old(b.cookies)
  {
    if f.submit.Missing? {
      assert old(b.trace) + [] == old(b.trace);
      return Fail(SubmitNotFound);
    }
    var submitted := b.Click(SubmitButton, f.submit.works);
    if !submitted {
      assert [Clicked(SubmitButton)] + [] == [Clicked(SubmitButton)];
      return Fail(ClickFailed(SubmitButton));
    }
    b.StoreCookies(f.sessionJar);
    ghost var wait: seq<Action> := [];
    var url := f.landingUrl;
    if IsChallengePage(url) {
      b.Sleep(10000);
      wait := [Paused(10000)];
    } else {
      assert b.trace == b.trace + [];
    }
    var valid := CheckSession(b, f.probe);
    AppendAssociative(old(b.trace) + [Clicked(SubmitButton)], wait, [Visited(FeedUrl)]);
    AppendAssociative(old(b.trace), [Clicked(SubmitButton)], LandingTrace(f));
    if !valid {
      return Fail(SessionNotValid);
    }
    return Pass;
  }

  /** A missing username, password or submit element ends the login at once: the error
      names the element, and nothing after it is clicked or typed. */
  lemma MissingElementStopsLogin(cred: Credentials, f: LoginForm)
    requires f.navOk
    ensures f.username.FieldMissing? ==>
      LoginResult(f) == Fail(UsernameNotFound) && LoginTrace(cred, f) == [Visited(LoginUrl), Paused(2000)]
    ensures f.username == FieldPresent(true, true) && f.password.FieldMissing? ==>
      LoginResult(f) == Fail(PasswordNotFound)
      && LoginTrace(cred, f) == [Visited(LoginUrl), Paused(2000), Clicked(UsernameField),
                                 Typed(UsernameField, cred.username), Paused(500)]
    ensures (f.username == FieldPresent(true, true) && f.password == FieldPresent(true, true)
             && f.submit.Missing?) ==>
      LoginResult(f) == Fail(SubmitNotFound)
      && LoginTrace(cred, f) == [Visited(LoginUrl), Paused(2000), Clicked(UsernameField),
                                 Typed(UsernameField, cred.username), Paused(500),
                                 Clicked(PasswordField), Typed(PasswordField, cred.password),
                                 Paused(1000)]
  {
  }

  /** A challenge page only adds a wait: the outcome of the login never depends on where
      the submit led, and once the form is through it is the session check's verdict. */
  lemma ChallengeOnlyWaits(f: LoginForm, other: string)
    ensures LoginResult(f.(landingUrl := other)) == LoginResult(f)
    ensures (f.navOk && f.username == FieldPresent(true, true)
             && f.password == FieldPresent(true, true) && f.submit == Present(true)) ==>
      (LoginResult(f).Pass? <==> SessionValid(f.probe))
  {
  }

  /** A fresh login succeeds only after its submit went through, so it always holds the
      site's session cookies. */
  lemma PassedLoginSubmitted(f: LoginForm)
    requires LoginResult(f).Pass?
    ensures SubmitGoesThrough(f)
  {
  }

  // ------------------------------------------------------------------ cookies

  /** `loadCookies`: read the cookie file and install its jar in the page. */
  method LoadCookies(b: Browser, setOk: bool) returns (res: Outcome<AuthError>)
    modifies b`cookies
    ensures res.Pass? <==> b.cookieFile.Saved? && setOk
    ensures b.cookieFile.NoFile? ==> res == Fail(CookieFileMissing)
    ensures b.cookieFile.Corrupt? ==> res == Fail(CookieFileCorrupt)
    ensures b.cookieFile.Saved? && !setOk ==> res == Fail(CookiesRejected)
    ensures b.cookies == if res.Pass? then b.cookieFile.jar else old(b.cookies)
  {
    match b.cookieFile
    case NoFile => return Fail(CookieFileMissing);
    case Corrupt => return Fail(CookieFileCorrupt);
    case Saved(jar) =>
      var installed := b.SetCookies(jar, setOk);
      if !installed {
        return Fail(CookiesRejected);
      }
      return Pass;
  }

  /** `saveCookies`: write the page's cookie jar to the cookie file. */
  method SaveCookies(b: Browser, readOk: bool, writeOk: bool) returns (res: Outcome<AuthError>)
    modifies b`cookieFile
    ensures res == if !readOk then Fail(CookiesUnreadable) else if !writeOk then Fail(CookieWriteFailed) else Pass
    ensures b.cookieFile == if res.Pass? then Saved(b.cookies) else old(b.cookieFile)
  {
    if !readOk {
      return Fail(CookiesUnreadable);
    }
    if !writeOk {
      return Fail(CookieWriteFailed);
    }
    b.cookieFile := Saved(b.cookies);
    return Pass;
  }

  // -------------------------------------------------------------------- Login

  /** The saved session comes back and still works. */
  predicate Restores(file: CookieFile, site: LoginSite)
  {
    file.Saved? && site.setCookiesOk && SessionValid(site.restoredProbe)
  }

  /** How `Login` ends, starting from the cookie file `file`. */
  function LoginOutcome(file: CookieFile, site: LoginSite): Outcome<AuthError>
  {
    if Restores(file, site) then Pass
    else if LoginResult(site.form).Fail? then LoginResult(site.form)
    else if !site.cookiesReadOk then Fail(CookiesUnreadable)
    else if !site.writeOk then Fail(CookieWriteFailed)
    else Pass
  }

  /** The actions of `Login`: the session check when the saved cookies were installed,
      then, unless that session works, the fresh login. */
  function LoginActions(file: CookieFile, cred: Credentials, site: LoginSite): seq<Action>
  {
    (if file.Saved? && site.setCookiesOk then [Visited(FeedUrl)] else [])
    + if Restores(file, site) then [] else LoginTrace(cred, site.form)
  }

  /** The page's cookie jar after `Login`: the saved jar once installed, replaced by the
      site's session cookies once a fresh login's submit goes through. */
  function LoginCookies(file: CookieFile, cookies: seq<Cookie>, site: LoginSite): seq<Cookie>
  {
    var installed := if file.Saved? && site.setCookiesOk then file.jar else cookies;
    if !Restores(file, site) && SubmitGoesThrough(site.form) then site.form.sessionJar
    else installed
  }

  /** The cookie file after `Login`: rewritten with the fresh session's cookies exactly
      when a fresh login succeeds and they are read and written. */
  function LoginFile(file: CookieFile, site: LoginSite): CookieFile
  {
    if !Restores(file, site) && LoginResult(site.form).Pass? && site.cookiesReadOk && site.writeOk
    then Saved(site.form.sessionJar)
    else file
  }

  /** `Login`: reuse the saved session when it still works; otherwise log in afresh and,
      only if that succeeds, save the new session's cookies. */
  method Login(b: Browser, cred: Credentials, site: LoginSite) returns (res: Outcome<AuthError>)
    modifies b`trace, b`cookies, b`cookieFile
    ensures res == LoginOutcome(old(b.cookieFile), site)
    ensures b.trace == old(b.trace) + LoginActions(old(b.cookieFile), cred, site)
    ensures b.cookies == LoginCookies(old(b.cookieFile), old(b.cookies), site)
    ensures b.cookieFile == LoginFile(old(b.cookieFile), site)
  {
    ghost var check: seq<Action> := [];
    var loaded := LoadCookies(b, site.setCookiesOk);
    if loaded.Pass? {
      var valid := CheckSession(b, site.restoredProbe);
      check := [Visited(FeedUrl)];
      if valid {
        assert check + [] == check;
        return Pass;
      }
    } else {
      assert old(b.trace) + check == old(b.trace);
    }

    res := DoLogin(b, cred, site.form);
    AppendAssociative(old(b.trace), check, LoginTrace(cred, site.form));
    if res.Fail? {
      return;
    }

    PassedLoginSubmitted(site.form);
    res := SaveCookies(b, site.cookiesReadOk, site.writeOk);
  }

  /** Whichever way `Login` succeeds, the cookie file afterwards holds exactly the page's
      cookies: the restored jar, or the fresh session's jar it has just saved. */
  lemma SuccessfulLoginSavesPageCookies(file: CookieFile, cookies: seq<Cookie>, site: LoginSite)
    requires LoginOutcome(file, site).Pass?
    ensures LoginFile(file, site) == Saved(LoginCookies(file, cookies, site))
  {
    if !Restores(file, site) {
      PassedLoginSubmitted(site.form);
    }
  }

  /** A working saved session skips the form: one visit to the feed, the saved jar on the
      page and the file left as it was. */
  lemma RestoredSessionSkipsForm(file: CookieFile, cred: Credentials, cookies: seq<Cookie>, site: LoginSite)
    requires Restores(file, site)
    ensures LoginOutcome(file, site) == Pass
    ensures LoginActions(file, cred, site) == [Visited(FeedUrl)]
    ensures LoginCookies(file, cookies, site) == file.jar
    ensures LoginFile(file, site) == file
  {
  }

  /** A failed `Login` leaves the cookie file untouched. */
  lemma FailedLoginKeepsFile(file: CookieFile, site: LoginSite)
    requires LoginOutcome(file, site).Fail?
    ensures LoginFile(file, site) == file
  {
  }
}
