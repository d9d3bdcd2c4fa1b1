/** The agent object every platform shares: its platform tag, whether its browser was launched
    and closed, and whether it is logged in. The three platforms differ only in constants
    (URLs and form scripts), which `Agents` dispatches on. */
module Agents {
  import opened Wrappers
  import opened Session
  import AmazonAgent
  import FlipkartAgent
  import AliExpressAgent

  datatype Platform = Amazon | Flipkart | AliExpress

  /** The name the factory files an agent under. */
  function Name(p: Platform): string {
    match p
    case Amazon => "amazon"
    case Flipkart => "flipkart"
    case AliExpress => "aliexpress"
  }

  /** The platform a (lower-cased) name selects, if any. */
  function FromName(name: string): (r: Option<Platform>)
    ensures r.Some? <==> name in {"amazon", "flipkart", "aliexpress"}
    ensures r.Some? ==> Name(r.value) == name
  {
    if name == "amazon" then Some(Amazon)
    else if name == "flipkart" then Some(Flipkart)
    else if name == "aliexpress" then Some(AliExpress)
    else None
  }

  /** Names and platforms correspond one to one. */
  lemma NameRoundTrip(p: Platform, q: Platform)
    ensures FromName(Name(p)) == Some(p)
    ensures Name(p) == Name(q) ==> p == q
  {
  }

  function LoginUrl(p: Platform): string {
    match p
    case Amazon => AmazonAgent.LoginUrl
    case Flipkart => FlipkartAgent.LoginUrl
    case AliExpress => AliExpressAgent.LoginUrl
  }

  function LoginForm(p: Platform): Script {
    match p
    case Amazon => AmazonAgent.LoginForm
    case Flipkart => FlipkartAgent.LoginForm
    case AliExpress => AliExpressAgent.LoginForm
  }

  /** The credentials each login form reads: an email on Amazon, a user name elsewhere, and a
      password everywhere. */
  lemma LoginKeys(p: Platform)
    ensures Required(LoginForm(p)) == if p == Amazon then {"email", "password"} else {"username", "password"}
  {
    var f := LoginForm(p);
    if p == Amazon {
      assert f[0].key == "email" && f[2].key == "password";
    } else {
      assert f[0].key == "username" && f[1].key == "password";
    }
  }

  /** What the browser reports during login: whether the login page loaded, and whether the
      signed-in marker appeared within the wait bound. */
  datatype LoginPage = LoginPage(loaded: bool, signedIn: bool)

  /** The login flow: open the login page, fill the form (a missing credential raises before
      anything is typed), submit, and report whether the signed-in marker appeared. */
  function LoginFlow(p: Platform, credentials: map<string, string>, page: LoginPage): (r: Trace<bool>)
    ensures |r.steps| > 0 && r.steps[0] == Navigate(LoginUrl(p))
    ensures r.result <==> page.loaded && Complete(LoginForm(p), credentials) && page.signedIn
    ensures r.result ==> r.steps == [Navigate(LoginUrl(p))] + Play(LoginForm(p), credentials).steps
  {
    PlayCompleteIff(LoginForm(p), credentials);
    if !page.loaded then Trace([Navigate(LoginUrl(p))], false)
    else
      var fill := Play(LoginForm(p), credentials);
      Trace([Navigate(LoginUrl(p))] + fill.steps, fill.missing.None? && page.signedIn)
  }

  /** A login with a credential missing fails whatever the page does. */
  lemma MissingCredentialFails(p: Platform, credentials: map<string, string>, page: LoginPage)
    requires "password" !in credentials
    ensures !LoginFlow(p, credentials, page).result
  {
    LoginKeys(p);
    CompleteIffRequired(LoginForm(p), credentials);
  }

  class Agent {
    const platform: Platform
    /** `self.browser` was set by a successful `initialize`. */
    var launched: bool
    /** The browser was closed. */
    var closed: bool
    var loggedIn: bool

    constructor (platform: Platform)
      ensures this.platform == platform
      ensures !launched && !closed && !loggedIn
    {
      this.platform := platform;
      launched := false;
      closed := false;
      loggedIn := false;
    }

    /** Launches the browser; `launchOk` is whether the launch went through. A failed launch
        raises and leaves the agent as it was. */
    method Initialize(launchOk: bool) returns (ok: bool)
      modifies this
      ensures ok == launchOk
      ensures launched == (old(launched) || launchOk)
      ensures closed == old(closed) && loggedIn == old(loggedIn)
    {
      ok := launchOk;
      if launchOk {
        launched := true;
      }
    }

    /** Closes the browser if there is one; `fails` is whether closing raises. */
    method Close(fails: bool) returns (raised: bool)
      modifies this
      ensures raised <==> launched && fails
      ensures closed == (old(closed) || (launched && !fails))
      ensures launched == old(launched) && loggedIn == old(loggedIn)
    {
      raised := false;
      if launched {
        if fails {
          raised := true;
        } else {
          closed := true;
        }
      }
    }

    /** Logs in; the agent counts as logged in from the first login that succeeds on. Without
        a live browser (never launched, or closed) `self.page.goto` raises before anything
        reaches a page, and the outer handler returns `False`. */
    method Login(credentials: map<string, string>, page: LoginPage) returns (r: Trace<bool>)
      modifies this
      ensures launched && !closed ==> r == LoginFlow(platform, credentials, page)
      ensures !launched || closed ==> r == Trace([], false)
      ensures loggedIn == (old(loggedIn) || r.result)
      ensures launched == old(launched) && closed == old(closed)
    {
      if !launched || closed {
        return Trace([], false);
      }
      r := LoginFlow(platform, credentials, page);
      if r.result {
        loggedIn := true;
      }
    }
  }

  // ---------------------------------------------------------------------------
  // Login as written: the cookie save raises

  /** What a login call leaves behind: the `logged_in` flag and the value returned. */
  datatype LoginEffect = LoginEffect(loggedIn: bool, returned: bool)

  /** Login as the code has it. Once the signed-in marker appears, `logged_in` is set and the
      cookies are saved; the save hands the unawaited `context.cookies()` coroutine to
      `json.dump`, which raises `TypeError`, and the bare `except` around the wait turns that
      into a `False` return. */
  function LoginAsWritten(p: Platform, credentials: map<string, string>, page: LoginPage, before: bool): (e: LoginEffect)
    ensures e.loggedIn == (before || LoginFlow(p, credentials, page).result)
    ensures !e.returned
  {
    var flow := LoginFlow(p, credentials, page);
    if flow.result then
      var saveRaises := true;
      LoginEffect(true, !saveRaises)
    else LoginEffect(before, false)
  }

  /** The discrepancy: with valid credentials on a page that signs in, the code marks the agent
      logged in yet reports failure, where the intended login reports success. */
  lemma LoginAsWrittenDisagrees(p: Platform)
    ensures var credentials := if p == Amazon then map["email" := "e", "password" := "p"]
                               else map["username" := "u", "password" := "p"];
      var page := LoginPage(true, true);
      && LoginAsWritten(p, credentials, page, false) == LoginEffect(true, false)
      && LoginFlow(p, credentials, page).result
  {
    var credentials := if p == Amazon then map["email" := "e", "password" := "p"]
                       else map["username" := "u", "password" := "p"];
    LoginKeys(p);
    CompleteIffRequired(LoginForm(p), credentials);
  }
}
