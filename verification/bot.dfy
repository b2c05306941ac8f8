/**
 * The command-line entry point (cmd/bot/main.go): log in, then run the chosen task.
 * The "search-connect" task searches for profiles and sends each one a connection
 * request with a fixed note, cooling down after every request that goes through.
 */
module Bot {
  import opened Results
  import opened Browser
  import Auth
  import Search
  import Connection

  /** The note sent with every connection request. */
  const ConnectNote: string := "Hi, I'd like to connect to discuss potential opportunities."

  /** The cooldown after each successful request, in milliseconds. */
  const CooldownMillis: nat := 10000

  /** A request to `url` goes through. */
  predicate Succeeds(url: string, pageOf: string -> Connection.ProfilePage)
  {
    Connection.ConnectResult(pageOf(url), ConnectNote).Pass?
  }

  /** The number of requests that went through among the profiles tried. */
  function Successes(tried: seq<string>, pageOf: string -> Connection.ProfilePage): (n: nat)
    ensures n <= |tried|
  {
    if tried == [] then 0
    else Successes(tried[..|tried| - 1], pageOf) + if Succeeds(tried[|tried| - 1], pageOf) then 1 else 0
  }

  /** The actions for one profile: the request, then the cooldown if it went through. */
  function AttemptTrace(url: string, pageOf: string -> Connection.ProfilePage): seq<Action>
  {
    Connection.ConnectTrace(url, ConnectNote, pageOf(url))
    + if Succeeds(url, pageOf) then [Paused(CooldownMillis)] else []
  }

  /** The actions for the profiles tried, in order. */
  function AttemptsTrace(tried: seq<string>, pageOf: string -> Connection.ProfilePage): seq<Action>
  {
    if tried == [] then []
    else AttemptsTrace(tried[..|tried| - 1], pageOf) + AttemptTrace(tried[|tried| - 1], pageOf)
  }

  /** `runSearchConnect`: search for `keywords` with the limit as quota, then request a
      connection with each result in turn until `limit` requests have gone through. A
      failed request is skipped; a failed search ends the task before any request.
      `searched` is the query URL the search visits. */
  method RunSearchConnect(b: Browser, keywords: string, limit: int, surface: Search.Surface,
                          pageOf: string -> Connection.ProfilePage)
    returns (tried: seq<string>, count: int, searched: string)
    modifies b`trace
    ensures searched == Search.SearchUrl(keywords)
    ensures !surface.navOk ==> tried == [] && count == 0 && b.trace == old(b.trace)
    ensures surface.navOk ==> tried == Search.Expected(surface.pages, limit)
    ensures count == Successes(tried, pageOf)
    ensures 0 <= count <= if limit > 0 then limit else 0
    ensures b.trace == old(b.trace) + AttemptsTrace(tried, pageOf)
  {
    var profiles, _, visited := Search.Run(Search.Criteria(keywords, "", limit), surface);
    searched := visited;
    if profiles.Err? {
      return [], 0, searched;
    }
    var results := profiles.value;
    Search.ExpectedSize(surface.pages, limit);
    tried, count := ConnectEach(b, results, limit, pageOf);
  }

  /** The loop over the search results: stop once `limit` requests have gone through,
      otherwise try the next profile. */
  method ConnectEach(b: Browser, results: seq<string>, limit: int, pageOf: string -> Connection.ProfilePage)
    returns (tried: seq<string>, count: int)
    modifies b`trace
    ensures tried <= results
    ensures |tried| < |results| ==> count >= limit
    ensures count == Successes(tried, pageOf)
    ensures 0 <= count <= if limit > 0 then limit else 0
    ensures b.trace == old(b.trace) + AttemptsTrace(tried, pageOf)
  {
    count := 0;
    var i := 0;
    assert results[..0] == [];
    assert b.trace == old(b.trace) + AttemptsTrace([], pageOf);
    while i < |results|
      invariant 0 <= i <= |results|
      invariant count == Successes(results[..i], pageOf)
      invariant 0 <= count <= if limit > 0 then limit else 0
      invariant b.trace == old(b.trace) + AttemptsTrace(results[..i], pageOf)
    {
      if count >= limit {
        break;
      }
      var url := results[i];
      var prefix := results[..i + 1];
      assert prefix[..i] == results[..i] && prefix[i] == url;
      ghost var before := b.trace;
      var success := Attempt(b, url, pageOf);
      AttemptsSnoc(old(b.trace), before, b.trace, prefix, pageOf);
      if success {
        count := count + 1;
      }
      i := i + 1;
    }
    tried := results[..i];
  }

  /** One pass of the loop: the request, then the cooldown if it went through. */
  method Attempt(b: Browser, url: string, pageOf: string -> Connection.ProfilePage) returns (success: bool)
    modifies b`trace
    ensures success == Succeeds(url, pageOf)
    ensures b.trace == old(b.trace) + AttemptTrace(url, pageOf)
  {
    var outcome := Connection.Connect(b, url, ConnectNote, pageOf(url));
    if outcome.Fail? {
      return false;
    }
    b.Sleep(CooldownMillis);
    return true;
  }

  lemma AttemptsSnoc(start: seq<Action>, before: seq<Action>, after: seq<Action>,
                     tried: seq<string>, pageOf: string -> Connection.ProfilePage)
    requires tried != []
    requires before == start + AttemptsTrace(tried[..|tried| - 1], pageOf)
    requires after == before + AttemptTrace(tried[|tried| - 1], pageOf)
    ensures after == start + AttemptsTrace(tried, pageOf)
  {
    AppendAssociative(start, AttemptsTrace(tried[..|tried| - 1], pageOf), AttemptTrace(tried[|tried| - 1], pageOf));
  }

  // ---------------------------------------------------------- the task switch

  datatype FatalError = AuthenticationFailed | KeywordsRequired | UnknownTask(task: string)

  /** What the chosen task leads to once logged in. */
  datatype Step = SearchAndConnect | MessagingNotWired | Abort(reason: FatalError)

  /** How the process ends: normally, or through a fatal log entry. */
  datatype Exit = Completed | Fatal(reason: FatalError)

  /** The task switch: "search-connect" needs keywords, "message" only warns, anything
      else is fatal. */
  function Dispatch(task: string, keywords: string): (s: Step)
    ensures s == SearchAndConnect <==> task == "search-connect" && keywords != ""
    ensures s == MessagingNotWired <==> task == "message"
    ensures s == Abort(KeywordsRequired) <==> task == "search-connect" && keywords == ""
    ensures s == Abort(UnknownTask(task)) <==> task != "search-connect" && task != "message"
  {
    match task
    case "search-connect" => if keywords == "" then Abort(KeywordsRequired) else SearchAndConnect
    case "message" => MessagingNotWired
    case _ => Abort(UnknownTask(task))
  }

  /** `main` after the configuration, logger, store and browser are set up: log in,
      then run the task. Every exit but `Completed` is fatal. */
  method Execute(b: Browser, cred: Auth.Credentials, site: Auth.LoginSite, task: string,
                 keywords: string, limit: int, surface: Search.Surface,
                 pageOf: string -> Connection.ProfilePage)
    returns (exit: Exit, tried: seq<string>, count: int, searched: Option<string>)
    modifies b`trace, b`cookies, b`cookieFile
    ensures Auth.LoginOutcome(old(b.cookieFile), site).Fail? ==>
      exit == Fatal(AuthenticationFailed) && tried == [] && count == 0
    ensures Auth.LoginOutcome(old(b.cookieFile), site).Pass? ==>
      exit == match Dispatch(task, keywords)
              case Abort(reason) => Fatal(reason)
              case _ => Completed
    ensures Dispatch(task, keywords) != SearchAndConnect ==> tried == [] && count == 0
    ensures searched.Some? <==>
      Auth.LoginOutcome(old(b.cookieFile), site).Pass? && Dispatch(task, keywords) == SearchAndConnect
    ensures searched.Some? ==> searched.value == Search.SearchUrl(keywords)
    ensures tried <= Search.Expected(surface.pages, limit)
    ensures count == Successes(tried, pageOf) && count <= if limit > 0 then limit else 0
    ensures (Auth.LoginOutcome(old(b.cookieFile), site).Pass? && Dispatch(task, keywords) == SearchAndConnect &&
             surface.navOk) ==> tried == Search.Expected(surface.pages, limit)
    ensures b.trace == old(b.trace) + Auth.LoginActions(old(b.cookieFile), cred, site)
                       + AttemptsTrace(tried, pageOf)
    ensures b.cookies == Auth.LoginCookies(old(b.cookieFile), old(b.cookies), site)
    ensures b.cookieFile == Auth.LoginFile(old(b.cookieFile), site)
  {
    var auth := Auth.Login(b, cred, site);
    assert AttemptsTrace([], pageOf) == [];
    assert b.trace + [] == b.trace;
    if auth.Fail? {
      return Fatal(AuthenticationFailed), [], 0, None;
    }
    var step := Dispatch(task, keywords);
    match step
    case SearchAndConnect =>
      var url;
      tried, count, url := RunSearchConnect(b, keywords, limit, surface, pageOf);
      exit, searched := Completed, Some(url);
    case MessagingNotWired =>
      exit, tried, count, searched := Completed, [], 0, None;
    case Abort(reason) =>
      exit, tried, count, searched := Fatal(reason), [], 0, None;
  }

  // ------------------------------------------------------ what the task promises

  /** Each profile tried is a distinct search result, so no profile is asked twice in
      one run, and each is a cleaned profile link. */
  lemma TriedOnce(pages: Search.Pages, limit: int, tried: seq<string>)
    requires tried <= Search.Expected(pages, limit)
    ensures Search.NoDuplicates(tried)
    ensures forall u :: u in tried ==> '?' !in u && Search.IsProfileLink(u)
    ensures |tried| <= if limit > 0 then limit else 0
  {
    var e := Search.Expected(pages, limit);
    Search.ExpectedNoDuplicates(pages, limit);
    Search.ExpectedSize(pages, limit);
    assert forall i :: 0 <= i < |tried| ==> tried[i] == e[i];
    forall u | u in tried
      ensures '?' !in u && Search.IsProfileLink(u)
    {
      Search.ExpectedProvenance(pages, limit, u);
    }
  }

  /** No step of a connection request pauses for the cooldown. */
  lemma ConnectHasNoCooldown(url: string, note: string, p: Connection.ProfilePage)
    ensures Paused(CooldownMillis) !in Connection.ConnectTrace(url, note, p)
  {
    if p.navOk && p.buttons.Some? {
      assert Paused(CooldownMillis) !in Connection.MenuTrace(p);
      if Connection.Chosen(p).Some? && p.connectClickOk {
        assert Paused(CooldownMillis) !in Connection.NoteTrace(p, note);
        assert Paused(CooldownMillis) !in Connection.InviteTrace(p, note);
      }
    }
  }

  /** The cooldown is taken exactly once per request that went through. */
  lemma {:induction false} CooldownPerSuccess(tried: seq<string>, pageOf: string -> Connection.ProfilePage)
    ensures multiset(AttemptsTrace(tried, pageOf))[Paused(CooldownMillis)] == Successes(tried, pageOf)
  {
    if tried != [] {
      var last := tried[|tried| - 1];
      CooldownPerSuccess(tried[..|tried| - 1], pageOf);
      ConnectHasNoCooldown(last, ConnectNote, pageOf(last));
    }
  }
}
