# LinkedIn automation bot: session, search and connect workflows in Dafny

This project models the core of a command-line bot that drives a browser against
LinkedIn. It has four parts:

- **Auth.** Restore a saved session from `cookies.json`. Otherwise log in through the
  login form and save the cookies the site sets for the new session.
- **Search.** Run a people search and walk its result pages. It collects cleaned profile
  URLs, deduplicated within the run, until a quota is met or the listing ends.
- **Connection.** Open a profile and find its Connect button. That is either a page
  button or an entry of the "More actions" menu. Optionally add a note, then send the
  invitation.
- **Bot.** The `main` task switch, and the `search-connect` task. That task connects
  with each search result in turn, up to a limit, with a cooldown after every request
  that goes through.

**The browser is an oracle.** Every lookup, click, typing and navigation takes the page's
answer as a parameter. It does not ask a real page.

- **Workflows that act on the page.** Login, the session check, `Connect` and the
  `search-connect` loop are methods acting on a `Browser` object. They append each action
  (visit, click, typing, fixed pause) to its `trace`. Their contracts give the new trace
  exactly, as a specification function of the page's answers, and give the result as
  another. Lemmas then state what the workflows promise about those functions.
- **The search.** It works on a `Surface`: whether the search page loads, and the
  listing's pages (what scraping each yields, and what its Next button does). Its result
  is proved equal to a declarative answer. That answer is: of the URLs on the reachable
  pages, in page order, drop repeats and keep the first `count`. Further lemmas prove the
  properties of that answer.

Modules: `Results` (Option/Result/Outcome), `Strings` (substring test, query-string
cut, space escaping), `Browser`, `Search`, `Auth`, `Connection` and `Bot`.

## Model

| member | source | states |
|---|---|---|
| Strings.Contains | internal/auth/auth.go:177-179 | true exactly when `sub` occurs at some position of `s` |
| Strings.BeforeFirst | internal/search/search.go:117 | the part before the first `?`: a prefix of the input with no `?`, and the input continues with `?` right after it when anything was cut |
| Strings.EscapeSpaces | internal/search/search.go:40 | the escaped keywords contain no space |
| Strings.EscapeRoundTrip | internal/search/search.go:40 | for keywords without `%`, replacing each `%20` back by a space restores the keywords |
| Strings.EscapeConcat | internal/search/search.go:40 | escaping is applied piecewise: escaping `a + b` is escaping `a`, then escaping `b` |
| Strings.EscapeKeepsOtherCharacters | internal/search/search.go:40 | keywords without spaces are used unchanged |
| Browser.Browser.constructor | internal/browser/browser.go:22-59 | a fresh browser has performed nothing, has no cookies, and sees the given cookie file |
| Browser.Browser.Navigate | internal/browser/browser.go:66-74 | records the visit and reports whether the navigation succeeded |
| Browser.Browser.Click | internal/modules/mouse/mouse.go:55-77 | records the click on the target and reports whether it was dispatched |
| Browser.Browser.TypeText | internal/auth/auth.go:81-83 | records the typing of the text into the target and reports whether it was accepted |
| Browser.Browser.Sleep | internal/auth/auth.go:69 | records a fixed pause of the given length |
| Browser.Browser.StoreCookies | internal/auth/auth.go:104-110 | the page's jar becomes the one the site sets in answer to the login |
| Browser.Browser.SetCookies | internal/auth/auth.go:173 | installs the jar when the page accepts it; otherwise the page's cookies are unchanged |
| Search.ScrapeProfiles | internal/search/search.go:100-124 | fails exactly when the link lookup fails; otherwise yields `ProfileLinks` of the hrefs, each without `?` and containing `/in/` |
| Search.ProfileLinksProvenance | internal/search/search.go:107-121 | every scraped URL is the part before `?` of some readable href, has no `?`, and is a profile link |
| Search.ProfileLinksConcat | internal/search/search.go:106-122 | the links are scraped href by href: scraping `a + b` is scraping `a`, then `b` |
| Search.ReachCount | internal/search/search.go:83-95 | the walk reaches at least the first page; every reached page but the last has a working Next click, and the last does not |
| Search.Truncate | internal/search/search.go:70-72 | at most the first `count` URLs, nothing for a non-positive count, and all of them when fewer |
| Search.FirstIndex | internal/search/search.go:74 | the first position of a URL in the scraped stream |
| Search.DistinctHasNoDuplicates | internal/search/search.go:74-76 | in-run deduplication leaves no URL twice |
| Search.DistinctElements | internal/search/search.go:74-76 | deduplication keeps exactly the URLs seen, no more and no fewer |
| Search.DistinctPrefix | internal/search/search.go:67-77 | seeing more URLs only appends to what was already kept |
| Search.DistinctFirstSeenOrder | internal/search/search.go:67-77 | kept URLs appear in the order in which each was first seen |
| Search.FirstIndexUnique | internal/search/search.go:74 | a position holding the URL with no earlier occurrence is its first position |
| Search.FirstIndexInPrefix | internal/search/search.go:74 | first positions do not change as the stream grows |
| Search.TruncateFilled | internal/search/search.go:70-72 | once `count` URLs are kept, later ones change nothing |
| Search.FlattenSnoc | internal/search/search.go:50-96 | the stream of one more page is the earlier stream followed by that page's URLs |
| Search.FlattenPrefix | internal/search/search.go:50-96 | the URLs of the first pages come first in the stream |
| Search.FlattenProvenance | internal/search/search.go:50-96 | every URL of the stream was scraped from some page |
| Search.ExpectedSize | internal/search/search.go:50-82 | the result has at most `count` URLs, and exactly `count` when the reachable pages hold that many distinct ones |
| Search.ExpectedNoDuplicates | internal/search/search.go:74-76 | the search never returns a URL twice |
| Search.ExpectedProvenance | internal/search/search.go:60-77 | every returned URL is a cleaned profile link scraped from a reachable page |
| Search.ExpectedComplete | internal/search/search.go:50-96 | under quota, every URL on a reachable page is returned |
| Search.ExpectedFirstSeenOrder | internal/search/search.go:67-77 | the result is in first-seen order across pages |
| Search.ScrapeFailureKeepsPaging | internal/search/search.go:64-95 | a page whose scrape fails is skipped, and paging goes on past it |
| Search.SearchUrl | internal/search/search.go:40-42 | the people-search URL: the fixed search prefix, the keywords with every space escaped as `%20`, then the fixed origin suffix |
| Search.SearchUrlCarriesKeywords | internal/search/search.go:40-42 | the keywords can be read back from the URL, so distinct keywords (without `%`) give distinct search URLs |
| Search.Run | internal/search/search.go:37-98 | the page it visits is the search URL for the criteria's keywords. A failed search navigation is an error before any page is scraped. Otherwise the result is the declarative answer `Expected(pages, count)`. It scrapes at least one page for a positive count and none otherwise. It stops before the last reachable page only when the quota is met, and it stops as soon as the quota is met: the pages before the last one scraped leave the quota unmet. |
| Search.Walk | internal/search/search.go:48-97 | the page loop's collected profiles are the declarative answer `Expected(pages, count)`; it scrapes at least one page for a positive count and none otherwise; it stops before the last reachable page only on a met quota, and every page before the last one it scrapes leaves the quota unmet |
| Search.PageStep | internal/search/search.go:60-94 | one pass extends the answer by exactly the page's URLs, and it stops exactly when the quota is met or the page has no Next click that leads further |
| Search.ScrapePage | internal/search/search.go:60-77 | one loop pass adds exactly the page's URLs to the stream the answer is computed from |
| Search.CollectPage | internal/search/search.go:67-77 | the inner loop keeps unseen URLs until the quota, which equals dedupe-then-truncate of the longer stream |
| Search.CollectStep | internal/search/search.go:71-76 | under quota a URL is appended exactly when not collected yet |
| Search.QuotaPrefix | internal/search/search.go:80-82 | a met quota stays met with the same URLs however many pages follow |
| Search.StopReason | internal/search/search.go:50-95 | stopping on a met quota or at the last reachable page both give the declarative answer |
| Search.NextPage | internal/search/search.go:139-157 | a Next control is followed only when present, enabled and clicked; a failed click is reported and ends the walk |
| Search.Contains | internal/search/search.go:159-166 | true exactly when the item is in the slice |
| Auth.IsChallengePage | internal/auth/auth.go:130-133 | true exactly when the URL contains "challenge" or "checkpoint" |
| Auth.CheckSession | internal/auth/auth.go:135-146 | the session is valid exactly when the feed loads and shows the logged-in marker; the feed is visited either way |
| Auth.FillField | internal/auth/auth.go:73-84 | a missing field, a failed click or a failed typing each give their own error; the trace shows exactly the steps taken |
| Auth.DoLogin | internal/auth/auth.go:60-128 | the result is the first failing step's error, else the session check; the trace is the login-page visit, the pauses, and each step up to the one that ends it |
| Auth.EnterUsername | internal/auth/auth.go:73-84 | the username step, then the rest of the login on success |
| Auth.EnterPassword | internal/auth/auth.go:86-97 | the password step, then the submit on success |
| Auth.Submit | internal/auth/auth.go:99-127 | a missing or unclickable submit is an error; once the submit goes through, the page holds the site's session cookies; a challenge landing page adds a 10-second pause; the session check decides |
| Auth.MissingElementStopsLogin | internal/auth/auth.go:73-103 | a missing username, password or submit element ends the login with its own error, and nothing after it is clicked or typed |
| Auth.ChallengeOnlyWaits | internal/auth/auth.go:114-125 | the landing URL never changes the result: a challenge page only adds a wait, and the session check decides |
| Auth.LoadCookies | internal/auth/auth.go:162-174 | succeeds exactly when the cookie file exists, decodes and is accepted; each failure has its own error and leaves the page's cookies unchanged |
| Auth.SaveCookies | internal/auth/auth.go:148-160 | on success the file holds the page's current cookies; a read or write failure is reported and leaves the file unchanged |
| Auth.Login | internal/auth/auth.go:35-58 | a restored working session skips the form and saves nothing; otherwise the fresh login runs, and only its success leads to saving the cookies, whose result is returned. The trace, the page's cookies and the cookie file afterwards are given exactly: a successful fresh login saves the session cookies the site set at the submit |
| Auth.SuccessfulLoginSavesPageCookies | internal/auth/auth.go:35-58 | whichever way the login succeeds, the cookie file afterwards holds exactly the page's cookies |
| Auth.RestoredSessionSkipsForm | internal/auth/auth.go:39-44 | a working saved session means one visit to the feed, the saved jar on the page, and the file left unchanged |
| Auth.FailedLoginKeepsFile | internal/auth/auth.go:50-57 | a failed login leaves the cookie file untouched |
| Connection.FirstEqual | internal/connection/connection.go:58-65 | the first index whose text is exactly the name; none exactly when no text is |
| Connection.FirstContaining | internal/connection/connection.go:75 | the first index whose text contains the word; none exactly when no text does |
| Connection.FindConnectButton | internal/connection/connection.go:58-65 | the loop finds the first button labelled exactly "Connect", or none when there is none |
| Connection.FirstEqualIsUnique | internal/connection/connection.go:59-64 | an index labelled "Connect" with no earlier one is the one found |
| Connection.Connect | internal/connection/connection.go:35-120 | the result is the decision tree `ConnectResult` of the page's answers, and the trace is exactly `ConnectTrace` |
| Connection.OnProfile | internal/connection/connection.go:53-120 | `Connect` once the profile has loaded |
| Connection.FindConnect | internal/connection/connection.go:58-77 | the button settled on is `Chosen`; the menu is opened, and paused after, only when no button is labelled "Connect" |
| Connection.ClickConnect | internal/connection/connection.go:79-88 | no button means "already connected or locked"; a failed click is returned |
| Connection.Invite | internal/connection/connection.go:90-120 | after a one-second pause, the note dialog, then Send decides the result |
| Connection.NoteDialog | internal/connection/connection.go:93-106 | the note dialog is skipped for an empty note, and each missing element ends it quietly |
| Connection.NavigationFailsFirst | internal/connection/connection.go:38-40 | a profile that does not load is an error before any button is looked at |
| Connection.PrimaryIsFirstExactMatch | internal/connection/connection.go:58-65 | the primary Connect button is the first in document order with the exact label |
| Connection.MenuOnlyWithoutPrimary | internal/connection/connection.go:67-77 | the "More actions" menu is clicked exactly when no button is labelled "Connect" and the menu button exists |
| Connection.InviteHasNoMenu | internal/connection/connection.go:90-116 | nothing after the Connect click touches the "More actions" menu |
| Connection.NoConnectButton | internal/connection/connection.go:79-83 | without a Connect button the result is "already connected or locked", and at most the menu was clicked |
| Connection.EmptyNoteSkipsDialog | internal/connection/connection.go:93 | an empty note never clicks "Add a note" or types a note |
| Connection.NoteIsOptional | internal/connection/connection.go:93-106 | the note dialog never decides the result: neither its elements nor the note text change it |
| Connection.SendDecides | internal/connection/connection.go:108-119 | once the Connect click succeeds, a missing Send button is an error, and otherwise the Send click decides |
| Connection.SuccessClickedConnectAndSend | internal/connection/connection.go:85-119 | a successful request clicked the chosen Connect button and ended with the Send click |
| Bot.Successes | cmd/bot/main.go:100-118 | the number of requests that went through, at most the number of profiles tried |
| Bot.RunSearchConnect | cmd/bot/main.go:81-119 | the search visits the query URL for the given keywords. A failed search makes no request. Otherwise, since the search quota is the limit itself, every search result is tried once, in order, and a failed request is not replaced by another profile. The count is the number of successes and never exceeds the limit. The trace is each request followed by its cooldown. |
| Bot.ConnectEach | cmd/bot/main.go:99-118 | the profiles tried are a prefix of the list, taken in order; stopping before its end means the limit was reached; the count is the number of successes, within the limit; the trace is each request followed by its cooldown |
| Bot.Attempt | cmd/bot/main.go:106-117 | one request, with the 10-second cooldown exactly when it went through |
| Bot.AttemptsSnoc | cmd/bot/main.go:101-118 | the loop's trace grows by one profile's actions per pass |
| Bot.Dispatch | cmd/bot/main.go:66-76 | "search-connect" with keywords runs the task, without keywords is fatal; "message" only warns; any other task is fatal |
| Bot.Execute | cmd/bot/main.go:58-78 | a failed login is fatal before any task. Once logged in, the run ends as the task switch says. Only "search-connect" with keywords searches, and it searches for exactly those keywords (the query URL is returned); it makes requests within the limit and tries every search result. The trace is the login's actions followed by the requests and cooldowns; the page's cookies and the cookie file are as the login leaves them. |
| Bot.TriedOnce | cmd/bot/main.go:91-101 | no profile is asked twice in a run, each is a cleaned profile link, and at most `limit` are tried |
| Bot.ConnectHasNoCooldown | internal/connection/connection.go:35-120 | no step of a connection request takes the 10-second cooldown pause |
| Bot.CooldownPerSuccess | cmd/bot/main.go:115-117 | the cooldown is taken exactly once per request that went through |

## Left out

- Random and human-like timing is not recorded. This covers the randomised sleeps, the
  scrolling in the search and on the profile, the mouse's path and its pre-click delay.
  Only fixed-duration sleeps appear, as pauses.
- The two-second settle delay inside `NavigateTo` is part of a recorded visit, not a
  separate pause.
- Page lookups are found or not found. The rod library's lookups retry until the element
  appears, and the `Must…` calls panic on failure. Panics and timeouts are not modelled.
- A page's answers are fixed for the whole run. Each profile's answers come from a
  function of its URL, so the same URL always answers the same way.
- The search listing is finite: its last page has no Next button that works. An endless
  listing is not modelled.
- `Search.Run` records no trace. Its navigation and Next clicks appear only through their
  results. The `search-connect` trace therefore holds only the connection requests and
  cooldowns.
- Search.ScrapeFailureKeepsPaging: a page that cannot be scraped still pages on. The
  model assumes its Next control answers as it would have.
- Auth.SaveCookies: a cookie write that fails part-way is modelled as leaving the file
  unchanged.
- Serialising the cookies cannot fail in the model. The JSON encoding itself and the
  file format are not modelled.
- The site's answer to the login submit is the page's whole cookie jar afterwards. How
  the browser merges set cookies into an existing jar is not modelled.
- Auth.Login: the log lines distinguishing "no session" from "session invalid" are not
  modelled.
- Rate limiting and persistence are absent from the code, so they are absent here. The
  code keeps no daily caps, no action records and no cross-run deduplication. The store
  and the limits configuration are passed around but never consulted.
- Configuration loading, logger set-up, browser launch and stealth are not modelled. So
  are the process exit codes beyond the fatal/normal distinction.
- internal/messaging/messaging.go is not part of this model. The `message` task only
  logs a warning.
