/**
 * The automated browser (internal/browser/browser.go together with the page and mouse
 * it drives), as an oracle. Each primitive is told by its caller what the real page
 * answered (navigation settled or failed, click dispatched or failed) and records on
 * the browser's trace what was done, so that the workflows can be judged by the
 * actions they performed and the order they performed them in.
 */
module Browser {

  /** The page elements the workflows act on. */
  datatype Target =
    | UsernameField | PasswordField | SubmitButton   // the login form
    | PageButton(index: nat)                         // the index-th <button> of a profile page
    | MoreActions | MenuItem(index: nat)             // the "More actions" menu and its entries
    | AddNoteButton | NoteArea | SendButton          // the invitation dialog

  /** One thing the bot does to the page. Fixed-duration sleeps are recorded as pauses,
      in milliseconds. */
  datatype Action =
    | Visited(url: string)
    | Clicked(target: Target)
    | Typed(target: Target, text: string)
    | Paused(millis: nat)

  /** An element a workflow looks up and then clicks or types into: absent, or present
      and answering whether the action on it succeeds. */
  datatype Control = Missing | Present(works: bool)

  datatype Cookie = Cookie(name: string, value: string)

  /** The cookie file on disk: absent, not decodable, or holding a saved jar. */
  datatype CookieFile = NoFile | Corrupt | Saved(jar: seq<Cookie>)

  class Browser {
    /** Every action performed so far, oldest first. */
    var trace: seq<Action>
    /** The page's cookie jar. */
    var cookies: seq<Cookie>
    /** The cookie file kept between runs. */
    var cookieFile: CookieFile

    constructor (file: CookieFile)
      ensures trace == [] && cookies == [] && cookieFile == file
    {
      trace := [];
      cookies := [];
      cookieFile := file;
    }

    /** `NavigateTo`: load `url`; `ok` is whether the navigation succeeds. */
    method Navigate(url: string, ok: bool) returns (success: bool)
      modifies this`trace
      ensures success == ok
      ensures trace == old(trace) + [Visited(url)]
    {
      trace := trace + [Visited(url)];
      success := ok;
    }

    /** The human-like mouse click on `target`; `ok` is whether it is dispatched. */
    method Click(target: Target, ok: bool) returns (success: bool)
      modifies this`trace
      ensures success == ok
      ensures trace == old(trace) + [Clicked(target)]
    {
      trace := trace + [Clicked(target)];
      success := ok;
    }

    /** Typing `text` into `target`; `ok` is whether the keystrokes are accepted. */
    method TypeText(target: Target, text: string, ok: bool) returns (success: bool)
      modifies this`trace
      ensures success == ok
      ensures trace == old(trace) + [Typed(target, text)]
    {
      trace := trace + [Typed(target, text)];
      success := ok;
    }

    /** A fixed-duration sleep. */
    method Sleep(millis: nat)
      modifies this`trace
      ensures trace == old(trace) + [Paused(millis)]
    {
      trace := trace + [Paused(millis)];
    }

    /** `SetCookies`: install `jar` in the page; `ok` is whether the page accepts it. */
    method SetCookies(jar: seq<Cookie>, ok: bool) returns (success: bool)
      modifies this`cookies
      ensures success == ok
      ensures cookies == if ok then jar else old(cookies)
    {
      if ok {
        cookies := jar;
      }
      success := ok;
    }

    /** The site setting cookies on the page, as the response to a login does: `jar` is
        the page's jar afterwards. */
    method StoreCookies(jar: seq<Cookie>)
      modifies this`cookies
      ensures cookies == jar
    {
      cookies := jar;
    }
  }

  /** Appending to a trace in two steps is appending the two parts at once. */
  lemma AppendAssociative(x: seq<Action>, y: seq<Action>, z: seq<Action>)
    ensures (x + y) + z == x + (y + z)
  {
  }
}
