/**
 * The connection manager (internal/connection/connection.go): open a profile, find its
 * Connect button (directly, or through the "More actions" menu), optionally attach a
 * note, and send the invitation. The page's answers are given as a `ProfilePage`.
 */
module Connection {
  import opened Results
  import Strings
  import opened Browser

  /** A profile page, as the steps of `Connect` find it. */
  datatype ProfilePage = ProfilePage(
    navOk: bool,                     // the profile loads
    buttons: Option<seq<string>>,    // the texts of its <button> elements, in document order
                                     // (an unreadable text reads as ""); None when listing fails
    more: Control,                   // the "More actions" button; the click's result is ignored
    menuItems: seq<string>,          // the texts of the div[role='button'] elements once it is open
    connectClickOk: bool,            // clicking the chosen Connect button works
    addNote: Control,                // the "Add a note" button; the click's result is ignored
    noteArea: Control,               // the note textarea; the typing's result is ignored
    send: Control)                   // the "Send" button

  datatype ConnectError =
    | NavigationFailed
    | ButtonsUnavailable
    | AlreadyConnectedOrLocked       // "already connected or locked"
    | ClickFailed(target: Target)
    | SendNotFound                   // "failed to find Send button"

  const ConnectLabel: string := "Connect"

  /** The first index whose text is exactly `name`. */
  function FirstEqual(texts: seq<string>, name: string): (r: Option<nat>)
    ensures r.None? <==> name !in texts
    ensures r.Some? ==> r.value < |texts| && texts[r.value] == name && name !in texts[..r.value]
  {
    if texts == [] then None
    else if texts[0] == name then Some(0)
    else
      var r := FirstEqual(texts[1..], name);
      assert texts == [texts[0]] + texts[1..];
      if r.None? then None
      else
        assert texts[..r.value + 1] == [texts[0]] + texts[1..][..r.value];
        Some(r.value + 1)
  }

  /** The first index whose text contains `word`: how a lookup by text pattern picks
      its element. */
  function FirstContaining(texts: seq<string>, word: string): (r: Option<nat>)
    ensures r.None? <==> forall i :: 0 <= i < |texts| ==> !Strings.Contains(texts[i], word)
    ensures r.Some? ==> r.value < |texts| && Strings.Contains(texts[r.value], word)
    ensures r.Some? ==> forall i :: 0 <= i < r.value ==> !Strings.Contains(texts[i], word)
  {
    if texts == [] then None
    else if Strings.Contains(texts[0], word) then Some(0)
    else
      var r := FirstContaining(texts[1..], word);
      assert forall i :: 0 < i < |texts| ==> texts[i] == texts[1..][i - 1];
      if r.None? then None else Some(r.value + 1)
  }

  /** The loop of `Connect` over the page's buttons: the first one labelled exactly
      "Connect". */
  method FindConnectButton(texts: seq<string>) returns (index: Option<nat>)
    ensures index.None? <==> ConnectLabel !in texts
    ensures index.Some? ==> index.value < |texts| && texts[index.value] == ConnectLabel
    ensures index.Some? ==> forall j :: 0 <= j < index.value ==> texts[j] != ConnectLabel
    ensures index == FirstEqual(texts, ConnectLabel)
  {
    var i := 0;
    while i < |texts|
      invariant 0 <= i <= |texts|
      invariant ConnectLabel !in texts[..i]
    {
      if texts[i] == ConnectLabel {
        index := Some(i);
        FirstEqualIsUnique(texts, ConnectLabel, i);
        return;
      }
      i := i + 1;
    }
    assert texts[..i] == texts;
    return None;
  }

  lemma FirstEqualIsUnique(texts: seq<string>, name: string, i: nat)
    requires i < |texts| && texts[i] == name && name !in texts[..i]
    ensures FirstEqual(texts, name) == Some(i)
    ensures forall j :: 0 <= j < i ==> texts[j] != name
  {
    var r := FirstEqual(texts, name);
    assert forall j :: 0 <= j < i ==> texts[..i][j] == texts[j];
    assert forall j :: 0 <= j < r.value ==> texts[..r.value][j] == texts[j];
  }

  /** The Connect button `Connect` settles on: the first button labelled "Connect";
      failing that, when there is a "More actions" button, the first menu entry whose
      text contains "Connect"; failing that, none. */
  function Chosen(p: ProfilePage): Option<Target>
    requires p.buttons.Some?
  {
    var primary := FirstEqual(p.buttons.value, ConnectLabel);
    if primary.Some? then Some(PageButton(primary.value))
    else if p.more.Missing? then None
    else
      var item := FirstContaining(p.menuItems, ConnectLabel);
      if item.Some? then Some(MenuItem(item.value)) else None
  }

  /** How `Connect` ends for a page and a note. */
  function ConnectResult(p: ProfilePage, note: string): Outcome<ConnectError>
  {
    if !p.navOk then Fail(NavigationFailed)
    else if p.buttons.None? then Fail(ButtonsUnavailable)
    else if Chosen(p).None? then Fail(AlreadyConnectedOrLocked)
    else if !p.connectClickOk then Fail(ClickFailed(Chosen(p).value))
    else if p.send.Missing? then Fail(SendNotFound)
    else if !p.send.works then Fail(ClickFailed(SendButton))
    else Pass
  }

  /** Opening the "More actions" menu, done only when no button is labelled "Connect". */
  function MenuTrace(p: ProfilePage): seq<Action>
    requires p.buttons.Some?
  {
    if FirstEqual(p.buttons.value, ConnectLabel).None? && p.more.Present? then
      [Clicked(MoreActions), Paused(500)]
    else []
  }

  /** The note dialog: skipped for an empty note; each missing element ends it quietly. */
  function NoteTrace(p: ProfilePage, note: string): seq<Action>
  {
    if note == "" || p.addNote.Missing? then []
    else [Clicked(AddNoteButton), Paused(500)]
         + if p.noteArea.Missing? then [] else [Typed(NoteArea, note), Paused(500)]
  }

  /** The Send button, clicked when it is there. */
  function SendTrace(p: ProfilePage): seq<Action>
  {
    if p.send.Missing? then [] else [Clicked(SendButton)]
  }

  /** After the Connect click: the note dialog, then the Send button if there is one. */
  function InviteTrace(p: ProfilePage, note: string): seq<Action>
  {
    ([Paused(1000)] + NoteTrace(p, note)) + SendTrace(p)
  }

  /** The actions of `Connect`, up to the step that ends it. */
  function ConnectTrace(url: string, note: string, p: ProfilePage): seq<Action>
  {
    [Visited(url)] + if !p.navOk then [] else ProfileTrace(note, p)
  }

  /** The actions on a profile that loaded. */
  function ProfileTrace(note: string, p: ProfilePage): seq<Action>
  {
    if p.buttons.None? then [] else MenuTrace(p) + ClickTrace(note, p)
  }

  /** The actions once the Connect button is settled on, if there is one. */
  function ClickTrace(note: string, p: ProfilePage): seq<Action>
    requires p.buttons.Some?
  {
    if Chosen(p).None? then []
    else [Clicked(Chosen(p).value)] + if !p.connectClickOk then [] else InviteTrace(p, note)
  }

  /** `Connect`: send a connection request to the profile at `url`. */
  method Connect(b: Browser, url: string, note: string, p: ProfilePage) returns (res: Outcome<ConnectError>)
    modifies b`trace
    ensures res == ConnectResult(p, note)
    ensures b.trace == old(b.trace) + ConnectTrace(url, note, p)
  {
    var navigated := b.Navigate(url, p.navOk);
    if !navigated {
      assert [Visited(url)] + [] == [Visited(url)];
      return Fail(NavigationFailed);
    }
    res := OnProfile(b, note, p);
    AppendAssociative(old(b.trace), [Visited(url)], ProfileTrace(note, p));
  }

  /** `Connect` once the profile has loaded. */
  method OnProfile(b: Browser, note: string, p: ProfilePage) returns (res: Outcome<ConnectError>)
    requires p.navOk
    modifies b`trace
    ensures res == ConnectResult(p, note)
    ensures b.trace == old(b.trace) + ProfileTrace(note, p)
  {
    if p.buttons.None? {
      assert old(b.trace) + [] == old(b.trace);
      return Fail(ButtonsUnavailable);
    }
    var connectButton := FindConnect(b, p);
    res := ClickConnect(b, note, p, connectButton);
    AppendAssociative(old(b.trace), MenuTrace(p), ClickTrace(note, p));
  }

  /** Settling on the Connect button: the first one labelled "Connect", or else the
      first "Connect" entry of the "More actions" menu, opened for that purpose. */
  method FindConnect(b: Browser, p: ProfilePage) returns (connectButton: Option<Target>)
    requires p.buttons.Some?
    modifies b`trace
    ensures connectButton == Chosen(p)
    ensures b.trace == old(b.trace) + MenuTrace(p)
  {
    connectButton := None;
    var primary := FindConnectButton(p.buttons.value);
    if primary.Some? {
      connectButton := Some(PageButton(primary.value));
    }
    if connectButton.None? && p.more.Present? {
      var _ := b.Click(MoreActions, p.more.works);
      b.Sleep(500);
      AppendAssociative(old(b.trace), [Clicked(MoreActions)], [Paused(500)]);
      var item := FirstContaining(p.menuItems, ConnectLabel);
      if item.Some? {
        connectButton := Some(MenuItem(item.value));
      }
    } else {
      assert old(b.trace) + [] == old(b.trace);
    }
  }

  /** Clicking the Connect button settled on, then sending the invitation. */
  method ClickConnect(b: Browser, note: string, p: ProfilePage, connectButton: Option<Target>)
    returns (res: Outcome<ConnectError>)
    requires p.navOk && p.buttons.Some? && connectButton == Chosen(p)
    modifies b`trace
    ensures res == ConnectResult(p, note)
    ensures b.trace == old(b.trace) + ClickTrace(note, p)
  {
    if connectButton.None? {
      assert old(b.trace) + [] == old(b.trace);
      return Fail(AlreadyConnectedOrLocked);
    }
    var clicked := b.Click(connectButton.value, p.connectClickOk);
    if !clicked {
      assert [Clicked(connectButton.value)] + [] == [Clicked(connectButton.value)];
      return Fail(ClickFailed(connectButton.value));
    }
    res := Invite(b, note, p);
    AppendAssociative(old(b.trace), [Clicked(connectButton.value)], InviteTrace(p, note));
  }

  /** The rest of `Connect` once the Connect button is clicked: the optional note, then Send. */
  method Invite(b: Browser, note: string, p: ProfilePage) returns (res: Outcome<ConnectError>)
    requires p.navOk && p.buttons.Some? && Chosen(p).Some? && p.connectClickOk
    modifies b`trace
    ensures res == ConnectResult(p, note)
    ensures b.trace == old(b.trace) + InviteTrace(p, note)
  {
    b.Sleep(1000);
    NoteDialog(b, note, p);
    AppendAssociative(old(b.trace), [Paused(1000)], NoteTrace(p, note));
    ghost var t := [Paused(1000)] + NoteTrace(p, note);
    if p.send.Missing? {
      assert t + [] == t;
      return Fail(SendNotFound);
    }
    var sent := b.Click(SendButton, p.send.works);
    AppendAssociative(old(b.trace), t, [Clicked(SendButton)]);
    if !sent {
      return Fail(ClickFailed(SendButton));
    }
    return Pass;
  }

  /** The "Add a note" dialog: open it and type the note, skipping whatever is missing. */
  method NoteDialog(b: Browser, note: string, p: ProfilePage)
    modifies b`trace
    ensures b.trace == old(b.trace) + NoteTrace(p, note)
  {
    if note == "" || p.addNote.Missing? {
      assert old(b.trace) + [] == old(b.trace);
      return;
    }
    var _ := b.Click(AddNoteButton, p.addNote.works);
    b.Sleep(500);
    AppendAssociative(old(b.trace), [Clicked(AddNoteButton)], [Paused(500)]);
    ghost var dialog := [Clicked(AddNoteButton), Paused(500)];
    assert [Clicked(AddNoteButton)] + [Paused(500)] == dialog;
    if p.noteArea.Missing? {
      assert dialog + [] == dialog;
      return;
    }
    var _ := b.TypeText(NoteArea, note, p.noteArea.works);
    b.Sleep(500);
    AppendAssociative(old(b.trace) + dialog, [Typed(NoteArea, note)], [Paused(500)]);
    AppendAssociative(old(b.trace), dialog, [Typed(NoteArea, note), Paused(500)]);
  }

  // ------------------------------------------------------- what Connect promises

  /** A profile that does not load ends `Connect` before any button is looked at. */
  lemma NavigationFailsFirst(url: string, note: string, p: ProfilePage)
    requires !p.navOk
    ensures ConnectResult(p, note) == Fail(NavigationFailed)
    ensures ConnectTrace(url, note, p) == [Visited(url)]
  {
  }

  /** The primary choice is the first button in document order labelled exactly "Connect". */
  lemma PrimaryIsFirstExactMatch(p: ProfilePage, i: nat)
    requires p.buttons.Some? && Chosen(p) == Some(PageButton(i))
    ensures i < |p.buttons.value| && p.buttons.value[i] == ConnectLabel
    ensures forall j :: 0 <= j < i ==> p.buttons.value[j] != ConnectLabel
  {
    var texts := p.buttons.value;
    var r := FirstEqual(texts, ConnectLabel);
    assert forall j :: 0 <= j < i ==> texts[..i][j] == texts[j];
  }

  /** The "More actions" menu is opened exactly when the profile loaded, its buttons
      were listed, none is labelled "Connect", and the menu button is there. */
  lemma MenuOnlyWithoutPrimary(url: string, note: string, p: ProfilePage)
    ensures Clicked(MoreActions) in ConnectTrace(url, note, p)
        <==> p.navOk && p.buttons.Some? && ConnectLabel !in p.buttons.value && p.more.Present?
  {
    if p.navOk && p.buttons.Some? {
      assert ConnectTrace(url, note, p) == [Visited(url)] + (MenuTrace(p) + ClickTrace(note, p));
      InviteHasNoMenu(p, note);
      if Chosen(p).Some? {
        var c := Chosen(p).value;
        assert c.PageButton? || c.MenuItem?;
        assert Clicked(MoreActions) !in [Clicked(c)];
      }
      assert Clicked(MoreActions) !in ClickTrace(note, p);
    }
  }

  /** Nothing after the Connect click touches the "More actions" menu. */
  lemma InviteHasNoMenu(p: ProfilePage, note: string)
    ensures Clicked(MoreActions) !in InviteTrace(p, note)
  {
    assert Clicked(MoreActions) !in NoteTrace(p, note);
    assert Clicked(MoreActions) !in SendTrace(p);
  }

  /** Without any Connect button the result is "already connected or locked", and at
      most the "More actions" menu was clicked. */
  lemma NoConnectButton(url: string, note: string, p: ProfilePage)
    requires p.navOk && p.buttons.Some? && Chosen(p).None?
    ensures ConnectResult(p, note) == Fail(AlreadyConnectedOrLocked)
    ensures forall t :: Clicked(t) in ConnectTrace(url, note, p) ==> t == MoreActions
  {
    assert ClickTrace(note, p) == [];
    assert ConnectTrace(url, note, p) == [Visited(url)] + (MenuTrace(p) + []);
  }

  /** An empty note skips the note dialog entirely. */
  lemma EmptyNoteSkipsDialog(url: string, p: ProfilePage)
    ensures Clicked(AddNoteButton) !in ConnectTrace(url, "", p)
    ensures forall text :: Typed(NoteArea, text) !in ConnectTrace(url, "", p)
  {
    if p.navOk && p.buttons.Some? {
      assert NoteTrace(p, "") == [];
      assert InviteTrace(p, "") == [Paused(1000)] + [] + SendTrace(p);
      if Chosen(p).Some? {
        var c := Chosen(p).value;
        assert c.PageButton? || c.MenuItem?;
        assert Clicked(AddNoteButton) !in [Clicked(c)];
      }
      assert Clicked(AddNoteButton) !in ClickTrace("", p);
      assert forall text :: Typed(NoteArea, text) !in ClickTrace("", p);
      assert ConnectTrace(url, "", p) == [Visited(url)] + (MenuTrace(p) + ClickTrace("", p));
    }
  }

  /** The note dialog never decides the result: a missing "Add a note" button or
      textarea, or a note that cannot be typed, changes nothing but the actions. */
  lemma NoteIsOptional(p: ProfilePage, note: string, addNote: Control, noteArea: Control, other: string)
    ensures ConnectResult(p.(addNote := addNote, noteArea := noteArea), note) == ConnectResult(p, note)
    ensures ConnectResult(p, other) == ConnectResult(p, note)
  {
  }

  /** Once the Connect click succeeds, the Send button decides: missing is an error,
      otherwise the result is that of clicking it. */
  lemma SendDecides(p: ProfilePage, note: string)
    requires p.navOk && p.buttons.Some? && Chosen(p).Some? && p.connectClickOk
    ensures p.send.Missing? ==> ConnectResult(p, note) == Fail(SendNotFound)
    ensures p.send.Present? ==> (ConnectResult(p, note).Pass? <==> p.send.works)
  {
  }

  /** A successful request clicked the chosen Connect button and then Send. */
  lemma SuccessClickedConnectAndSend(url: string, note: string, p: ProfilePage)
    requires ConnectResult(p, note).Pass?
    ensures p.buttons.Some? && Chosen(p).Some?
    ensures Clicked(Chosen(p).value) in ConnectTrace(url, note, p)
    ensures ConnectTrace(url, note, p)[|ConnectTrace(url, note, p)| - 1] == Clicked(SendButton)
  {
    var c := Chosen(p).value;
    var t := ConnectTrace(url, note, p);
    var invite := InviteTrace(p, note);
    assert invite == ([Paused(1000)] + NoteTrace(p, note)) + [Clicked(SendButton)];
    assert t == [Visited(url)] + (MenuTrace(p) + ([Clicked(c)] + invite));
    assert t[1 + |MenuTrace(p)|] == Clicked(c);
    assert t[|t| - 1] == invite[|invite| - 1];
  }
}
