/**
 * The state of the home page (`Home` in src/app/page.tsx): the signed-in
 * user and the stored session, the route, the search controls, the create
 * and update modals with their text buffers and the selected note, and the
 * list cache keys that successful mutations invalidate. Each server
 * response is reduced to whether it was ok.
 */
module Home {
  import opened Wrappers
  import Session
  import Feed

  const BaseUrl := "http://127.0.0.1:5000"
  const NotesPath := "/get-user-notes?userId="

  /** `${user?.id}`: without a user the template prints "undefined". */
  function IdText(user: Option<Session.Credential>): string
  {
    if user.Some? then user.value.id else "undefined"
  }

  /** `user?.id` in a request body: absent without a user. */
  function UserId(user: Option<Session.Credential>): Option<string>
  {
    if user.Some? then Some(user.value.id) else None
  }

  /** The URL the list of a user's notes is fetched from, and cached under. */
  function NotesKey(id: string): string
  {
    BaseUrl + NotesPath + id
  }

  /** Different users' lists live under different keys. */
  lemma NotesKeyInjective(a: string, b: string)
    requires NotesKey(a) == NotesKey(b)
    ensures a == b
  {
    var n := |BaseUrl + NotesPath|;
    assert NotesKey(a)[n..] == a;
    assert NotesKey(b)[n..] == b;
  }

  /** The key `useSWR` fetches the list under: none (no fetch) without a user. */
  function FetchKey(user: Option<Session.Credential>): (key: Option<string>)
    ensures key.Some? <==> user.Some?
  {
    if user.Some? then Some(NotesKey(user.value.id)) else None
  }

  /** The key a successful create, update or delete hands to `mutate`. */
  function MutationKey(user: Option<Session.Credential>): (key: string)
    ensures user.Some? ==> FetchKey(user) == Some(key)
    ensures user.None? ==> key == NotesKey("undefined")
  {
    NotesKey(IdText(user))
  }

  /** The bodies of the three mutation requests. */
  datatype Request =
    | CreateRequest(note: string, userId: Option<string>)
    | UpdateRequest(noteId: string, newNote: string, userId: Option<string>)
    | DeleteRequest(noteId: string, userId: Option<string>)

  /** Every field of the page's state, for stating what a handler leaves alone. */
  datatype State = State(
    user: Option<Session.Credential>,
    session: Option<string>,
    location: string,
    filter: string,
    genre: Feed.Genre,
    createModal: bool,
    createInput: string,
    updateModal: bool,
    updateInput: string,
    selectedNoteId: string,
    invalidated: seq<string>)

  class HomePage {
    var user: Option<Session.Credential>
    var session: Option<string>         // localStorage "session"
    var location: string                // the current route
    var filter: string                  // the search box (`input`)
    var genre: Feed.Genre               // `dateGenre`
    var createModal: bool
    var createInput: string
    var updateModal: bool
    var updateInput: string
    var selectedNoteId: string
    var invalidated: seq<string>        // the keys passed to `mutate`, oldest first

    function Snapshot(): State
      reads this
    {
      State(user, session, location, filter, genre, createModal, createInput,
            updateModal, updateInput, selectedNoteId, invalidated)
    }

    /** What the feed panel shows for the fetched `notes` at time `now`. */
    function View(notes: Option<seq<Feed.Note>>, now: int): (v: Feed.View)
      reads this
      ensures v.Listing? ==> notes.Some? && v.rows == Feed.Project(notes.value, filter, genre, now)
      ensures v == Feed.SignInPrompt <==> user.None? || notes.None?
    {
      Feed.HomeView(user, notes, filter, genre, now)
    }

    /** The page as first rendered, under the user and record the session store holds. */
    constructor (user: Option<Session.Credential>, session: Option<string>)
      ensures Snapshot() == State(user, session, "/", "", Feed.Latest, false, "", false, "", "", [])
    {
      this.user := user;
      this.session := session;
      location := "/";
      filter := "";
      genre := Feed.Latest;
      createModal := false;
      createInput := "";
      updateModal := false;
      updateInput := "";
      selectedNoteId := "";
      invalidated := [];
    }

    /** The mount-time gate: without a stored session, go to /login. */
    method Mount()
      modifies this
      ensures !Session.HasSession(session) ==> Snapshot() == old(Snapshot()).(location := "/login")
      ensures Session.HasSession(session) ==> Snapshot() == old(Snapshot())
    {
      var target := Session.HomeGate(session);
      if target.Some? {
        location := target.value;
      }
    }

    method SetFilter(text: string)
      modifies this
      ensures Snapshot() == old(Snapshot()).(filter := text)
    {
      filter := text;
    }

    method SetGenre(g: Feed.Genre)
      modifies this
      ensures Snapshot() == old(Snapshot()).(genre := g)
    {
      genre := g;
    }

    method OpenCreate()
      modifies this
      ensures Snapshot() == old(Snapshot()).(createModal := true)
    {
      createModal := true;
    }

    method EditCreateInput(text: string)
      modifies this
      ensures Snapshot() == old(Snapshot()).(createInput := text)
    {
      createInput := text;
    }

    /** The close icon of the create modal: hides it and discards its text. */
    method CloseCreate()
      modifies this
      ensures Snapshot() == old(Snapshot()).(createModal := false, createInput := "")
    {
      createModal := false;
      createInput := "";
    }

    /** "Update" on a note: select it, load its text into the buffer, open the modal. */
    method ChooseUpdate(note: Feed.Note)
      modifies this
      ensures Snapshot() == old(Snapshot()).(selectedNoteId := note.id, updateInput := note.data, updateModal := true)
    {
      selectedNoteId := note.id;
      updateInput := note.data;
      updateModal := true;
    }

    method EditUpdateInput(text: string)
      modifies this
      ensures Snapshot() == old(Snapshot()).(updateInput := text)
    {
      updateInput := text;
    }

    /** The close icon of the update modal: hides it and discards its text. */
    method CloseUpdate()
      modifies this
      ensures Snapshot() == old(Snapshot()).(updateModal := false, updateInput := "")
    {
      updateModal := false;
      updateInput := "";
    }

    /**
     * "Save changes" in the create modal. An empty buffer sends nothing;
     * any other text, whitespace included, is sent. On an ok response the
     * list key is invalidated and the modal closes with its buffer cleared;
     * otherwise nothing changes.
     */
    method CreateNote(ok: bool) returns (request: Option<Request>)
      modifies this
      ensures old(createInput) == "" ==> request == None && Snapshot() == old(Snapshot())
      ensures old(createInput) != "" ==> request == Some(CreateRequest(old(createInput), UserId(old(user))))
      ensures old(createInput) != "" && ok ==>
                Snapshot() == old(Snapshot()).(createModal := false, createInput := "",
                                               invalidated := old(invalidated) + [MutationKey(old(user))])
      ensures old(createInput) != "" && !ok ==> Snapshot() == old(Snapshot())
    {
      if createInput == "" {
        return None;
      }
      request := Some(CreateRequest(createInput, UserId(user)));
      if ok {
        invalidated := invalidated + [MutationKey(user)];
        createModal := false;
        createInput := "";
      }
    }

    /**
     * "Save changes" in the update modal: as for create, with the selected
     * note's id in the request.
     */
    method UpdateNote(ok: bool) returns (request: Option<Request>)
      modifies this
      ensures old(updateInput) == "" ==> request == None && Snapshot() == old(Snapshot())
      ensures old(updateInput) != "" ==>
                request == Some(UpdateRequest(old(selectedNoteId), old(updateInput), UserId(old(user))))
      ensures old(updateInput) != "" && ok ==>
                Snapshot() == old(Snapshot()).(updateModal := false, updateInput := "",
                                               invalidated := old(invalidated) + [MutationKey(old(user))])
      ensures old(updateInput) != "" && !ok ==> Snapshot() == old(Snapshot())
    {
      if updateInput == "" {
        return None;
      }
      request := Some(UpdateRequest(selectedNoteId, updateInput, UserId(user)));
      if ok {
        invalidated := invalidated + [MutationKey(user)];
        updateModal := false;
        updateInput := "";
      }
    }

    /** "Delete" on a note: always sent; an ok response invalidates the list key. */
    method DeleteNote(noteId: string, ok: bool) returns (request: Request)
      modifies this
      ensures request == DeleteRequest(noteId, UserId(old(user)))
      ensures ok ==> Snapshot() == old(Snapshot()).(invalidated := old(invalidated) + [MutationKey(old(user))])
      ensures !ok ==> Snapshot() == old(Snapshot())
    {
      request := DeleteRequest(noteId, UserId(user));
      if ok {
        invalidated := invalidated + [MutationKey(user)];
      }
    }

    /** "Log out": remove the stored session, go to /login, forget the user. */
    method Logout()
      modifies this
      ensures Snapshot() == old(Snapshot()).(session := None, location := "/login", user := None)
      ensures FetchKey(user) == None
    {
      session := None;
      location := "/login";
      user := None;
    }
  }
}
