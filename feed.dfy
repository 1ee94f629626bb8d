/**
 * The notes feed of the home page (src/app/page.tsx): the fetched notes
 * ordered by creation date, kept or dropped by the search filter, each kept
 * note labelled with its age; and the choice between the sign-in prompt,
 * the empty-state message and the listing.
 */
module Feed {
  import opened Wrappers
  import Session
  import Age

  /** A note as the server returns it; `date` is its creation time in milliseconds. */
  datatype Note = Note(id: string, data: string, date: int, userId: string)

  /** The two entries of the date menu. */
  datatype Genre = Latest | Oldest

  // ---------------------------------------------------------------------
  // Ordering by creation date (`_.orderBy(notes, date, "desc" | "asc")`)

  /** `x` may stand before `y`: newest first for Latest, oldest first for Oldest. */
  predicate InOrder(genre: Genre, x: Note, y: Note)
  {
    if genre == Latest then x.date >= y.date else x.date <= y.date
  }

  predicate Ordered(genre: Genre, s: seq<Note>)
  {
    forall i, j :: 0 <= i < j < |s| ==> InOrder(genre, s[i], s[j])
  }

  /** Puts `x` before the first note it may precede. */
  function Insert(genre: Genre, x: Note, s: seq<Note>): (r: seq<Note>)
    requires Ordered(genre, s)
    ensures Ordered(genre, r)
    ensures multiset(r) == multiset(s) + multiset{x}
  {
    if s == [] || InOrder(genre, x, s[0]) then [x] + s
    else
      var r' := Insert(genre, x, s[1..]);
      assert forall j :: 0 <= j < |r'| ==> InOrder(genre, s[0], r'[j]) by {
        forall j | 0 <= j < |r'| ensures InOrder(genre, s[0], r'[j]) {
          assert r'[j] in multiset(r');
          if r'[j] != x {
            assert r'[j] in multiset(s[1..]);
            var k :| 0 <= k < |s[1..]| && s[1..][k] == r'[j];
            assert s[k + 1] == r'[j];
          }
        }
      }
      assert s == [s[0]] + s[1..];
      [s[0]] + r'
  }

  /** The fetched notes in the genre's date order: a sorted permutation. */
  function OrderBy(genre: Genre, notes: seq<Note>): (r: seq<Note>)
    ensures Ordered(genre, r)
    ensures multiset(r) == multiset(notes)
  {
    if notes == [] then []
    else
      assert notes == [notes[0]] + notes[1..];
      Insert(genre, notes[0], OrderBy(genre, notes[1..]))
  }

  // ---------------------------------------------------------------------
  // The search filter

  /** `toLowerCase` on one character, for the ASCII letters. */
  function LowerChar(c: char): char
  {
    if 'A' <= c <= 'Z' then (c as int + 32) as char else c
  }

  function Lower(s: string): (r: string)
    ensures |r| == |s|
  {
    seq(|s|, i requires 0 <= i < |s| => LowerChar(s[i]))
  }

  /** `s.includes(t)`: some position of `s` starts a copy of `t`. */
  predicate Includes(s: string, t: string)
    decreases |s|
  {
    (|t| <= |s| && s[..|t|] == t) || (|s| > 0 && Includes(s[1..], t))
  }

  /** `t` occurs in `s` at position `k`. */
  predicate OccursAt(s: string, t: string, k: int)
  {
    0 <= k && k + |t| <= |s| && s[k..k + |t|] == t
  }

  lemma {:induction false} IncludesSound(s: string, t: string)
    requires Includes(s, t)
    ensures exists k :: OccursAt(s, t, k)
    decreases |s|
  {
    if |t| <= |s| && s[..|t|] == t {
      assert OccursAt(s, t, 0);
    } else {
      IncludesSound(s[1..], t);
      var k :| OccursAt(s[1..], t, k);
      assert s[1..][k..k + |t|] == s[k + 1..k + 1 + |t|];
      assert OccursAt(s, t, k + 1);
    }
  }

  lemma {:induction false} IncludesComplete(s: string, t: string, k: int)
    requires OccursAt(s, t, k)
    ensures Includes(s, t)
    decreases k
  {
    if k > 0 {
      assert s[1..][k - 1..k - 1 + |t|] == s[k..k + |t|];
      IncludesComplete(s[1..], t, k - 1);
    }
  }

  /** `includes` agrees with the positional definition of a substring. */
  lemma IncludesIff(s: string, t: string)
    ensures Includes(s, t) <==> exists k :: OccursAt(s, t, k)
  {
    if Includes(s, t) {
      IncludesSound(s, t);
    }
    if k :| OccursAt(s, t, k) {
      IncludesComplete(s, t, k);
    }
  }

  /**
   * Whether the feed renders a note: with a non-empty filter, when the
   * lower-cased text contains the lower-cased filter; with an empty filter,
   * through its own branch, always.
   */
  predicate Shown(filter: string, note: Note)
  {
    (filter != "" && Includes(Lower(note.data), Lower(filter))) || filter == ""
  }

  /** The notes of `s` that the feed renders, in the order of `s`. */
  function Keep(filter: string, s: seq<Note>): (r: seq<Note>)
    ensures forall x :: multiset(r)[x] == if Shown(filter, x) then multiset(s)[x] else 0
  {
    if s == [] then []
    else
      assert s == [s[0]] + s[1..];
      (if Shown(filter, s[0]) then [s[0]] else []) + Keep(filter, s[1..])
  }

  /** With a non-empty filter, a note is rendered iff its text contains the filter, ignoring case. */
  lemma KeepMembers(filter: string, s: seq<Note>, x: Note)
    requires filter != ""
    ensures x in Keep(filter, s) <==> x in s && exists k :: OccursAt(Lower(x.data), Lower(filter), k)
  {
    assert x in Keep(filter, s) <==> x in multiset(Keep(filter, s));
    assert x in s <==> x in multiset(s);
    IncludesIff(Lower(x.data), Lower(filter));
  }

  /** An empty filter renders every note, in order. */
  lemma {:induction false} KeepAll(s: seq<Note>)
    ensures Keep("", s) == s
  {
    if s != [] {
      KeepAll(s[1..]);
      assert s == [s[0]] + s[1..];
    }
  }

  /** Filtering keeps the date order. */
  lemma {:induction false} KeepOrdered(genre: Genre, filter: string, s: seq<Note>)
    requires Ordered(genre, s)
    ensures Ordered(genre, Keep(filter, s))
  {
    if s != [] {
      var rest := Keep(filter, s[1..]);
      KeepOrdered(genre, filter, s[1..]);
      if Shown(filter, s[0]) {
        forall j | 0 <= j < |rest| ensures InOrder(genre, s[0], rest[j]) {
          assert rest[j] in multiset(rest);
          var k :| 0 <= k < |s[1..]| && s[1..][k] == rest[j];
          assert s[k + 1] == rest[j];
        }
      }
    }
  }

  lemma LowerIdempotent(s: string)
    ensures Lower(Lower(s)) == Lower(s)
  {
  }

  /** The filter itself is compared case-insensitively: lower-casing it changes nothing. */
  lemma FilterIgnoresCase(filter: string, note: Note)
    ensures Shown(filter, note) == Shown(Lower(filter), note)
  {
    LowerIdempotent(filter);
  }

  // ---------------------------------------------------------------------
  // The projection and the choice of what the feed shows

  /** A rendered note and its relative-age label. */
  datatype Row = Row(note: Note, age: string)

  function Labelled(notes: seq<Note>, now: int): (rows: seq<Row>)
    ensures |rows| == |notes|
  {
    seq(|notes|, i requires 0 <= i < |notes| => Row(notes[i], Age.TimeSincePostCreation(notes[i].date, now)))
  }

  function NotesOf(rows: seq<Row>): (notes: seq<Note>)
    ensures |notes| == |rows|
  {
    seq(|rows|, i requires 0 <= i < |rows| => rows[i].note)
  }

  /** Order by date, keep by the filter, label by age: the listing's rows. */
  function Project(notes: seq<Note>, filter: string, genre: Genre, now: int): seq<Row>
  {
    Labelled(Keep(filter, OrderBy(genre, notes)), now)
  }

  /**
   * The listing is in date order; it holds every fetched note the filter
   * admits, as often as it was fetched, and nothing else; each row's label is
   * its note's age.
   */
  lemma ProjectSpec(notes: seq<Note>, filter: string, genre: Genre, now: int)
    ensures Ordered(genre, NotesOf(Project(notes, filter, genre, now)))
    ensures forall x :: multiset(NotesOf(Project(notes, filter, genre, now)))[x] ==
                        if Shown(filter, x) then multiset(notes)[x] else 0
    ensures forall row :: row in Project(notes, filter, genre, now) ==>
                          row.age == Age.TimeSincePostCreation(row.note.date, now)
  {
    var kept := Keep(filter, OrderBy(genre, notes));
    assert NotesOf(Labelled(kept, now)) == kept;
    KeepOrdered(genre, filter, OrderBy(genre, notes));
  }

  /** With an empty filter, the listing is the whole fetch, sorted. */
  lemma ProjectEmptyFilter(notes: seq<Note>, genre: Genre, now: int)
    ensures NotesOf(Project(notes, "", genre, now)) == OrderBy(genre, notes)
    ensures multiset(NotesOf(Project(notes, "", genre, now))) == multiset(notes)
  {
    KeepAll(OrderBy(genre, notes));
    assert NotesOf(Labelled(OrderBy(genre, notes), now)) == OrderBy(genre, notes);
  }

  /** What the feed panel shows. */
  datatype View = SignInPrompt | EmptyPrompt | Listing(rows: seq<Row>)

  /** `notes && user ? (notes.length >= 1 ? listing : empty) : sign-in prompt`. */
  function HomeView(user: Option<Session.Credential>, notes: Option<seq<Note>>, filter: string, genre: Genre, now: int): View
  {
    if notes.None? || user.None? then SignInPrompt
    else if |notes.value| >= 1 then Listing(Project(notes.value, filter, genre, now))
    else EmptyPrompt
  }

  /**
   * The three branches: no user or no data gives the sign-in prompt, an empty
   * fetch the empty-state message, anything else the projection.
   */
  lemma ViewBranches(user: Option<Session.Credential>, notes: Option<seq<Note>>, filter: string, genre: Genre, now: int)
    ensures HomeView(user, notes, filter, genre, now) == SignInPrompt <==> user.None? || notes.None?
    ensures HomeView(user, notes, filter, genre, now) == EmptyPrompt <==> user.Some? && notes == Some([])
    ensures HomeView(user, notes, filter, genre, now).Listing? ==>
              notes.Some? && |notes.value| > 0 &&
              HomeView(user, notes, filter, genre, now).rows == Project(notes.value, filter, genre, now)
  {
  }

  /**
   * A fetch whose notes the filter all rejects shows an empty listing, not
   * the empty-state message.
   */
  lemma FilteredOutIsBlankListing(user: Session.Credential, notes: seq<Note>, filter: string, genre: Genre, now: int)
    requires |notes| > 0
    requires forall x :: x in notes ==> !Shown(filter, x)
    ensures HomeView(Some(user), Some(notes), filter, genre, now) == Listing([])
  {
    ProjectSpec(notes, filter, genre, now);
  }
}
