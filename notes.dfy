/**
 * The note list of the application root: creating a note puts it at the
 * front, deleting removes every note with the given id, every change is
 * written back to local storage as one value, and the visible list is a
 * case-insensitive substring search over note contents.
 */
module Notes {
  import opened Wrappers
  import opened Seqs
  import opened Text
  import Capture

  /** One note. The creation date is kept as an opaque timestamp. */
  datatype Note = Note(id: string, date: int, content: string)

  /** Some note in `notes` carries `id`. */
  predicate IdUsed(notes: seq<Note>, id: string)
  {
    exists i :: 0 <= i < |notes| && notes[i].id == id
  }

  /** No two notes share an id. */
  ghost predicate UniqueIds(notes: seq<Note>)
  {
    forall i, j :: 0 <= i < j < |notes| ==> notes[i].id != notes[j].id
  }

  // ---------------------------------------------------------------- create

  /** The list after creating `note`: `[newNote, ...notes]`. */
  function Prepend(note: Note, notes: seq<Note>): (r: seq<Note>)
    ensures |r| == |notes| + 1
    ensures r[0] == note && r[1..] == notes
  {
    [note] + notes
  }

  /** A fresh id keeps the ids unique. */
  lemma PrependKeepsIdsUnique(note: Note, notes: seq<Note>)
    requires UniqueIds(notes) && !IdUsed(notes, note.id)
    ensures UniqueIds(Prepend(note, notes))
  {
    var r := Prepend(note, notes);
    forall i, j | 0 <= i < j < |r| ensures r[i].id != r[j].id {
      if i == 0 {
        assert r[j] == notes[j - 1];
      } else {
        assert r[i] == notes[i - 1] && r[j] == notes[j - 1];
      }
    }
  }

  // ---------------------------------------------------------------- delete

  /** The filter predicate of a deletion: keep notes whose id differs. */
  function KeepsOther(id: string): Note -> bool
  {
    (note: Note) => note.id != id
  }

  /** The list after deleting `id`: `notes.filter(note => note.id !== id)`. */
  function RemoveId(notes: seq<Note>, id: string): (r: seq<Note>)
    ensures IsSubsequence(r, notes)
    ensures forall n :: n in r <==> n in notes && n.id != id
    ensures forall n :: multiset(r)[n] == if n.id != id then multiset(notes)[n] else 0
  {
    FilterIsSubsequence(KeepsOther(id), notes);
    forall n ensures multiset(Filter(KeepsOther(id), notes))[n] == if n.id != id then multiset(notes)[n] else 0 {
      FilterCount(KeepsOther(id), notes, n);
    }
    Filter(KeepsOther(id), notes)
  }

  /** Deleting an id that no note carries changes nothing. */
  lemma RemoveAbsentId(notes: seq<Note>, id: string)
    requires !IdUsed(notes, id)
    ensures RemoveId(notes, id) == notes
  {
    FilterAllKept(KeepsOther(id), notes);
  }

  /** Deleting the same id twice is deleting it once. */
  lemma RemoveIdIdempotent(notes: seq<Note>, id: string)
    ensures RemoveId(RemoveId(notes, id), id) == RemoveId(notes, id)
  {
    FilterIdempotent(KeepsOther(id), notes);
  }

  /** Splitting the head off a list with unique ids. */
  lemma UniqueIdsTail(notes: seq<Note>)
    requires UniqueIds(notes) && notes != []
    ensures UniqueIds(notes[1..]) && !IdUsed(notes[1..], notes[0].id)
  {
    var rest := notes[1..];
    forall i, j | 0 <= i < j < |rest| ensures rest[i].id != rest[j].id {
      assert rest[i] == notes[i + 1] && rest[j] == notes[j + 1];
    }
    forall i | 0 <= i < |rest| ensures rest[i].id != notes[0].id {
      assert rest[i] == notes[i + 1];
    }
  }

  /** With unique ids, deleting a present id removes exactly one note. */
  lemma {:induction false} RemoveUniqueId(notes: seq<Note>, id: string)
    requires UniqueIds(notes) && IdUsed(notes, id)
    ensures |RemoveId(notes, id)| == |notes| - 1
    decreases |notes|
  {
    var rest := notes[1..];
    UniqueIdsTail(notes);
    if notes[0].id == id {
      RemoveAbsentId(rest, id);
    } else {
      var k :| 0 <= k < |notes| && notes[k].id == id;
      assert rest[k - 1] == notes[k];
      RemoveUniqueId(rest, id);
    }
  }

  /** Deleting keeps the ids unique. */
  lemma {:induction false} RemoveKeepsIdsUnique(notes: seq<Note>, id: string)
    requires UniqueIds(notes)
    ensures UniqueIds(RemoveId(notes, id))
    decreases |notes|
  {
    if notes != [] {
      var rest := notes[1..];
      UniqueIdsTail(notes);
      RemoveKeepsIdsUnique(rest, id);
      var tail := RemoveId(rest, id);
      if notes[0].id != id {
        assert !IdUsed(tail, notes[0].id) by {
          forall i | 0 <= i < |tail| ensures tail[i].id != notes[0].id {
            assert tail[i] in rest;
          }
        }
        PrependKeepsIdsUnique(notes[0], tail);
        assert RemoveId(notes, id) == Prepend(notes[0], tail);
      }
    }
  }

  // ---------------------------------------------------------------- search

  /** `note.content.toLocaleLowerCase().includes(query.toLocaleLowerCase())` */
  predicate Matches(note: Note, query: string)
  {
    Includes(LowerCase(note.content), LowerCase(query))
  }

  /** The filter predicate of a search. */
  function MatchesQuery(query: string): Note -> bool
  {
    (note: Note) => Matches(note, query)
  }

  /**
   * The visible list: every note when the query is empty, otherwise the
   * notes whose content contains the query, ignoring case. Either way the
   * result is exactly the matching notes in their original order: the
   * empty query matches every note.
   */
  function Search(notes: seq<Note>, query: string): (r: seq<Note>)
    ensures query == "" ==> r == notes
    ensures IsSubsequence(r, notes)
    ensures forall n :: n in r <==> n in notes && Matches(n, query)
    ensures forall n :: multiset(r)[n] == if Matches(n, query) then multiset(notes)[n] else 0
  {
    FilterIsSubsequence(MatchesQuery(query), notes);
    forall n ensures multiset(Filter(MatchesQuery(query), notes))[n] == if Matches(n, query) then multiset(notes)[n] else 0 {
      FilterCount(MatchesQuery(query), notes, n);
    }
    if query == "" then
      FilterAllKept(MatchesQuery(query), notes);
      notes
    else
      Filter(MatchesQuery(query), notes)
  }

  /** Matching ignores the case of the query. */
  lemma SearchIgnoresQueryCase(notes: seq<Note>, query: string)
    ensures Search(notes, query) == Search(notes, LowerCase(query))
  {
    LowerCaseIdempotent(query);
    if query != "" {
      assert LowerCase(query) != "";
      FilterCongruent(MatchesQuery(query), MatchesQuery(LowerCase(query)), notes);
    }
  }

  /** "milk" is found in "Buy milk". */
  lemma MilkMatchesBuyMilk(note: Note)
    requires note.content == "Buy milk"
    ensures Matches(note, "milk")
  {
    LowerCaseExamples();
    MilkInBuyMilk();
  }

  /** "bread" is not found in "Buy milk". */
  lemma BreadMissesBuyMilk(note: Note)
    requires note.content == "Buy milk"
    ensures !Matches(note, "bread")
  {
    LowerCaseExamples();
    BreadNotInBuyMilk();
  }

  /** Create "Buy milk", search for "milk" and "bread", then delete it. */
  lemma BuyMilkScenario(id: string, date: int)
    ensures var notes := Prepend(Note(id, date, "Buy milk"), []);
      Search(notes, "milk") == notes && Search(notes, "bread") == [] && RemoveId(notes, id) == []
  {
    var note := Note(id, date, "Buy milk");
    var notes := [note];
    MilkMatchesBuyMilk(note);
    assert Search(notes, "milk") == notes by {
      assert Filter(MatchesQuery("milk"), notes) == [note] + Filter(MatchesQuery("milk"), []);
    }
    BreadMissesBuyMilk(note);
    assert Search(notes, "bread") == [] by {
      assert Filter(MatchesQuery("bread"), notes) == Filter(MatchesQuery("bread"), []);
    }
    assert RemoveId(notes, id) == [] by {
      assert Filter(KeepsOther(id), notes) == Filter(KeepsOther(id), []);
    }
  }

  // ---------------------------------------------------------------- state

  /** The list restored at start-up: the stored value when there is one, otherwise empty. */
  function Load(item: Option<seq<Note>>): (r: seq<Note>)
    ensures item.None? ==> r == []
    ensures item.Some? ==> r == item.value
  {
    if item.Some? then item.value else []
  }

  /**
   * The application root's state: the note list, the value stored under the
   * key 'notes' (None while nothing has been written), and the search query.
   */
  class App {
    var notes: seq<Note>
    ghost var stored: Option<seq<Note>>
    var search: string

    /** Reloading from storage would restore the in-memory list. */
    ghost predicate RestoresNotes()
      reads this
    {
      notes == Load(stored)
    }

    /** Start-up: restore the list from storage and start with an empty query. */
    constructor (item: Option<seq<Note>>)
      ensures RestoresNotes()
      ensures notes == Load(item) && stored == item && search == ""
    {
      notes := Load(item);
      stored := item;
      search := "";
    }

    /** A new note with the given (fresh) id and date goes to the front; the whole list is stored. */
    method OnNoteCreated(content: string, id: string, date: int)
      requires !IdUsed(notes, id)
      modifies this
      ensures RestoresNotes()
      ensures notes == Prepend(Note(id, date, content), old(notes))
      ensures notes[0].content == content
      ensures stored == Some(notes)
      ensures search == old(search)
      ensures UniqueIds(old(notes)) ==> UniqueIds(notes)
    {
      var newNote := Note(id, date, content);
      if UniqueIds(notes) {
        PrependKeepsIdsUnique(newNote, notes);
      }
      var notesArray := Prepend(newNote, notes);
      notes := notesArray;
      stored := Some(notesArray);
    }

    /** Every note with the given id is removed; the whole list is stored. */
    method OnNoteDeleted(id: string)
      modifies this
      ensures RestoresNotes()
      ensures notes == RemoveId(old(notes), id)
      ensures stored == Some(notes)
      ensures search == old(search)
      ensures UniqueIds(old(notes)) ==> UniqueIds(notes)
    {
      if UniqueIds(notes) {
        RemoveKeepsIdsUnique(notes, id);
      }
      var newArrayNotes := RemoveId(notes, id);
      notes := newArrayNotes;
      stored := Some(newArrayNotes);
    }

    /** Typing in the search box replaces the query and nothing else. */
    method HandleSearch(query: string)
      modifies this
      ensures search == query
      ensures notes == old(notes) && stored == old(stored)
      ensures RestoresNotes() == old(RestoresNotes())
    {
      search := query;
    }

    /** The notes shown: those matching the current query, in list order. */
    function FilteredNotes(): (r: seq<Note>)
      reads this
      ensures search == "" ==> r == notes
      ensures IsSubsequence(r, notes)
      ensures forall n :: n in r <==> n in notes && Matches(n, search)
      ensures forall n :: multiset(r)[n] == if Matches(n, search) then multiset(notes)[n] else 0
    {
      Search(notes, search)
    }
  }

  /**
   * The new-note card wired to the root: saving a non-empty buffer creates a
   * note from it, saving an empty buffer creates nothing.
   */
  method SubmitNote(card: Capture.NewCard, app: App, id: string, date: int)
    requires !IdUsed(app.notes, id)
    modifies card, app
    ensures card.State() == Capture.SaveNote(old(card.State())).state
    ensures old(card.content) == "" ==> app.notes == old(app.notes) && app.stored == old(app.stored)
    ensures old(card.content) != "" ==>
      app.notes == Prepend(Note(id, date, old(card.content)), old(app.notes)) && app.stored == Some(app.notes)
    ensures app.search == old(app.search)
  {
    var created := card.HandleSaveNote();
    if created.Some? {
      app.OnNoteCreated(created.value, id, date);
    }
  }
}
