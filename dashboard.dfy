/**
 * frontend/src/pages/Dashboard.jsx: the search and status filter over the loaded notes, and
 * the list updates the create, update and delete handlers make once the API has answered.
 */
module Dashboard {

  import opened Wrappers
  import opened Seqs
  import opened Text
  import opened ClientModel

  /**
   * The text test: a term that is blank after trimming passes every note; otherwise the
   * lower-cased, untrimmed term must occur in the lower-cased title, content, or either,
   * as `searchFilter` says ('all' and any unknown filter mean either).
   */
  predicate MatchesSearch(n: ClientNote, term: string, searchFilter: string) {
    var needle := Lower(term);
    var titleMatch := Contains(Lower(n.title.GetOr("")), needle);
    var contentMatch := Contains(Lower(n.content.GetOr("")), needle);
    if Trim(term) == "" then true
    else if searchFilter == "title" then titleMatch
    else if searchFilter == "content" then contentMatch
    else titleMatch || contentMatch
  }

  /** The status test: 'all' passes every note, anything else must equal the note's status. */
  predicate MatchesStatus(n: ClientNote, statusFilter: string) {
    statusFilter == "all" || n.status == Some(statusFilter)
  }

  predicate Shown(n: ClientNote, term: string, searchFilter: string, statusFilter: string) {
    MatchesSearch(n, term, searchFilter) && MatchesStatus(n, statusFilter)
  }

  /** `filteredNotes`: the notes passing both tests, in their original order. */
  function FilteredNotes(notes: seq<ClientNote>, term: string, searchFilter: string, statusFilter: string)
    : (r: seq<ClientNote>)
    ensures forall n :: n in r <==> n in notes && Shown(n, term, searchFilter, statusFilter)
    ensures IsSubsequence(r, notes)
    ensures forall n :: multiset(r)[n] == if Shown(n, term, searchFilter, statusFilter) then multiset(notes)[n] else 0
  {
    FilterIsSubsequence(notes, (n: ClientNote) => Shown(n, term, searchFilter, statusFilter));
    FilterMultiplicity(notes, (n: ClientNote) => Shown(n, term, searchFilter, statusFilter));
    Filter(notes, (n: ClientNote) => Shown(n, term, searchFilter, statusFilter))
  }

  /** With a blank term and status 'all', every note is shown, in order. */
  lemma {:induction false} NoFilterShowsAll(notes: seq<ClientNote>, term: string, searchFilter: string)
    requires Blank(term)
    ensures FilteredNotes(notes, term, searchFilter, "all") == notes
  {
    FilterAll(notes, (n: ClientNote) => Shown(n, term, searchFilter, "all"));
  }

  /** An unknown search filter behaves like 'all'. */
  lemma UnknownFilterIsAll(n: ClientNote, term: string, searchFilter: string)
    requires searchFilter != "title" && searchFilter != "content"
    ensures MatchesSearch(n, term, searchFilter) == MatchesSearch(n, term, "all")
  {
  }

  /**
   * Case does not matter: two terms with the same lower-case form, against notes whose titles
   * and contents have the same lower-case forms, match alike under every filter.
   */
  lemma MatchIgnoresCase(n: ClientNote, m: ClientNote, term: string, other: string, searchFilter: string)
    requires Lower(term) == Lower(other)
    requires Lower(n.title.GetOr("")) == Lower(m.title.GetOr(""))
    requires Lower(n.content.GetOr("")) == Lower(m.content.GetOr(""))
    ensures MatchesSearch(n, term, searchFilter) == MatchesSearch(m, other, searchFilter)
  {
    BlankLower(term);
    BlankLower(other);
    var t1, t2 := Trim(term), Trim(other);
    assert (t1 == "") == (t2 == "");
    var title1, title2 := Contains(Lower(n.title.GetOr("")), Lower(term)), Contains(Lower(m.title.GetOr("")), Lower(other));
    var content1, content2 := Contains(Lower(n.content.GetOr("")), Lower(term)), Contains(Lower(m.content.GetOr("")), Lower(other));
    assert title1 == title2 && content1 == content2;
  }

  /** In particular a term and its lower-case form match the same notes. */
  lemma MatchLowerTerm(n: ClientNote, term: string, searchFilter: string)
    ensures MatchesSearch(n, term, searchFilter) == MatchesSearch(n, Lower(term), searchFilter)
  {
    LowerIdempotent(term);
    MatchIgnoresCase(n, n, term, Lower(term), searchFilter);
  }

  /** `prevNotes.map(note => note.id === noteId ? updatedNote : note)`. */
  function ReplaceById(notes: seq<ClientNote>, id: string, updated: ClientNote): (r: seq<ClientNote>)
    ensures |r| == |notes|
    ensures forall k :: 0 <= k < |notes| ==> r[k] == if notes[k].id == id then updated else notes[k]
  {
    if notes == [] then [] else [if notes[0].id == id then updated else notes[0]] + ReplaceById(notes[1..], id, updated)
  }

  /** `notes.filter(note => note.id !== noteId)`. */
  function RemoveById(notes: seq<ClientNote>, id: string): (r: seq<ClientNote>)
    ensures forall n :: n in r <==> n in notes && n.id != id
    ensures IsSubsequence(r, notes)
    ensures forall n :: multiset(r)[n] == if n.id != id then multiset(notes)[n] else 0
  {
    FilterIsSubsequence(notes, (n: ClientNote) => n.id != id);
    FilterMultiplicity(notes, (n: ClientNote) => n.id != id);
    Filter(notes, (n: ClientNote) => n.id != id)
  }

  /** Deleting a note that was just replaced leaves no trace of either version. */
  lemma ReplaceThenRemove(notes: seq<ClientNote>, id: string, updated: ClientNote)
    requires updated.id == id
    ensures RemoveById(ReplaceById(notes, id, updated), id) == RemoveById(notes, id)
  {
    ReplaceThenRemoveAt(notes, id, updated);
  }

  lemma {:induction false} ReplaceThenRemoveAt(notes: seq<ClientNote>, id: string, updated: ClientNote)
    requires updated.id == id
    ensures Filter(ReplaceById(notes, id, updated), (n: ClientNote) => n.id != id) == Filter(notes, (n: ClientNote) => n.id != id)
  {
    if notes != [] {
      ReplaceThenRemoveAt(notes[1..], id, updated);
      var r := ReplaceById(notes, id, updated);
      assert r[1..] == ReplaceById(notes[1..], id, updated);
    }
  }

  class DashboardState {
    var notes: seq<ClientNote>
    var error: string
    var showCreateForm: bool
    var editingNote: Option<ClientNote>

    constructor ()
      ensures notes == [] && error == "" && !showCreateForm && editingNote.None?
    {
      notes := [];
      error := "";
      showCreateForm := false;
      editingNote := None;
    }

    /** `handleCreateNote`: the created note goes first; on failure only the error changes. */
    method HandleCreateNote(created: ApiResult<ClientNote>)
      modifies this
      ensures created.Success? ==> notes == [created.value] + old(notes) && !showCreateForm && error == ""
      ensures created.Success? ==> editingNote == old(editingNote)
      ensures created.Failure? ==> notes == old(notes) && showCreateForm == old(showCreateForm) &&
                                   editingNote == old(editingNote) &&
                                   error == ErrorText("Error al crear la nota: ", created.message)
    {
      match created
      case Success(n) =>
        notes := [n] + notes;
        showCreateForm := false;
        error := "";
      case Failure(m) =>
        error := ErrorText("Error al crear la nota: ", m);
    }

    /** `handleUpdateNote`: every note with that id becomes the updated note; on failure only the error changes. */
    method HandleUpdateNote(id: string, updated: ApiResult<ClientNote>)
      modifies this
      ensures updated.Success? ==> notes == ReplaceById(old(notes), id, updated.value) && editingNote.None? && error == ""
      ensures updated.Success? ==> showCreateForm == old(showCreateForm)
      ensures updated.Failure? ==> notes == old(notes) && editingNote == old(editingNote) &&
                                   showCreateForm == old(showCreateForm) &&
                                   error == ErrorText("Error al actualizar la nota: ", updated.message)
    {
      match updated
      case Success(n) =>
        notes := ReplaceById(notes, id, n);
        editingNote := None;
        error := "";
      case Failure(m) =>
        error := ErrorText("Error al actualizar la nota: ", m);
    }

    /**
     * `handleDeleteNote`: nothing at all unless the user confirms; then the notes with that id
     * are removed once the API succeeds, and only the error is set when it fails.
     */
    method HandleDeleteNote(id: string, confirmed: bool, deleted: ApiResult<()>)
      modifies this
      ensures !confirmed ==> notes == old(notes) && error == old(error)
      ensures confirmed && deleted.Success? ==> notes == RemoveById(old(notes), id) && error == old(error)
      ensures confirmed && deleted.Failure? ==> notes == old(notes) &&
                                                error == ErrorText("Error al eliminar la nota: ", deleted.message)
      ensures showCreateForm == old(showCreateForm) && editingNote == old(editingNote)
    {
      if !confirmed {
        return;
      }
      match deleted
      case Success(_) =>
        notes := RemoveById(notes, id);
      case Failure(m) =>
        error := ErrorText("Error al eliminar la nota: ", m);
    }
  }
}
