/**
 * The handlers of backend/app/routers/notes.py. The notes table is a `seq<Note>`; a query that
 * raises is modelled by a `fault` parameter holding the exception text, and a query whose
 * execution is left to Supabase (the filtered page, the insert) by its `Call` result.
 * `userId` is the subject the authentication dependency extracted.
 */
module NotesRouter {

  import opened Wrappers
  import opened Seqs
  import opened Http
  import opened NoteModel
  import opened Ordering

  const NotFound: HttpError := HttpError(404, "Nota no encontrada", false)

  /** The rows of `select("*").eq("id", noteId).eq("user_id", userId)`, in table order. */
  function OwnedMatches(store: seq<Note>, noteId: string, userId: string): (rows: seq<Note>)
    ensures forall n :: n in rows <==> n in store && n.id == noteId && n.userId == userId
  {
    Filter(store, (n: Note) => n.id == noteId && n.userId == userId)
  }

  predicate Owns(store: seq<Note>, noteId: string, userId: string) {
    exists n :: n in store && n.id == noteId && n.userId == userId
  }

  /** The ownership check finds rows exactly when the user owns a note with that id. */
  lemma OwnedMatchesNonEmpty(store: seq<Note>, noteId: string, userId: string)
    ensures OwnedMatches(store, noteId, userId) != [] <==> Owns(store, noteId, userId)
  {
    var rows := OwnedMatches(store, noteId, userId);
    if rows != [] {
      assert rows[0] in rows;
    }
  }

  // ---------------------------------------------------------------- create_note

  /** The row `create_note` inserts. Both timestamps are separate `utcnow()` readings. */
  datatype NoteRecord = NoteRecord(title: string, content: string, userId: string, status: string,
                                   tags: seq<string>, createdAt: int, updatedAt: int)

  /** The inserted row: owned by the authenticated user, tags `[]` when sent as null. */
  function CreateRecord(data: NoteBase, userId: string, createdAt: int, updatedAt: int): (r: NoteRecord)
    ensures r.userId == userId
    ensures r.tags == if data.tags.Some? then data.tags.value else []
    ensures ParseStatus(r.status) == Some(data.status)
    ensures r.title == data.title && r.content == data.content
    ensures r.createdAt == createdAt && r.updatedAt == updatedAt
  {
    NoteRecord(data.title, data.content, userId, StatusValue(data.status),
               data.tags.GetOr([]), createdAt, updatedAt)
  }

  const CreateFailed: HttpError := HttpError(400, "Error al crear la nota", false)

  /** `str()` of the empty-insert 400, as the blanket handler reads it. */
  lemma DescribeCreateFailed()
    ensures Describe(HttpException(CreateFailed)) == "400: " + CreateFailed.detail
    ensures InternalPrefix + Describe(HttpException(CreateFailed)) == InternalPrefix + "400: " + CreateFailed.detail
  {
    assert Digit(4) == '4' && Digit(0) == '0';
    assert Decimal(4) == "4";
    assert Decimal(40) == Decimal(4) + [Digit(0)];
    assert Decimal(400) == Decimal(40) + [Digit(0)];
    assert Decimal(400) + ": " == "400: ";
  }

  function CreateBody(insert: Call<seq<Note>>): Body<Note> {
    match insert
    case Threw(m) => Raise(OtherException(m))
    case Returned(rows) =>
      if rows == [] then Raise(HttpException(CreateFailed))
      else Return(rows[0])
  }

  /**
   * `create_note`: inserts `CreateRecord`'s row for the authenticated user, stamped with the two
   * clock readings, and answers with the first row the insert returns. `insert` is what the
   * table does with a row. Its only handler is a blanket `except Exception`, so the 400 it raises
   * for an empty insert result is caught and comes out as 500.
   */
  function CreateNote(data: NoteBase, userId: string, createdAt: int, updatedAt: int,
                      insert: NoteRecord -> Call<seq<Note>>): (r: Response<Note>)
    ensures r.Fail? ==> r.error.status == 500
    ensures var result := insert(CreateRecord(data, userId, createdAt, updatedAt));
            && (result == Returned([]) ==> r == Fail(InternalError(InternalPrefix + "400: " + CreateFailed.detail)))
            && (result.Returned? && result.value != [] ==> r == Ok(result.value[0]))
            && (result.Threw? ==> r == Fail(InternalError(InternalPrefix + result.message)))
  {
    var result := insert(CreateRecord(data, userId, createdAt, updatedAt));
    DescribeCreateFailed();
    CatchAll(CreateBody(result), InternalPrefix)
  }

  // ---------------------------------------------------------------- get_notes

  /** One step of the Supabase query builder. */
  datatype Clause = Eq(column: string, value: string) | OrFilter(filter: string)
                  | OrderBy(column: string, descending: bool) | Range(first: int, last: int)

  /** The `or_` filter of a search: title or content `ilike` `%search%`. */
  function SearchFilter(search: string): string {
    "title.ilike.%" + search + "%,content.ilike.%" + search + "%"
  }

  /** FastAPI's query validation: `limit <= 100` and `offset >= 0`; anything else is refused with 422. */
  predicate ValidPage(limit: int, offset: int) {
    limit <= 100 && offset >= 0
  }

  /**
   * What the query of `get_notes` is, in this order: the owner, a status condition exactly when
   * a status is given, the title/content search exactly for a non-empty term, newest first, then
   * the inclusive range, and nothing else.
   */
  ghost predicate DescribesQuery(query: seq<Clause>, userId: string, status: Option<NoteStatus>, search: Option<string>,
                           limit: int, offset: int) {
    && |query| == 3 + (if status.Some? then 1 else 0) + (if search.Some? && search.value != "" then 1 else 0)
    && query[0] == Eq("user_id", userId)
    && query[|query| - 2] == OrderBy("updated_at", true)
    && query[|query| - 1] == Range(offset, offset + limit - 1)
    && ((exists v :: Eq("status", v) in query) <==> status.Some?)
    && (status.Some? ==> query[1] == Eq("status", StatusValue(status.value)))
    && ((exists f :: OrFilter(f) in query) <==> (search.Some? && search.value != ""))
    && (search.Some? && search.value != "" ==>
          query[1 + (if status.Some? then 1 else 0)] == OrFilter(SearchFilter(search.value)))
  }

  /** The query `get_notes` builds by reassignment. */
  method BuildNotesQuery(userId: string, status: Option<NoteStatus>, search: Option<string>,
                         limit: int, offset: int) returns (query: seq<Clause>)
    ensures DescribesQuery(query, userId, status, search, limit, offset)
  {
    query := [Eq("user_id", userId)];
    ghost var statusPart: seq<Clause> := [];
    if status.Some? {
      query := query + [Eq("status", StatusValue(status.value))];
      statusPart := [Eq("status", StatusValue(status.value))];
    }
    ghost var searchPart: seq<Clause> := [];
    if search.Some? && search.value != "" {
      query := query + [OrFilter(SearchFilter(search.value))];
      searchPart := [OrFilter(SearchFilter(search.value))];
    }
    query := query + [OrderBy("updated_at", true)];
    query := query + [Range(offset, offset + limit - 1)];
    QueryShape(userId, status, search, limit, offset, statusPart, searchPart);
  }

  lemma QueryShape(userId: string, status: Option<NoteStatus>, search: Option<string>, limit: int, offset: int,
                   statusPart: seq<Clause>, searchPart: seq<Clause>)
    requires statusPart == if status.Some? then [Eq("status", StatusValue(status.value))] else []
    requires searchPart == if search.Some? && search.value != "" then [OrFilter(SearchFilter(search.value))] else []
    ensures DescribesQuery([Eq("user_id", userId)] + statusPart + searchPart +
                           [OrderBy("updated_at", true)] + [Range(offset, offset + limit - 1)],
                           userId, status, search, limit, offset)
  {
    var tail := [OrderBy("updated_at", true)] + [Range(offset, offset + limit - 1)];
    var query := [Eq("user_id", userId)] + statusPart + searchPart + tail;
    assert query == [Eq("user_id", userId)] + (statusPart + searchPart + tail);
    forall c | c in query
      ensures c.Eq? ==> c == Eq("user_id", userId) || c in statusPart
      ensures c.OrFilter? ==> c in searchPart
    {
    }
    if status.Some? {
      assert query[1] == statusPart[0];
    }
    if search.Some? && search.value != "" {
      assert query[1 + |statusPart|] == searchPart[0];
    }
  }

  const QueryRejected: HttpError := HttpError(422, "", false)

  /**
   * `get_notes`: a page outside the bounds is refused before the handler runs; otherwise the
   * query is built and sent, and its rows returned as they come, any exception becoming 500.
   * `execute` is what the table answers to a query.
   */
  method GetNotes(userId: string, status: Option<NoteStatus>, search: Option<string>, limit: int, offset: int,
                  execute: seq<Clause> -> Call<seq<Note>>) returns (r: Response<seq<Note>>, sent: Option<seq<Clause>>)
    ensures !ValidPage(limit, offset) ==> r == Fail(QueryRejected) && sent == None
    ensures ValidPage(limit, offset) ==> sent.Some? && DescribesQuery(sent.value, userId, status, search, limit, offset)
    ensures ValidPage(limit, offset) && execute(sent.value).Returned? ==> r == Ok(execute(sent.value).value)
    ensures ValidPage(limit, offset) && execute(sent.value).Threw? ==>
              r == Fail(InternalError(InternalPrefix + execute(sent.value).message))
  {
    if !ValidPage(limit, offset) {
      return Fail(QueryRejected), None;
    }
    var query := BuildNotesQuery(userId, status, search, limit, offset);
    sent := Some(query);
    r := CatchAll(match execute(query) case Threw(m) => Raise(OtherException(m)) case Returned(rows) => Return(rows),
                  InternalPrefix);
  }

  // ---------------------------------------------------------------- get_note

  function GetNoteBody(store: seq<Note>, noteId: string, userId: string, fault: Option<string>): Body<Note> {
    if fault.Some? then Raise(OtherException(fault.value))
    else
      var rows := OwnedMatches(store, noteId, userId);
      if rows == [] then Raise(HttpException(NotFound)) else Return(rows[0])
  }

  /** `get_note`: the user's note with that id, 404 when the user owns none, 500 when the query raises. */
  function GetNote(store: seq<Note>, noteId: string, userId: string, fault: Option<string>): (r: Response<Note>)
    ensures r.Ok? ==> r.value in store && r.value.id == noteId && r.value.userId == userId
    ensures fault.None? ==> (r.Ok? <==> Owns(store, noteId, userId))
    ensures fault.None? && !Owns(store, noteId, userId) ==> r == Fail(NotFound)
    ensures fault.Some? ==> r == Fail(InternalError(InternalPrefix + fault.value))
  {
    var rows := OwnedMatches(store, noteId, userId);
    assert rows != [] ==> rows[0] in rows;
    ReRaiseHttp(GetNoteBody(store, noteId, userId, fault), InternalPrefix)
  }

  // ---------------------------------------------------------------- update_note

  /** A value of the `update_data` dictionary. */
  datatype FieldValue = Text(s: string) | TagList(tags: seq<string>) | Timestamp(t: int)

  /**
   * `update_data` for an update: `updated_at` always, and exactly the fields the update gives
   * (compared with `is not None`, so an empty title or an empty tag list is still written).
   */
  predicate DescribesUpdate(data: map<string, FieldValue>, upd: NoteUpdate, now: int) {
    && data.Keys == {"updated_at"} + (if upd.title.Some? then {"title"} else {})
                                   + (if upd.content.Some? then {"content"} else {})
                                   + (if upd.status.Some? then {"status"} else {})
                                   + (if upd.tags.Some? then {"tags"} else {})
    && data["updated_at"] == Timestamp(now)
    && (upd.title.Some? ==> data["title"] == Text(upd.title.value))
    && (upd.content.Some? ==> data["content"] == Text(upd.content.value))
    && (upd.status.Some? ==> data["status"] == Text(StatusValue(upd.status.value)))
    && (upd.tags.Some? ==> data["tags"] == TagList(upd.tags.value))
  }

  /** Builds `update_data` field by field, as the handler does. */
  method BuildUpdateData(upd: NoteUpdate, now: int) returns (data: map<string, FieldValue>)
    ensures DescribesUpdate(data, upd, now)
  {
    data := map["updated_at" := Timestamp(now)];
    if upd.title.Some? {
      data := data["title" := Text(upd.title.value)];
    }
    if upd.content.Some? {
      data := data["content" := Text(upd.content.value)];
    }
    if upd.status.Some? {
      data := data["status" := Text(StatusValue(upd.status.value))];
    }
    if upd.tags.Some? {
      data := data["tags" := TagList(upd.tags.value)];
    }
  }

  /** What the table does with a row when `update(data)` reaches it: each given column is overwritten. */
  function ApplyUpdateData(n: Note, data: map<string, FieldValue>): Note {
    n.(title := if "title" in data && data["title"].Text? then data["title"].s else n.title,
       content := if "content" in data && data["content"].Text? then data["content"].s else n.content,
       status := if "status" in data && data["status"].Text? && ParseStatus(data["status"].s).Some?
                 then ParseStatus(data["status"].s).value else n.status,
       tags := if "tags" in data && data["tags"].TagList? then Some(data["tags"].tags) else n.tags,
       updatedAt := if "updated_at" in data && data["updated_at"].Timestamp? then data["updated_at"].t
                    else n.updatedAt)
  }

  /** The partial-update merge: a field the update gives replaces the stored one; the rest stay. */
  function Merged(n: Note, upd: NoteUpdate, now: int): Note {
    n.(title := upd.title.GetOr(n.title), content := upd.content.GetOr(n.content),
       status := upd.status.GetOr(n.status),
       tags := if upd.tags.Some? then upd.tags else n.tags, updatedAt := now)
  }

  /** Writing `update_data` to a row is the merge of the update. */
  lemma ApplyDescribedUpdate(n: Note, data: map<string, FieldValue>, upd: NoteUpdate, now: int)
    requires DescribesUpdate(data, upd, now)
    ensures ApplyUpdateData(n, data) == Merged(n, upd, now)
  {
    if upd.status.Some? {
      assert ParseStatus(StatusValue(upd.status.value)) == Some(upd.status.value);
    }
  }

  /** `update(data).eq("id", noteId)` over the table. */
  function UpdateRows(store: seq<Note>, noteId: string, data: map<string, FieldValue>): (s: seq<Note>)
    ensures |s| == |store|
    ensures forall k :: 0 <= k < |store| ==>
              s[k] == if store[k].id == noteId then ApplyUpdateData(store[k], data) else store[k]
  {
    if store == [] then []
    else [if store[0].id == noteId then ApplyUpdateData(store[0], data) else store[0]]
         + UpdateRows(store[1..], noteId, data)
  }

  /** The table after the update: every row with that id merged, every other row as it was. */
  function MergeWhere(store: seq<Note>, noteId: string, upd: NoteUpdate, now: int): (s: seq<Note>)
    ensures |s| == |store|
  {
    seq(|store|, k requires 0 <= k < |store| => if store[k].id == noteId then Merged(store[k], upd, now) else store[k])
  }

  /** The rows an update on `noteId` returns. */
  function WithId(store: seq<Note>, noteId: string): seq<Note> {
    Filter(store, (n: Note) => n.id == noteId)
  }

  /**
   * `update_note`: 404 unless the user owns a note with that id; otherwise `update_data` is
   * written to the rows with that id and the first updated row is returned. A raising query
   * gives 500 and leaves the table as it was.
   */
  method UpdateNote(store: seq<Note>, noteId: string, userId: string, upd: NoteUpdate, now: int,
                    selectFault: Option<string>, updateFault: Option<string>)
    returns (r: Response<Note>, newStore: seq<Note>)
    ensures selectFault.Some? ==> r == Fail(InternalError(InternalPrefix + selectFault.value)) && newStore == store
    ensures selectFault.None? && !Owns(store, noteId, userId) ==> r == Fail(NotFound) && newStore == store
    ensures selectFault.None? && Owns(store, noteId, userId) && updateFault.Some? ==>
              r == Fail(InternalError(InternalPrefix + updateFault.value)) && newStore == store
    ensures selectFault.None? && Owns(store, noteId, userId) && updateFault.None? ==>
              newStore == MergeWhere(store, noteId, upd, now) && WithId(newStore, noteId) != [] &&
              r == Ok(WithId(newStore, noteId)[0])
  {
    newStore := store;
    if selectFault.Some? {
      return Fail(InternalError(InternalPrefix + selectFault.value)), store;
    }
    var existing := OwnedMatches(store, noteId, userId);
    OwnedMatchesNonEmpty(store, noteId, userId);
    if existing == [] {
      return Fail(NotFound), store;
    }
    var data := BuildUpdateData(upd, now);
    if updateFault.Some? {
      return Fail(InternalError(InternalPrefix + updateFault.value)), store;
    }
    newStore := UpdateRows(store, noteId, data);
    forall k | 0 <= k < |store|
      ensures newStore[k] == MergeWhere(store, noteId, upd, now)[k]
    {
      ApplyDescribedUpdate(store[k], data, upd, now);
    }
    var rows := WithId(newStore, noteId);
    assert existing[0] in existing;
    var k :| 0 <= k < |store| && store[k] == existing[0];
    assert newStore[k] in newStore && newStore[k].id == noteId;
    assert newStore[k] in rows;
    r := Ok(rows[0]);
  }

  /** An empty update changes nothing but `updated_at`. */
  lemma EmptyUpdateTouchesOnlyTimestamp(n: Note, now: int)
    ensures Merged(n, NoteUpdate(), now) == n.(updatedAt := now)
  {
  }

  /** A given empty title or empty tag list is written, so tags can be cleared. */
  lemma EmptyValuesAreWritten(n: Note, now: int)
    ensures Merged(n, NoteUpdate(title := Some(""), tags := Some([])), now).title == ""
    ensures Merged(n, NoteUpdate(title := Some(""), tags := Some([])), now).tags == Some([])
  {
  }

  /** After an update the merged note keeps its id, owner and creation time. */
  lemma MergeKeepsIdentity(n: Note, upd: NoteUpdate, now: int)
    ensures Merged(n, upd, now).id == n.id && Merged(n, upd, now).userId == n.userId
    ensures Merged(n, upd, now).createdAt == n.createdAt && Merged(n, upd, now).updatedAt == now
  {
  }

  // ---------------------------------------------------------------- delete_note

  function DeleteRows(store: seq<Note>, noteId: string): seq<Note> {
    Filter(store, (n: Note) => n.id != noteId)
  }

  /**
   * `delete_note`: 404 unless the user owns a note with that id; otherwise the rows with that
   * id are deleted and the success message returned, whatever the delete reports.
   */
  function DeleteNote(store: seq<Note>, noteId: string, userId: string,
                      selectFault: Option<string>, deleteFault: Option<string>): (r: (Response<string>, seq<Note>))
    ensures selectFault.None? && !Owns(store, noteId, userId) ==> r == (Fail(NotFound), store)
    ensures r.0.Ok? <==> selectFault.None? && deleteFault.None? && Owns(store, noteId, userId)
    ensures r.0.Ok? ==> r.0.value == "Nota eliminada exitosamente"
    ensures r.0.Ok? ==> (forall n :: n in r.1 <==> n in store && n.id != noteId) && IsSubsequence(r.1, store)
    ensures r.0.Ok? ==> forall n :: multiset(r.1)[n] == if n.id != noteId then multiset(store)[n] else 0
    ensures r.0.Fail? ==> r.1 == store
    ensures selectFault.Some? ==> r == (Fail(InternalError(InternalPrefix + selectFault.value)), store)
    ensures selectFault.None? && Owns(store, noteId, userId) && deleteFault.Some? ==>
              r == (Fail(InternalError(InternalPrefix + deleteFault.value)), store)
  {
    OwnedMatchesNonEmpty(store, noteId, userId);
    if selectFault.Some? then (Fail(InternalError(InternalPrefix + selectFault.value)), store)
    else if OwnedMatches(store, noteId, userId) == [] then (Fail(NotFound), store)
    else if deleteFault.Some? then (Fail(InternalError(InternalPrefix + deleteFault.value)), store)
    else
      FilterIsSubsequence(store, (n: Note) => n.id != noteId);
      FilterMultiplicity(store, (n: Note) => n.id != noteId);
      (Ok("Nota eliminada exitosamente"), DeleteRows(store, noteId))
  }

  // ---------------------------------------------------------------- get_user_tags

  /** The tags of one row, if its `tags` are truthy (present and non-empty). */
  function RowTags(n: Note): set<string> {
    if n.tags.Some? && n.tags.value != [] then set t | t in n.tags.value else {}
  }

  /** The union of the rows' tags, accumulated in row order. */
  function TagsOf(rows: seq<Note>): set<string> {
    if rows == [] then {} else TagsOf(rows[..|rows| - 1]) + RowTags(rows[|rows| - 1])
  }

  lemma {:induction false} TagsOfMembers(rows: seq<Note>, t: string)
    ensures t in TagsOf(rows) <==> exists k :: 0 <= k < |rows| && rows[k].tags.Some? && t in rows[k].tags.value
  {
    if rows != [] {
      var init := rows[..|rows| - 1];
      TagsOfMembers(init, t);
      assert forall k :: 0 <= k < |init| ==> init[k] == rows[k];
    }
  }

  /** The tags of the user's rows, as `TagsOf` the filtered rows. */
  lemma UserTags(store: seq<Note>, userId: string, t: string)
    ensures t in TagsOf(Filter(store, (n: Note) => n.userId == userId)) <==>
              exists n :: n in store && n.userId == userId && n.tags.Some? && t in n.tags.value
  {
    var rows := Filter(store, (n: Note) => n.userId == userId);
    TagsOfMembers(rows, t);
    if t in TagsOf(rows) {
      var k :| 0 <= k < |rows| && rows[k].tags.Some? && t in rows[k].tags.value;
      assert rows[k] in rows;
    }
    if exists n :: n in store && n.userId == userId && n.tags.Some? && t in n.tags.value {
      var n :| n in store && n.userId == userId && n.tags.Some? && t in n.tags.value;
      assert n in rows;
      var k :| 0 <= k < |rows| && rows[k] == n;
    }
  }

  /** The loops of `get_user_tags`: the rows' tags, once each, strictly ascending. */
  method CollectTags(rows: seq<Note>) returns (allTags: seq<string>)
    ensures StrictlySorted(allTags)
    ensures forall t :: t in allTags <==> t in TagsOf(rows)
  {
    allTags := [];
    var i := 0;
    while i < |rows|
      invariant 0 <= i <= |rows|
      invariant StrictlySorted(allTags)
      invariant forall t :: t in allTags <==> t in TagsOf(rows[..i])
    {
      var note := rows[i];
      if note.tags.Some? && note.tags.value != [] {
        var tags := note.tags.value;
        var j := 0;
        while j < |tags|
          invariant 0 <= j <= |tags|
          invariant StrictlySorted(allTags)
          invariant forall t :: t in allTags <==> t in TagsOf(rows[..i]) || t in tags[..j]
        {
          InsertSorted(tags[j], allTags);
          allTags := Insert(tags[j], allTags);
          assert tags[..j + 1] == tags[..j] + [tags[j]];
          j := j + 1;
        }
        assert tags[..j] == tags;
      }
      assert rows[..i + 1][..i] == rows[..i];
      i := i + 1;
    }
    assert rows[..i] == rows;
  }

  /**
   * `get_user_tags`: every tag on any of the user's notes, once each, in ascending order; the
   * set is collected note by note and sorted at the end, which is one strictly ascending insertion
   * here. A raising query gives 500.
   */
  method GetUserTags(store: seq<Note>, userId: string, fault: Option<string>) returns (r: Response<seq<string>>)
    ensures fault.Some? ==> r == Fail(InternalError(InternalPrefix + fault.value))
    ensures fault.None? ==> r.Ok? && StrictlySorted(r.value)
    ensures fault.None? ==> forall t :: t in r.value <==>
              exists n :: n in store && n.userId == userId && n.tags.Some? && t in n.tags.value
  {
    if fault.Some? {
      return Fail(InternalError(InternalPrefix + fault.value));
    }
    var rows := Filter(store, (n: Note) => n.userId == userId);
    var allTags := CollectTags(rows);
    forall t
      ensures t in allTags <==> exists n :: n in store && n.userId == userId && n.tags.Some? && t in n.tags.value
    {
      UserTags(store, userId, t);
    }
    r := Ok(allTags);
  }
}
