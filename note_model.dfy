/**
 * The note schemas of backend/app/models/note.py: the status enumeration and the
 * request/response records with their defaults. Timestamps are abstract integers.
 */
module NoteModel {

  import opened Wrappers

  /** `NoteStatus`: exactly three members. */
  datatype NoteStatus = Draft | Published | Archived

  /** The enum's `.value`. */
  function StatusValue(s: NoteStatus): (v: string)
    ensures v == "draft" || v == "published" || v == "archived"
    ensures ParseStatus(v) == Some(s)
  {
    match s
    case Draft => "draft"
    case Published => "published"
    case Archived => "archived"
  }

  /** `NoteStatus(v)`: the member with value `v`, if any (pydantic rejects anything else). */
  function ParseStatus(v: string): (r: Option<NoteStatus>)
    ensures r.Some? <==> (v == "draft" || v == "published" || v == "archived")
  {
    if v == "draft" then Some(Draft)
    else if v == "published" then Some(Published)
    else if v == "archived" then Some(Archived)
    else None
  }

  /** Parsing is the inverse of `.value`: distinct members have distinct values. */
  lemma StatusValueInjective(a: NoteStatus, b: NoteStatus)
    requires StatusValue(a) == StatusValue(b)
    ensures a == b
  {
    assert ParseStatus(StatusValue(a)) == Some(a);
  }

  /** `NoteBase` (and `NoteCreate`): tags default to `[]`, status to draft; tags may also be sent as null. */
  datatype NoteBase = NoteBase(title: string, content: string,
                               tags: Option<seq<string>> := Some([]), status: NoteStatus := Draft)

  /** `NoteUpdate`: every field optional and absent by default. */
  datatype NoteUpdate = NoteUpdate(title: Option<string> := None, content: Option<string> := None,
                                   tags: Option<seq<string>> := None, status: Option<NoteStatus> := None)

  /** `Note` (= `NoteInDB`): the base fields plus id, owner and the two timestamps. */
  datatype Note = Note(id: string, userId: string, title: string, content: string,
                       tags: Option<seq<string>>, status: NoteStatus, createdAt: int, updatedAt: int)

  /** `NoteWithAI`: a note plus the optional AI fields; `ai_suggestions` defaults to `[]`. */
  datatype NoteWithAI = NoteWithAI(note: Note,
                                   aiSuggestion: Option<string> := None,
                                   aiSummary: Option<string> := None,
                                   aiEnhancedContent: Option<string> := None,
                                   aiSuggestions: Option<seq<string>> := Some([]),
                                   generatedContent: Option<string> := None,
                                   analysis: Option<string> := None)

  /** The base part of a stored note. */
  function BaseOf(n: Note): NoteBase {
    NoteBase(n.title, n.content, n.tags, n.status)
  }

  /** A stored note built from a base record keeps every base field and adds the stored ones. */
  function InDB(b: NoteBase, id: string, userId: string, createdAt: int, updatedAt: int): (n: Note)
    ensures BaseOf(n) == b
    ensures n.id == id && n.userId == userId && n.createdAt == createdAt && n.updatedAt == updatedAt
  {
    Note(id, userId, b.title, b.content, b.tags, b.status, createdAt, updatedAt)
  }

  lemma NoteBaseDefaults(title: string, content: string)
    ensures NoteBase(title, content).tags == Some([])
    ensures NoteBase(title, content).status == Draft
  {
  }

  lemma NoteUpdateDefaults()
    ensures NoteUpdate() == NoteUpdate(None, None, None, None)
  {
  }

  lemma NoteWithAIDefaults(n: Note)
    ensures NoteWithAI(n).aiSuggestions == Some([])
    ensures NoteWithAI(n).aiSummary.None? && NoteWithAI(n).aiEnhancedContent.None?
    ensures NoteWithAI(n).aiSuggestion.None? && NoteWithAI(n).generatedContent.None? && NoteWithAI(n).analysis.None?
  {
  }
}
