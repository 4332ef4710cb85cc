/**
 * frontend/src/components/NoteForm.jsx: the form's fields, its validation, the tag list and
 * the submit guard. The form's `formData` fields are fields of the class; `errors` is a map
 * from field to message, where a cleared error is kept as "".
 */
module NoteForm {

  import opened Wrappers
  import opened Seqs
  import opened Text
  import opened ClientModel

  const MaxTags: nat := 10

  /** The keys of `errors`. */
  datatype Field = Title | Content | Status | Tags

  /** The inputs whose `name` reaches `handleInputChange`. */
  datatype Input = TitleInput | ContentInput | StatusInput

  function FieldOf(name: Input): Field {
    match name
    case TitleInput => Title
    case ContentInput => Content
    case StatusInput => Status
  }

  const TitleRequired: string := "El título es obligatorio"
  const TitleTooLong: string := "El título no puede exceder 200 caracteres"
  const ContentRequired: string := "El contenido es obligatorio"
  const ContentTooLong: string := "El contenido no puede exceder 10,000 caracteres"
  const TooManyTags: string := "No puedes agregar más de 10 etiquetas"

  /** The error for the title: required after trimming, then at most 200 characters untrimmed. */
  function TitleError(title: string): Option<string> {
    if Trim(title) == "" then Some(TitleRequired) else if |title| > 200 then Some(TitleTooLong) else None
  }

  function ContentError(content: string): Option<string> {
    if Trim(content) == "" then Some(ContentRequired) else if |content| > 10000 then Some(ContentTooLong) else None
  }

  function TagsError(tags: seq<string>): Option<string> {
    if |tags| > MaxTags then Some(TooManyTags) else None
  }

  /** The errors `validateForm` records, one per failing field. */
  predicate DescribesErrors(errors: map<Field, string>, title: string, content: string, tags: seq<string>) {
    && (Title in errors <==> TitleError(title).Some?)
    && (Content in errors <==> ContentError(content).Some?)
    && (Tags in errors <==> TagsError(tags).Some?)
    && Status !in errors
    && (Title in errors ==> errors[Title] == TitleError(title).value)
    && (Content in errors ==> errors[Content] == ContentError(content).value)
    && (Tags in errors ==> errors[Tags] == TagsError(tags).value)
  }

  /** The form is valid exactly when the title and content are non-blank and within bounds and there are at most 10 tags. */
  predicate FormValid(title: string, content: string, tags: seq<string>) {
    !Blank(title) && |title| <= 200 && !Blank(content) && |content| <= 10000 && |tags| <= MaxTags
  }

  /** The form is valid exactly when no field has an error. */
  lemma FormValidIff(title: string, content: string, tags: seq<string>)
    ensures FormValid(title, content, tags) <==>
            TitleError(title).None? && ContentError(content).None? && TagsError(tags).None?
  {
  }

  /** A tag list the form keeps: no tag twice, at most ten. */
  predicate GoodTags(tags: seq<string>) {
    NoDuplicates(tags) && |tags| <= MaxTags
  }

  /** The normalised tag: trimmed and lower-cased. */
  function NormalizeTag(input: string): (tag: string)
    ensures |tag| <= |input|
    ensures tag == [] <==> Blank(input)
    ensures Lower(tag) == tag
  {
    LowerIdempotent(Trim(input));
    Lower(Trim(input))
  }

  /** The tag list after adding `tag`, if the guard lets it through. */
  function WithTag(tags: seq<string>, tag: string): seq<string> {
    if tag != "" && tag !in tags && |tags| < MaxTags then tags + [tag] else tags
  }

  /** Adding a tag keeps the list free of duplicates and within ten tags. */
  lemma WithTagKeepsGood(tags: seq<string>, tag: string)
    ensures GoodTags(tags) ==> GoodTags(WithTag(tags, tag))
    ensures tag != "" && tag !in tags && |tags| < MaxTags ==> WithTag(tags, tag) == tags + [tag]
    ensures tag in WithTag(tags, tag) || tag == "" || |tags| >= MaxTags
  {
    var r := WithTag(tags, tag);
    if r != tags && GoodTags(tags) {
      forall i, j | 0 <= i < j < |r|
        ensures r[i] != r[j]
      {
        if j == |tags| {
          assert r[i] == tags[i] && r[i] in tags;
        }
      }
    }
  }

  /** The error collection of `validateForm`, one field after the other. */
  method CollectErrors(title: string, content: string, tags: seq<string>) returns (newErrors: map<Field, string>)
    ensures DescribesErrors(newErrors, title, content, tags)
    ensures newErrors == map[] <==> FormValid(title, content, tags)
  {
    newErrors := map[];
    if Trim(title) == "" {
      newErrors := newErrors[Title := TitleRequired];
    } else if |title| > 200 {
      newErrors := newErrors[Title := TitleTooLong];
    }
    if Trim(content) == "" {
      newErrors := newErrors[Content := ContentRequired];
    } else if |content| > 10000 {
      newErrors := newErrors[Content := ContentTooLong];
    }
    if |tags| > MaxTags {
      newErrors := newErrors[Tags := TooManyTags];
    }
    assert newErrors.Keys <= {Title, Content, Tags};
    if Title !in newErrors && Content !in newErrors && Tags !in newErrors {
      assert newErrors.Keys == {};
    }
    FormValidIff(title, content, tags);
  }

  class NoteFormState {
    var title: string
    var content: string
    var status: string
    var tags: seq<string>
    var tagInput: string
    var loading: bool
    var errors: map<Field, string>

    constructor ()
      ensures title == "" && content == "" && status == "draft" && tags == [] && tagInput == ""
      ensures !loading && errors == map[]
    {
      title := "";
      content := "";
      status := "draft";
      tags := [];
      tagInput := "";
      loading := false;
      errors := map[];
    }

    /** Loading a note: missing fields become "", `[]` and 'draft', as does any status outside the three. */
    method LoadNote(note: ClientNote)
      modifies this
      ensures title == note.title.GetOr("") && content == note.content.GetOr("") && tags == note.tags.GetOr([])
      ensures status == if note.status.Some? && note.status.value in {"draft", "published", "archived"}
                        then note.status.value else "draft"
      ensures tagInput == old(tagInput) && loading == old(loading) && errors == old(errors)
    {
      var statusMap := map["draft" := "draft", "published" := "published", "archived" := "archived"];
      title := note.title.GetOr("");
      content := note.content.GetOr("");
      status := if note.status.Some? && note.status.value in statusMap then statusMap[note.status.value] else "draft";
      tags := note.tags.GetOr([]);
    }

    /** `validateForm`: collects the field errors one after the other, replaces `errors`, and reports validity. */
    method ValidateForm() returns (valid: bool)
      modifies this
      ensures DescribesErrors(errors, old(title), old(content), old(tags))
      ensures valid <==> errors == map[]
      ensures valid <==> FormValid(old(title), old(content), old(tags))
      ensures title == old(title) && content == old(content) && tags == old(tags) && status == old(status)
      ensures tagInput == old(tagInput) && loading == old(loading)
    {
      var newErrors := CollectErrors(title, content, tags);
      valid := newErrors == map[];
      errors := newErrors;
    }

    /** `handleInputChange` for one of the three text fields: sets it, and clears its error only if one is set. */
    method HandleInputChange(name: Input, value: string)
      modifies this
      ensures title == (if name == TitleInput then value else old(title))
      ensures content == (if name == ContentInput then value else old(content))
      ensures status == (if name == StatusInput then value else old(status))
      ensures var key := FieldOf(name);
              errors == if key in old(errors) && old(errors)[key] != "" then old(errors)[key := ""] else old(errors)
      ensures tags == old(tags) && tagInput == old(tagInput) && loading == old(loading)
    {
      match name {
        case TitleInput => title := value;
        case ContentInput => content := value;
        case StatusInput => status := value;
      }
      var key := FieldOf(name);
      if key in errors && errors[key] != "" {
        errors := errors[key := ""];
      }
    }

    /**
     * `handleAddTag`: the normalised input is appended only when non-empty, new and with fewer
     * than ten tags; only then is the input cleared and a tags error cleared.
     */
    method HandleAddTag()
      modifies this
      ensures tags == WithTag(old(tags), NormalizeTag(old(tagInput)))
      ensures tags != old(tags) ==> tagInput == "" && tags == old(tags) + [NormalizeTag(old(tagInput))]
      ensures tags == old(tags) ==> tagInput == old(tagInput) && errors == old(errors)
      ensures tags != old(tags) ==>
                errors == if Tags in old(errors) && old(errors)[Tags] != "" then old(errors)[Tags := ""] else old(errors)
      ensures GoodTags(old(tags)) ==> GoodTags(tags)
      ensures title == old(title) && content == old(content) && status == old(status) && loading == old(loading)
    {
      var tag := NormalizeTag(tagInput);
      WithTagKeepsGood(tags, tag);
      if tag != "" && tag !in tags && |tags| < MaxTags {
        tags := tags + [tag];
        tagInput := "";
        if Tags in errors && errors[Tags] != "" {
          errors := errors[Tags := ""];
        }
      }
    }

    /** `handleRemoveTag`: every occurrence of the tag goes, the others keep their order. */
    method HandleRemoveTag(tag: string)
      modifies this
      ensures tags == Filter(old(tags), (t: string) => t != tag)
      ensures tag !in tags && IsSubsequence(tags, old(tags))
      ensures GoodTags(old(tags)) ==> GoodTags(tags)
      ensures title == old(title) && content == old(content) && status == old(status)
      ensures tagInput == old(tagInput) && loading == old(loading) && errors == old(errors)
    {
      FilterIsSubsequence(tags, (t: string) => t != tag);
      if NoDuplicates(tags) {
        SubsequenceKeepsDistinct(Filter(tags, (t: string) => t != tag), tags);
      }
      tags := Filter(tags, (t: string) => t != tag);
    }

    /**
     * The first half of `handleSubmit`: when validation fails nothing is handed to `onSubmit`;
     * otherwise the form data is, and `loading` is set until `FinishSubmit`.
     */
    method BeginSubmit() returns (payload: Option<(string, string, string, seq<string>)>)
      modifies this
      ensures payload.Some? <==> FormValid(old(title), old(content), old(tags))
      ensures payload.Some? ==> payload.value == (old(title), old(content), old(status), old(tags)) && loading
      ensures payload.None? ==> loading == old(loading)
      ensures DescribesErrors(errors, old(title), old(content), old(tags))
      ensures title == old(title) && content == old(content) && tags == old(tags) && status == old(status)
      ensures tagInput == old(tagInput)
    {
      var valid := ValidateForm();
      if !valid {
        return None;
      }
      loading := true;
      payload := Some((title, content, status, tags));
    }

    /** The `finally` of `handleSubmit`: whatever `onSubmit` did, loading ends. */
    method FinishSubmit()
      modifies this
      ensures !loading
      ensures title == old(title) && content == old(content) && tags == old(tags) && status == old(status)
      ensures tagInput == old(tagInput) && errors == old(errors)
    {
      loading := false;
    }
  }
}
