/**
 * frontend/src/components/AIGenerateModal.jsx: the modal's step machine. Each async handler is
 * split at its `await`: `Begin…` is what runs before the request, `Finish…` what runs once the
 * awaited call has answered, with that answer as a parameter.
 */
module AIGenerateModal {

  import opened Wrappers
  import opened Seqs
  import opened Text
  import opened ClientModel

  /** The modal's `step`: 'prompt', 'preview' or 'saving'. */
  datatype Step = PromptStep | Preview | Saving

  /** The note `handleSaveNote` hands to `createNote`. */
  datatype NoteDraft = NoteDraft(title: string, content: string, status: string)

  /** A call to one of the parent's callbacks: `onNoteCreated(newNote)` or `onClose()`. */
  datatype Notice = NoteCreated(note: ClientNote) | Closed

  const DefaultTitle: string := "Nota generada por IA"
  const MaxTitle: nat := 100
  const GeneratePrefix: string := "Error al generar la nota: "
  const SavePrefix: string := "Error al guardar la nota: "
  const NothingGenerated: string := "No se pudo generar el contenido"

  /** A line with at least one non-whitespace character. */
  predicate HasText(l: string) { !Blank(l) }

  /** The lines of the generated text that are not blank, in order. */
  function NonBlankLines(content: string): (lines: seq<string>)
    ensures forall l :: l in lines <==> l in Split(content, '\n') && !Blank(l)
  {
    Filter(Split(content, '\n'), HasText)
  }

  /** The first non-blank line is the first line of the text that is not blank. */
  lemma FirstNonBlankLine(content: string)
    requires NonBlankLines(content) != []
    ensures exists k :: 0 <= k < |Split(content, '\n')| && !Blank(Split(content, '\n')[k]) &&
                        NonBlankLines(content)[0] == Split(content, '\n')[k] &&
                        forall j :: 0 <= j < k ==> Blank(Split(content, '\n')[j])
  {
    var lines := Split(content, '\n');
    FilterFirst(lines, HasText);
    var k :| 0 <= k < |lines| && HasText(lines[k]) && Filter(lines, HasText)[0] == lines[k] &&
             forall j :: 0 <= j < k ==> !HasText(lines[j]);
    assert NonBlankLines(content) == Filter(lines, HasText);
    forall j | 0 <= j < k
      ensures Blank(lines[j])
    {
      assert !HasText(lines[j]);
    }
    assert !Blank(lines[k]);
  }

  /**
   * The title of the saved note: the first non-blank line of the text cut to 100 characters,
   * or the default title when every line is blank. Saving is refused for blank text, so the
   * default is never what a saved note gets.
   */
  function ExtractTitle(content: string): (title: string)
    ensures |title| <= MaxTitle
    ensures Blank(content) ==> title == DefaultTitle
    ensures !Blank(content) ==>
              var lines := Split(content, '\n');
              exists k :: 0 <= k < |lines| && !Blank(lines[k]) && title == Take(lines[k], MaxTitle) &&
                          forall j :: 0 <= j < k ==> Blank(lines[j])
  {
    var lines := NonBlankLines(content);
    BlankIffPiecesBlank(content, '\n');
    FilterNonEmpty(Split(content, '\n'), HasText);
    assert Blank(content) ==> forall l :: l in Split(content, '\n') ==> Blank(l);
    if lines != [] then
      FirstNonBlankLine(content);
      Take(lines[0], MaxTitle)
    else DefaultTitle
  }

  class GenerateModalState {
    var prompt: string
    var isGenerating: bool
    var generatedContent: string
    var error: string
    var step: Step

    constructor ()
      ensures prompt == "" && !isGenerating && generatedContent == "" && error == "" && step == PromptStep
    {
      prompt := "";
      isGenerating := false;
      generatedContent := "";
      error := "";
      step := PromptStep;
    }

    /** The prompt box's `onChange`. */
    method SetPrompt(value: string)
      modifies this
      ensures prompt == value
      ensures isGenerating == old(isGenerating) && generatedContent == old(generatedContent)
      ensures error == old(error) && step == old(step)
    {
      prompt := value;
    }

    /**
     * `handleGenerate` up to the request: nothing happens for a blank prompt or while a
     * generation runs; otherwise the trimmed prompt is sent and the old text and error are cleared.
     */
    method BeginGenerate() returns (sent: Option<string>)
      modifies this
      ensures sent.None? <==> Blank(old(prompt)) || old(isGenerating)
      ensures sent.None? ==> isGenerating == old(isGenerating) && generatedContent == old(generatedContent) &&
                             error == old(error)
      ensures sent.Some? ==> sent.value == Trim(old(prompt)) && isGenerating && generatedContent == "" && error == ""
      ensures prompt == old(prompt) && step == old(step)
    {
      var text := Trim(prompt);
      if text == "" || isGenerating {
        return None;
      }
      isGenerating := true;
      error := "";
      generatedContent := "";
      sent := Some(text);
    }

    /**
     * `handleGenerate` after the request: a non-empty `note` becomes the text and the step moves
     * to 'preview'; a missing or empty one, or a failed call, sets the error and leaves the step.
     * In every case the generation is over.
     */
    method FinishGenerate(response: ApiResult<Option<string>>)
      modifies this
      ensures !isGenerating
      ensures response.Success? && response.value.Some? && response.value.value != "" ==>
                generatedContent == response.value.value && step == Preview && error == old(error)
      ensures response.Success? && (response.value.None? || response.value.value == "") ==>
                error == GeneratePrefix + NothingGenerated &&
                step == old(step) && generatedContent == old(generatedContent)
      ensures response.Failure? ==>
                error == ErrorText(GeneratePrefix, response.message) &&
                step == old(step) && generatedContent == old(generatedContent)
      ensures prompt == old(prompt)
    {
      match response {
        case Success(note) =>
          if note.Some? && note.value != "" {
            generatedContent := note.value;
            step := Preview;
          } else {
            error := ErrorText(GeneratePrefix, NothingGenerated);
          }
        case Failure(message) =>
          error := ErrorText(GeneratePrefix, message);
      }
      isGenerating := false;
    }

    /**
     * `handleSaveNote` up to the request: nothing happens for blank text; otherwise the step
     * becomes 'saving', the error is cleared, and a draft titled after the text is sent.
     */
    method BeginSave() returns (draft: Option<NoteDraft>)
      modifies this
      ensures draft.None? <==> Blank(old(generatedContent))
      ensures draft.None? ==> step == old(step) && error == old(error)
      ensures draft.Some? ==> draft.value == NoteDraft(ExtractTitle(old(generatedContent)), old(generatedContent), "draft") &&
                              step == Saving && error == ""
      ensures prompt == old(prompt) && generatedContent == old(generatedContent) && isGenerating == old(isGenerating)
    {
      var text := generatedContent;
      if Trim(text) == "" {
        return None;
      }
      draft := Some(NoteDraft(ExtractTitle(text), text, "draft"));
      step := Saving;
      error := "";
    }

    /**
     * `handleSaveNote` after the request: success hands the new note to the parent and closes the
     * modal, failure goes back to 'preview' with the error. `notices` are the parent's callbacks
     * in the order they are called; `hasOnNoteCreated` says whether the optional `onNoteCreated`
     * prop was passed.
     */
    method FinishSave(created: ApiResult<ClientNote>, hasOnNoteCreated: bool) returns (notices: seq<Notice>)
      modifies this
      ensures created.Success? && hasOnNoteCreated ==> notices == [NoteCreated(created.value), Closed]
      ensures created.Success? && !hasOnNoteCreated ==> notices == [Closed]
      ensures created.Success? ==> prompt == "" && generatedContent == "" && error == "" && step == PromptStep
      ensures created.Failure? ==> notices == []
      ensures created.Failure? ==> error == ErrorText(SavePrefix, created.message) && step == Preview &&
                                   prompt == old(prompt) && generatedContent == old(generatedContent)
      ensures isGenerating == old(isGenerating)
    {
      if created.Success? {
        var announced := if hasOnNoteCreated then [NoteCreated(created.value)] else [];
        var closing := HandleClose();
        notices := announced + closing;
      } else {
        error := ErrorText(SavePrefix, created.message);
        step := Preview;
        notices := [];
      }
    }

    /** `handleClose`: the prompt, the text, the error and the step are reset, then the parent's `onClose` runs. */
    method HandleClose() returns (notices: seq<Notice>)
      modifies this
      ensures notices == [Closed]
      ensures prompt == "" && generatedContent == "" && error == "" && step == PromptStep
      ensures isGenerating == old(isGenerating)
    {
      prompt := "";
      generatedContent := "";
      error := "";
      step := PromptStep;
      notices := [Closed];
    }

    /** `handleBackToPrompt`: only the step and the error change. */
    method HandleBackToPrompt()
      modifies this
      ensures step == PromptStep && error == ""
      ensures prompt == old(prompt) && generatedContent == old(generatedContent) && isGenerating == old(isGenerating)
    {
      step := PromptStep;
      error := "";
    }
  }
}
