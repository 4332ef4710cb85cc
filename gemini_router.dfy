/**
 * The handlers of backend/app/routers/gemini.py. The Gemini model is the parameter `model`:
 * for each prompt, the text it generates or the text of the exception it raises. Everything
 * else, the prompts sent and the post-processing of the replies, is modelled exactly.
 */
module GeminiRouter {

  import opened Wrappers
  import opened Seqs
  import opened Text
  import opened Http
  import opened NoteModel
  import opened NotesRouter

  /** `generate_content`: the text of the reply to a prompt, or the exception it raises. */
  type Model = string -> Call<string>

  // ---------------------------------------------------------------- chat

  const SystemPrompt: string :=
    "Eres un asistente especializado en tomar notas y organizar información. Tu función principal es ayudar a los usuarios a:\n\n"
    + "1. Resumir textos largos en puntos clave y conceptos principales\n"
    + "2. Generar ideas y estructurar información de manera clara\n"
    + "3. Extraer información importante y relevante de textos\n"
    + "4. Organizar y estructurar notas de forma eficiente\n"
    + "5. Ayudar a pensar en ideas y conceptos relacionados\n\n"
    + "Siempre proporciona respuestas claras, bien estructuradas y enfocadas en la productividad y organización de información. "
    + "Usa formato markdown cuando sea apropiado para mejorar la legibilidad."

  const QuestionHeader: string := "\n\nPregunta del usuario: "

  const ContextHeader: string := "\n\nContexto: "

  /** Python truthiness of an optional string. */
  predicate Given(s: Option<string>) {
    s.Some? && s.value != ""
  }

  /**
   * The chat prompt: the system prompt, then a context section exactly when `context` is
   * truthy, then the user's question last.
   */
  function ChatPrompt(prompt: string, context: Option<string>): (p: string)
    ensures StartsWith(p, SystemPrompt)
    ensures |SystemPrompt| + |QuestionHeader + prompt| <= |p| && p[|p| - |QuestionHeader + prompt|..] == QuestionHeader + prompt
    ensures p[|SystemPrompt|..|p| - |QuestionHeader + prompt|] == if Given(context) then ContextHeader + context.value else ""
  {
    var section := if Given(context) then ContextHeader + context.value else "";
    ConcatParts(SystemPrompt, section, QuestionHeader + prompt);
    SystemPrompt + section + (QuestionHeader + prompt)
  }

  datatype ChatReply = ChatReply(response: string, prompt: string)

  /** `/chat`: the model's reply to the chat prompt, with the user's prompt echoed unchanged. */
  function Chat(model: Model, prompt: string, context: Option<string>): (r: Response<ChatReply>)
    ensures model(ChatPrompt(prompt, context)).Returned? ==>
              r == Ok(ChatReply(model(ChatPrompt(prompt, context)).value, prompt))
    ensures model(ChatPrompt(prompt, context)).Threw? ==>
              r == Fail(InternalError("Error al procesar con IA: " + model(ChatPrompt(prompt, context)).message))
  {
    CatchAll(match model(ChatPrompt(prompt, context))
             case Threw(m) => Raise(OtherException(m))
             case Returned(text) => Return(ChatReply(text, prompt)),
             "Error al procesar con IA: ")
  }

  // ---------------------------------------------------------------- summarize

  const SummaryIntro: string :=
    "Por favor, genera un resumen conciso y útil del siguiente contenido:\n        \n        Título: "

  const SummaryOutro: string :=
    "\n        \n        El resumen debe:\n        - Capturar los puntos principales\n        - Ser claro y conciso"
    + "\n        - Mantener la información más importante\n        - Tener máximo 3-4 oraciones\n        "

  function SummaryPrompt(n: Note): string {
    SummaryIntro + n.title + ContentLabel + n.content + SummaryOutro
  }

  const ContentLabel: string := "\n        Contenido: "

  /** The `try` block shared by `summarize` and `enhance` up to the note lookup. */
  function FetchOwned(store: seq<Note>, noteId: string, userId: string, fault: Option<string>): Body<Note> {
    if fault.Some? then Raise(OtherException(fault.value))
    else
      var rows := OwnedMatches(store, noteId, userId);
      if rows == [] then Raise(HttpException(NotFound)) else Return(rows[0])
  }

  lemma FetchOwnedFinds(store: seq<Note>, noteId: string, userId: string, fault: Option<string>)
    ensures FetchOwned(store, noteId, userId, fault).Return? ==>
              var n := FetchOwned(store, noteId, userId, fault).value;
              n in store && n.id == noteId && n.userId == userId
    ensures fault.None? ==> (FetchOwned(store, noteId, userId, fault).Return? <==> Owns(store, noteId, userId))
    ensures fault.None? && !Owns(store, noteId, userId) ==> FetchOwned(store, noteId, userId, fault) == Raise(HttpException(NotFound))
  {
    var rows := OwnedMatches(store, noteId, userId);
    OwnedMatchesNonEmpty(store, noteId, userId);
    if rows != [] {
      assert rows[0] in rows;
    }
  }

  const SummarizePrefix: string := "Error al generar resumen: "

  function SummarizeBody(model: Model, store: seq<Note>, noteId: string, userId: string, fault: Option<string>): Body<NoteWithAI> {
    match FetchOwned(store, noteId, userId, fault)
    case Raise(e) => Raise(e)
    case Return(n) =>
      match model(SummaryPrompt(n))
      case Threw(m) => Raise(OtherException(m))
      case Returned(text) => Return(NoteWithAI(n, aiSummary := Some(text), aiSuggestions := Some([])))
  }

  /**
   * `/summarize`: 404 unless the user owns the note; otherwise every field of the note with the
   * model's summary and no suggestions. Other errors are 500.
   */
  function Summarize(model: Model, store: seq<Note>, noteId: string, userId: string, fault: Option<string>)
    : (r: Response<NoteWithAI>)
    ensures fault.None? && !Owns(store, noteId, userId) ==> r == Fail(NotFound)
    ensures fault.Some? ==> r == Fail(InternalError(SummarizePrefix + fault.value))
    ensures var rows := OwnedMatches(store, noteId, userId);
            fault.None? && rows != [] ==>
              && (model(SummaryPrompt(rows[0])).Returned? ==>
                    r == Ok(NoteWithAI(rows[0], aiSummary := Some(model(SummaryPrompt(rows[0])).value),
                                       aiSuggestions := Some([]))))
              && (model(SummaryPrompt(rows[0])).Threw? ==>
                    r == Fail(InternalError(SummarizePrefix + model(SummaryPrompt(rows[0])).message)))
    ensures r.Ok? ==> r.value.note in store && r.value.note.id == noteId && r.value.note.userId == userId
    ensures r.Ok? ==> r.value.aiSummary.Some? && model(SummaryPrompt(r.value.note)) == Returned(r.value.aiSummary.value)
    ensures r.Ok? ==> r.value == NoteWithAI(r.value.note, aiSummary := r.value.aiSummary, aiSuggestions := Some([]))
    ensures r.Fail? && r.error != NotFound ==> r.error.status == 500
  {
    FetchOwnedFinds(store, noteId, userId, fault);
    ReRaiseHttp(SummarizeBody(model, store, noteId, userId, fault), SummarizePrefix)
  }

  // ---------------------------------------------------------------- enhance

  const ImprovePrompt: string :=
    "Mejora la claridad, estructura y gramática del siguiente texto, manteniendo el significado original:"

  const ExpandPrompt: string :=
    "Expande el siguiente contenido añadiendo más detalles, ejemplos y explicaciones relevantes:"

  const SimplifyPrompt: string :=
    "Simplifica el siguiente texto haciéndolo más fácil de entender, manteniendo la información esencial:"

  const EnhancementPrompts: map<string, string> :=
    map["improve" := ImprovePrompt, "expand" := ExpandPrompt, "simplify" := SimplifyPrompt]

  /** `enhancement_prompts.get(kind, enhancement_prompts["improve"])`. */
  function PromptBase(kind: string): (p: string)
    ensures kind in EnhancementPrompts ==> p == EnhancementPrompts[kind]
    ensures kind !in {"improve", "expand", "simplify"} ==> p == ImprovePrompt
    ensures p in {ImprovePrompt, ExpandPrompt, SimplifyPrompt}
  {
    if kind in EnhancementPrompts then EnhancementPrompts[kind] else EnhancementPrompts["improve"]
  }

  const TitleLabel: string := "\n        \n        Título: "

  const EnhanceOutro: string :=
    "\n        \n        Proporciona el contenido mejorado manteniendo el formato y estructura apropiados.\n        "

  function EnhancePrompt(kind: string, n: Note): string {
    PromptBase(kind) + TitleLabel + n.title + ContentLabel + n.content + EnhanceOutro
  }

  const SuggestionsIntro: string :=
    "Basándote en el siguiente contenido, proporciona 3-5 sugerencias breves para mejorarlo aún más:\n        \n        "

  const SuggestionsOutro: string := "\n        \n        Las sugerencias deben ser específicas y accionables.\n        "

  function SuggestionsPrompt(n: Note): string {
    SuggestionsIntro + n.content + SuggestionsOutro
  }

  /** A stripped line that is kept as a suggestion. */
  predicate IsSuggestion(s: string) {
    s != "" && !StartsWith(s, "#")
  }

  function StripAll(lines: seq<string>): (r: seq<string>)
    ensures |r| == |lines| && forall k :: 0 <= k < |lines| ==> r[k] == Strip(lines[k])
  {
    if lines == [] then [] else [Strip(lines[0])] + StripAll(lines[1..])
  }

  /** The comprehension of line 173: the stripped lines that are non-empty and not headings, in order. */
  function SuggestionLines(text: string): seq<string> {
    Filter(StripAll(Split(text, '\n')), IsSuggestion)
  }

  /** `suggestions[:5]`. */
  function Suggestions(text: string): (r: seq<string>)
    ensures |r| <= 5
    ensures r == Take(SuggestionLines(text), 5)
  {
    Take(SuggestionLines(text), 5)
  }

  /**
   * Each suggestion is a line of the reply, stripped, non-empty and not starting with '#';
   * they keep the order of the lines (`Suggestions` is a prefix of `SuggestionLines`), and
   * none is dropped unless there are more than five.
   */
  lemma SuggestionsAreCleanLines(text: string)
    ensures forall s :: s in Suggestions(text) ==>
              IsSuggestion(s) && Strip(s) == s && exists line :: line in Split(text, '\n') && s == Strip(line)
    ensures IsSubsequence(SuggestionLines(text), StripAll(Split(text, '\n')))
    ensures |SuggestionLines(text)| <= 5 ==> Suggestions(text) == SuggestionLines(text)
  {
    var lines := Split(text, '\n');
    var stripped := StripAll(lines);
    var all := SuggestionLines(text);
    var r := Suggestions(text);
    forall s | s in r
      ensures IsSuggestion(s) && Strip(s) == s && exists line :: line in lines && s == Strip(line)
    {
      assert s in all;
      var k :| 0 <= k < |stripped| && stripped[k] == s;
      assert lines[k] in lines;
      StripIdempotent(lines[k]);
    }
    FilterIsSubsequence(stripped, IsSuggestion);
  }

  const EnhancePrefix: string := "Error al mejorar nota: "

  function EnhanceBody(model: Model, kind: string, store: seq<Note>, noteId: string, userId: string,
                       fault: Option<string>): Body<NoteWithAI>
  {
    match FetchOwned(store, noteId, userId, fault)
    case Raise(e) => Raise(e)
    case Return(n) =>
      match model(EnhancePrompt(kind, n))
      case Threw(m) => Raise(OtherException(m))
      case Returned(enhanced) =>
        match model(SuggestionsPrompt(n))
        case Threw(m) => Raise(OtherException(m))
        case Returned(text) =>
          Return(NoteWithAI(n, aiEnhancedContent := Some(enhanced), aiSuggestions := Some(Suggestions(text))))
  }

  /**
   * `/enhance`: 404 unless the user owns the note; otherwise the note with the model's rewrite
   * (under the prompt for `kind`, "improve" for an unknown kind) and at most five suggestions.
   */
  function Enhance(model: Model, kind: string, store: seq<Note>, noteId: string, userId: string, fault: Option<string>)
    : (r: Response<NoteWithAI>)
    ensures fault.None? && !Owns(store, noteId, userId) ==> r == Fail(NotFound)
    ensures fault.Some? ==> r == Fail(InternalError(EnhancePrefix + fault.value))
    ensures var rows := OwnedMatches(store, noteId, userId);
            fault.None? && rows != [] ==>
              var rewrite, advice := model(EnhancePrompt(kind, rows[0])), model(SuggestionsPrompt(rows[0]));
              && (rewrite.Threw? ==> r == Fail(InternalError(EnhancePrefix + rewrite.message)))
              && (rewrite.Returned? && advice.Threw? ==> r == Fail(InternalError(EnhancePrefix + advice.message)))
              && (rewrite.Returned? && advice.Returned? ==>
                    r == Ok(NoteWithAI(rows[0], aiEnhancedContent := Some(rewrite.value),
                                       aiSuggestions := Some(Suggestions(advice.value)))))
    ensures r.Ok? ==> r.value.note in store && r.value.note.id == noteId && r.value.note.userId == userId
    ensures r.Ok? ==> r.value.aiEnhancedContent.Some? &&
                      model(EnhancePrompt(kind, r.value.note)) == Returned(r.value.aiEnhancedContent.value)
    ensures r.Ok? ==> model(SuggestionsPrompt(r.value.note)).Returned? &&
                      r.value.aiSuggestions == Some(Suggestions(model(SuggestionsPrompt(r.value.note)).value))
    ensures r.Ok? ==> |r.value.aiSuggestions.value| <= 5 && r.value.aiSummary.None?
    ensures r.Fail? && r.error != NotFound ==> r.error.status == 500
  {
    FetchOwnedFinds(store, noteId, userId, fault);
    ReRaiseHttp(EnhanceBody(model, kind, store, noteId, userId, fault), EnhancePrefix)
  }

  // ---------------------------------------------------------------- generate

  const GenerateIntro: string := "Genera contenido para una nota basándote en la siguiente solicitud:\n        \n        "

  const GenerateOutro: string :=
    "\n        \n        El contenido debe ser:\n        - Bien estructurado y organizado\n        - Informativo y útil"
    + "\n        - Apropiado para una aplicación de notas\n        - Incluir puntos principales y detalles relevantes"
    + "\n        \n        Si no se proporciona un título específico, sugiere uno apropiado.\n        "

  function GeneratePrompt(request: string): string {
    GenerateIntro + request + GenerateOutro
  }

  const TitleIntro: string := "Genera un título conciso y descriptivo para el siguiente contenido:\n\n"

  function TitlePrompt(content: string): string {
    TitleIntro + Take(content, 200) + "..."
  }

  /** The generated title's clean-up: strip, drop every '"', drop every "Título:", strip again. */
  function CleanTitle(raw: string): (t: string)
    ensures '"' !in t
    ensures Strip(t) == t
    ensures |t| <= |raw|
  {
    var once := RemoveAll(RemoveAll(Strip(raw), "\""), "Título:");
    RemoveAllChar(Strip(raw), '"');
    StripIdempotent(once);
    StripKeepsCharacters(once);
    Strip(once)
  }

  /** Text without quotes or the label, and without surrounding blanks, is its own clean title. */
  lemma CleanTitleKeepsCleanText(raw: string)
    requires '"' !in raw && !Contains(raw, "Título:") && Strip(raw) == raw
    ensures CleanTitle(raw) == raw
  {
    ContainsChar(raw, '"');
    RemoveAllAbsent(raw, "\"");
    RemoveAllAbsent(raw, "Título:");
  }

  datatype Generated = Generated(title: string, content: string, generatedFromPrompt: string)

  const GeneratePrefix: string := "Error al generar contenido: "

  function GenerateBody(model: Model, request: string, title: Option<string>): Body<Generated> {
    match model(GeneratePrompt(request))
    case Threw(m) => Raise(OtherException(m))
    case Returned(content) =>
      if Given(title) then Return(Generated(title.value, content, request))
      else
        match model(TitlePrompt(content))
        case Threw(m) => Raise(OtherException(m))
        case Returned(raw) => Return(Generated(CleanTitle(raw), content, request))
  }

  /**
   * `/generate`: the model's content for the request; a supplied (truthy) title is kept verbatim,
   * otherwise the model's title for the first 200 characters is cleaned up.
   */
  function Generate(model: Model, request: string, title: Option<string>): (r: Response<Generated>)
    ensures r.Ok? ==> model(GeneratePrompt(request)) == Returned(r.value.content) && r.value.generatedFromPrompt == request
    ensures r.Ok? && Given(title) ==> r.value.title == title.value
    ensures r.Ok? && !Given(title) ==>
              model(TitlePrompt(r.value.content)).Returned? &&
              r.value.title == CleanTitle(model(TitlePrompt(r.value.content)).value)
    ensures r.Fail? ==> r.error.status == 500 && StartsWith(r.error.detail, GeneratePrefix)
    ensures var content := model(GeneratePrompt(request));
            && (content.Threw? ==> r == Fail(InternalError(GeneratePrefix + content.message)))
            && (content.Returned? && Given(title) ==> r == Ok(Generated(title.value, content.value, request)))
            && (content.Returned? && !Given(title) ==>
                  var raw := model(TitlePrompt(content.value));
                  && (raw.Threw? ==> r == Fail(InternalError(GeneratePrefix + raw.message)))
                  && (raw.Returned? ==> r == Ok(Generated(CleanTitle(raw.value), content.value, request))))
  {
    var r := CatchAll(GenerateBody(model, request, title), GeneratePrefix);
    assert r.Fail? ==> StartsWith(r.error.detail, GeneratePrefix);
    r
  }

  // ---------------------------------------------------------------- analyze-notes

  function EntryHead(n: Note): string {
    "Título: " + n.title + "\nContenido: "
  }

  /** One note of the analysis prompt: title, then the content cut to 200 characters, then "...". */
  function NoteEntry(n: Note): (e: string)
    ensures |e| == |EntryHead(n)| + Min(|n.content|, 200) + 3
    ensures StartsWith(e, EntryHead(n))
    ensures StartsWith(n.content, e[|EntryHead(n)|..|e| - 3])
    ensures e[|e| - 3..] == "..."
  {
    var head := EntryHead(n);
    var e := head + Take(n.content, 200) + "...";
    assert e[..|head|] == head;
    assert e[|head|..|e| - 3] == Take(n.content, 200);
    assert e[|e| - 3..] == "...";
    e
  }

  function Entries(rows: seq<Note>): (es: seq<string>)
    ensures |es| == |rows| && forall k :: 0 <= k < |rows| ==> es[k] == NoteEntry(rows[k])
  {
    if rows == [] then [] else [NoteEntry(rows[0])] + Entries(rows[1..])
  }

  /** `notes_summary`: the entries of the first ten notes, separated by blank lines. */
  function NotesSummary(rows: seq<Note>): string {
    Join(Entries(Take(rows, 10)), "\n\n")
  }

  const AnalysisIntro: string := "Analiza las siguientes notas de un usuario y proporciona insights útiles:\n        \n        "

  const AnalysisOutro: string :=
    "\n        \n        Proporciona:\n        1. Temas principales identificados\n        2. Patrones en el contenido"
    + "\n        3. Sugerencias para organización\n        4. Áreas de interés del usuario"
    + "\n        5. Recomendaciones para mejorar la productividad\n        \n        Mantén el análisis conciso y accionable.\n        "

  function AnalysisPrompt(summary: string): string {
    AnalysisIntro + summary + AnalysisOutro
  }

  /** Only the first ten notes reach the prompt: notes after the tenth do not change it. */
  lemma SummaryUsesFirstTen(rows: seq<Note>, more: seq<Note>)
    requires |rows| >= 10
    ensures NotesSummary(rows + more) == NotesSummary(rows)
  {
    assert Take(rows + more, 10) == Take(rows, 10);
  }

  datatype Analysis = NothingToAnalyze(message: string)
                    | Analysis(totalNotesAnalyzed: nat, insights: string, analysisDate: string)

  const AnalyzePrefix: string := "Error al analizar notas: "

  const NoNotes: string := "No hay notas para analizar"

  /** The date `analyze-notes` reports: a constant in the source. */
  const AnalysisDate: string := "2024-01-01"

  function AnalyzeBody(model: Model, store: seq<Note>, userId: string, fault: Option<string>): Body<Analysis> {
    if fault.Some? then Raise(OtherException(fault.value))
    else
      var rows := Filter(store, (n: Note) => n.userId == userId);
      if rows == [] then Return(NothingToAnalyze(NoNotes))
      else
        match model(AnalysisPrompt(NotesSummary(rows)))
        case Threw(m) => Raise(OtherException(m))
        case Returned(text) => Return(Analysis(|rows|, text, AnalysisDate))
  }

  /**
   * `/analyze-notes`: a message (with no insights) when the user has no notes; otherwise the
   * model's insights on the first ten notes, counting all of them.
   */
  function AnalyzeNotes(model: Model, store: seq<Note>, userId: string, fault: Option<string>): (r: Response<Analysis>)
    ensures fault.Some? ==> r == Fail(InternalError(AnalyzePrefix + fault.value))
    ensures fault.None? && (forall n :: n in store ==> n.userId != userId) ==>
              r == Ok(NothingToAnalyze(NoNotes))
    ensures var rows := Filter(store, (n: Note) => n.userId == userId);
            fault.None? && rows != [] ==>
              var answer := model(AnalysisPrompt(NotesSummary(rows)));
              && (answer.Returned? ==> r == Ok(Analysis(|rows|, answer.value, AnalysisDate)))
              && (answer.Threw? ==> r == Fail(InternalError(AnalyzePrefix + answer.message)))
    ensures r.Ok? && r.value.Analysis? ==>
              var rows := Filter(store, (n: Note) => n.userId == userId);
              rows != [] && r.value.totalNotesAnalyzed == |rows| &&
              model(AnalysisPrompt(NotesSummary(rows))) == Returned(r.value.insights)
    ensures r.Fail? ==> r.error.status == 500
  {
    var rows := Filter(store, (n: Note) => n.userId == userId);
    FilterNonEmpty(store, (n: Note) => n.userId == userId);
    CatchAll(AnalyzeBody(model, store, userId, fault), AnalyzePrefix)
  }
}
