# NOTESIA notes app — a Dafny model

NOTESIA is a note-taking web application. A FastAPI backend stores notes in Supabase, signs
its own JWT access tokens, and forwards prompts to Google Gemini. A React front end lists,
filters and edits notes and talks to the AI endpoints.

This project models the parts of the application that make decisions. On the backend:

- the notes router: ownership checks, record construction, the query it builds, the update
  merge, deletion, the tag listing and the mapping of errors to HTTP responses;
- the auth router: registration, login, `/me`, logout and the bearer dependency;
- the Gemini router: prompt assembly, suggestion parsing, title clean-up, note analysis and
  their error mapping;
- the token utilities and the note models.

On the front end, it models the note form, the dashboard's filter and list updates, the notes
list's display rules, the AI generation modal, the AI chat log, the auth context, the
registration page and the route guards.

Outside calls are parameters of the model:

- Supabase queries become a `store` of rows plus an optional fault text, or a `Call` result
  that either returns or throws.
- Gemini becomes a function `Model` from a prompt to a `Call<string>`.
- Clocks are integer `now` parameters.
- On the front end, an awaited API call becomes an `ApiResult` argument. Every async handler
  is split at its `await` into a `Begin…` method and a `Finish…` method.

Pure code is written as functions and lemmas. Code that mutates state is written as a class
whose methods state the whole new state with `old(...)`:

- the front-end components;
- the backend's `get_notes` query building, its `update_data` dict and the `get_user_tags` loop.

`get_current_user` in backend/app/routers/notes.py:20-31 is the same code as
`get_current_user_dependency` in backend/app/routers/auth.py:190-202. Both are modelled by
`AuthRouter.CurrentUserDependency`.

Module layout:

| file | module | models |
|---|---|---|
| wrappers.dfy, seqs.dfy, text.dfy, ordering.dfy | Wrappers, Seqs, Text, Ordering | Option, list and string operations (`strip`, `lower`, `in`, `split`, `join`, `replace`), Python's `str` order |
| http.dfy | Http | `HTTPException`, the two `try/except` shapes the routers use, `str(e)` of an `HTTPException` |
| note_model.dfy | NoteModel | backend/app/models/note.py |
| token_auth.dfy | TokenAuth | backend/app/utils/auth.py |
| notes_router.dfy | NotesRouter | backend/app/routers/notes.py |
| auth_router.dfy | AuthRouter | backend/app/routers/auth.py |
| gemini_router.dfy | GeminiRouter | backend/app/routers/gemini.py |
| client_model.dfy | ClientModel | the note objects and API results the front end sees |
| note_form.dfy, dashboard.dfy, notes_list.dfy, ai_generate_modal.dfy, ai_chat.dfy, use_auth.dfy, register_page.dfy, app_routes.dfy | NoteForm, Dashboard, NotesList, AIGenerateModal, AIChat, UseAuth, RegisterPage, AppRoutes | the front-end files of the same names |

## Model

| member | source | states |
|---|---|---|
| Http.ReRaiseHttp | backend/app/routers/notes.py:118-124 | a returned value is `Ok`; an `HTTPException` goes out unchanged; any other exception becomes 500 with the prefix and its text |
| Http.CatchAll | backend/app/routers/notes.py:58-62 | every exception, an `HTTPException` included, becomes 500 with the prefix and `str(e)`, which is "<status>: <detail>" for an `HTTPException` |
| NoteModel.StatusValue | backend/app/models/note.py:7-10 | the value is one of the three strings and parses back to the same member |
| NoteModel.ParseStatus | backend/app/models/note.py:7-10 | a string parses exactly when it is "draft", "published" or "archived" |
| NoteModel.StatusValueInjective | backend/app/models/note.py:7-10 | different members have different values |
| NoteModel.InDB | backend/app/models/note.py:27-31 | a stored note keeps its base fields and carries the given id, owner and timestamps |
| NoteModel.NoteBaseDefaults | backend/app/models/note.py:12-16 | tags default to `[]` and status to draft |
| NoteModel.NoteUpdateDefaults | backend/app/models/note.py:21-25 | every field of an update defaults to `None` |
| NoteModel.NoteWithAIDefaults | backend/app/models/note.py:36-42 | the AI suggestion list defaults to `[]` and every other AI field to `None` |
| TokenAuth.Decode | backend/app/utils/auth.py:71-75 | a token decodes exactly when it was signed with this key and any `exp` is an integer not in the past; the payload is its claims |
| TokenAuth.Expiry | backend/app/utils/auth.py:52-55 | a truthy (non-zero) delta is added to now; a missing or zero delta gives now plus 30 minutes |
| TokenAuth.CreateAccessToken | backend/app/utils/auth.py:40-59 | the token is signed with the key; its claims are the data's, plus `exp`, which overrides any `exp` in the data |
| TokenAuth.GetUserIdFromToken | backend/app/utils/auth.py:77-90 | a subject comes out exactly when the payload verifies, is non-empty and has "sub"; it is that claim |
| TokenAuth.IsTokenExpiredIff | backend/app/utils/auth.py:92-107 | a token counts as expired exactly when it fails verification, or its `exp` is missing or 0 |
| TokenAuth.IssuedSubjectRoundTrip | backend/app/utils/auth.py:40-90 | a token issued for a subject gives that subject back under the same key up to its expiry |
| TokenAuth.OtherKeyRejected | backend/app/utils/auth.py:71-75 | under any other key the token fails to verify, has no subject and counts as expired |
| TokenAuth.PastExpiryRejected | backend/app/utils/auth.py:71-75 | after its expiry the token fails to verify, has no subject and counts as expired |
| TokenAuth.ZeroDeltaFallsBack | backend/app/utils/auth.py:52-55 | a zero delta is falsy, so the token lives the default 1800 seconds |
| NotesRouter.OwnedMatchesNonEmpty | backend/app/routers/notes.py:108-114 | the rows matching both the id and the user are non-empty exactly when the user owns a note with that id |
| NotesRouter.CreateRecord | backend/app/routers/notes.py:38-46 | the record's owner is the authenticated user whatever the payload says; `None` tags become `[]`; status is stored as its value |
| NotesRouter.DescribeCreateFailed | backend/app/routers/notes.py:52-62 | `str()` of the empty-insert 400 is "400: Error al crear la nota", which the blanket handler puts after "Error interno: " |
| NotesRouter.CreateNote | backend/app/routers/notes.py:48-62 | the row `CreateRecord` builds is what is inserted; its first returned row is the answer; an empty result's 400 is caught and becomes 500 "Error interno: 400: Error al crear la nota"; an insert that throws is 500 with its text |
| NotesRouter.BuildNotesQuery | backend/app/routers/notes.py:76-90 | the query starts with the `user_id` condition and ends with the order by `updated_at` descending and the range `offset…offset+limit-1`; it has a status condition exactly when a status is given and a search filter exactly when a non-empty search is given |
| NotesRouter.QueryShape | backend/app/routers/notes.py:76-90 | the owner condition, the optional status and search conditions, the order and the range, appended in that order, form a query with exactly the shape `DescribesQuery` states |
| NotesRouter.GetNotes | backend/app/routers/notes.py:64-100 | `limit > 100` or `offset < 0` is refused (422) and nothing is sent; otherwise the query sent is the one `DescribesQuery` pins down, the rows it returns are the answer, and an execute that throws is 500 with its text |
| NotesRouter.GetNote | backend/app/routers/notes.py:102-124 | a returned note has that id and that owner; without a fault it is found exactly when the user owns it, otherwise 404 "Nota no encontrada"; a fault is 500 |
| NotesRouter.BuildUpdateData | backend/app/routers/notes.py:142-151 | the dict always has `updated_at` and holds exactly the update's fields that are not `None`, with their values |
| NotesRouter.ApplyDescribedUpdate | backend/app/routers/notes.py:142-153 | writing such a dict to a row gives the row merged with the update: given fields replaced, the others kept |
| NotesRouter.UpdateRows | backend/app/routers/notes.py:153 | rows with the id take the dict's fields; other rows are unchanged |
| NotesRouter.UpdateNote | backend/app/routers/notes.py:126-169 | a fault is 500 and changes nothing; a note the user does not own is 404 and changes nothing; otherwise the rows with that id are merged with the update and one of them is returned |
| NotesRouter.EmptyUpdateTouchesOnlyTimestamp | backend/app/routers/notes.py:142-151 | an update with no fields changes only `updated_at` |
| NotesRouter.EmptyValuesAreWritten | backend/app/routers/notes.py:144-151 | an empty title and an empty tag list are written, because the test is `is not None`, so tags can be cleared |
| NotesRouter.MergeKeepsIdentity | backend/app/routers/notes.py:142-153 | a merge keeps the id, the owner and `created_at`, and sets `updated_at` to now |
| NotesRouter.DeleteNote | backend/app/routers/notes.py:171-196 | a note the user does not own is 404 and nothing is removed; success says "Nota eliminada exitosamente" and leaves, in order and with their multiplicities, exactly the rows with another id; a failing select or delete is 500 with its text and removes nothing |
| NotesRouter.TagsOfMembers | backend/app/routers/notes.py:207-210 | a tag is in the union exactly when some row has it in a non-null tag list |
| NotesRouter.UserTags | backend/app/routers/notes.py:203-210 | the union of the tags of the user's rows holds exactly the tags found on some note of that user with non-null tags |
| NotesRouter.CollectTags | backend/app/routers/notes.py:207-212 | the loop over the rows yields a strictly ascending list holding exactly the union of their tags |
| NotesRouter.GetUserTags | backend/app/routers/notes.py:198-218 | the list is strictly ascending (sorted, no duplicates) and holds exactly the tags of the user's notes; notes with null tags add nothing; a fault is 500 |
| Ordering.InsertSorted | backend/app/routers/notes.py:210-212 | adding a tag keeps the list strictly ascending |
| Ordering.StrictlySortedUnique | backend/app/routers/notes.py:212 | two strictly ascending lists with the same members are equal, so the tag list is the one `sorted(set(...))` gives |
| AuthRouter.CurrentUserDependency | backend/app/routers/auth.py:190-202 | the user id is the token's truthy "sub" claim; otherwise 401 "Token inválido o expirado" with a Bearer challenge |
| AuthRouter.IssuedTokenAuthenticates | backend/app/routers/auth.py:195-202 | a token issued for a non-empty user id authenticates that user up to its expiry |
| AuthRouter.EmailLocalPart | backend/app/routers/auth.py:34 | the part before the first '@': a prefix of the email without '@', followed by '@' when shorter |
| AuthRouter.WithDefaultUsername | backend/app/routers/auth.py:32-34 | a missing or empty username becomes the email's local part; a given one is kept; nothing else changes |
| AuthRouter.UnexpectedError | backend/app/routers/auth.py:140-151 | an exception text is 400 "El email ya está registrado…" exactly when its lower-cased text contains "already registered", otherwise 500 "Error interno del servidor" |
| AuthRouter.AlreadyRegisteredSubsumed | backend/app/routers/auth.py:142 | the case-sensitive "User already registered" test is subsumed by the lower-cased one |
| AuthRouter.Register | backend/app/routers/auth.py:26-151 | a taken email is 400 "El email ya está registrado"; a successful sync answers with the synced user; otherwise a sign-up that throws, returns no user, or is followed by an insert that throws or fails gives exactly the matching error, and a successful insert gives the message, the sign-up id and the record built from the user |
| AuthRouter.SyncFailureIgnored | backend/app/routers/auth.py:51-87 | a sync insert that fails or throws is swallowed, and registration goes on as if the probe had found no user |
| AuthRouter.NewUserRegistered | backend/app/routers/auth.py:89-135 | for any user and any sign-up id, a new email with a successful sign-up and insert is registered under that id with the record of the user's fields, whose username is the email's local part when none was given |
| AuthRouter.SignUpExceptionMapped | backend/app/routers/auth.py:138-151 | a sign-up that throws gives 400 "El email ya está registrado" exactly when its lower-cased text contains "already registered", and otherwise 500 "Error interno del servidor" |
| AuthRouter.Login | backend/app/routers/auth.py:153-188 | login succeeds exactly when sign-in returns a user; then the token type is "bearer", `expires_in` is minutes×60 and the token's subject is the user id; every failure is 401 "Credenciales incorrectas" |
| AuthRouter.LoginTokenLifetime | backend/app/routers/auth.py:165-177 | with a non-zero lifetime the issued token authenticates the user up to `expires_in` seconds later |
| AuthRouter.ZeroMinutesLifetimeMismatch | backend/app/routers/auth.py:167-176 | with a lifetime of 0 minutes `expires_in` is 0 but the token lives the default 1800 seconds |
| AuthRouter.DescribeUserNotFound | backend/app/routers/auth.py:212-225 | `str()` of the 404 is "404: Usuario no encontrado", which the blanket handler puts after "Error interno: " |
| AuthRouter.Me | backend/app/routers/auth.py:204-225 | a returned user has the token's id; without a fault one is returned exactly when such a user exists, and a missing one becomes 500 "Error interno: 404: Usuario no encontrado" |
| AuthRouter.Logout | backend/app/routers/auth.py:227-231 | the message is "Sesión cerrada exitosamente"; the server keeps no session, so the token verifies under every key and at every time exactly as before |
| GeminiRouter.ChatPrompt | backend/app/routers/gemini.py:59-63 | the prompt starts with the system prompt and ends with the user's question; between them is the context section exactly when a truthy context is given |
| GeminiRouter.Chat | backend/app/routers/gemini.py:42-76 | the reply is the model's text for that prompt, echoed with the prompt; a model failure is 500 "Error al procesar con IA: …" |
| GeminiRouter.FetchOwnedFinds | backend/app/routers/gemini.py:84-94 | a fetched note has that id and owner; without a fault it is found exactly when the user owns it, else 404 |
| GeminiRouter.Summarize | backend/app/routers/gemini.py:78-124 | 404 for a note not owned; for an owned note, a model answer gives the first matching row with that answer as summary and an empty suggestion list, and a model that throws gives 500 "Error al generar resumen: " and its text; a fault is 500 |
| GeminiRouter.PromptBase | backend/app/routers/gemini.py:145-151 | a known enhancement type gets its own prompt; any other type falls back to the "improve" prompt |
| GeminiRouter.SuggestionsAreCleanLines | backend/app/routers/gemini.py:172-178 | every suggestion is a stripped line of the model's text that is non-empty and does not start with '#'; the suggestions keep the text's order; at most five are kept, all of them when there are at most five |
| GeminiRouter.Enhance | backend/app/routers/gemini.py:126-187 | 404 for a note not owned; for an owned note, two answers give the original, the first answer as enhanced text and at most five suggestions parsed from the second; either call throwing gives 500 "Error al mejorar nota: " and its text |
| Text.Trim | frontend/src/components/AIChat.jsx:37 | the result has no whitespace at either end, is no longer than the input, and is empty exactly when the input is blank in JavaScript's sense |
| Text.Strip | backend/app/routers/gemini.py:173 | the result has no Python whitespace at either end, is no longer than the input, and is empty exactly when every character is Python whitespace |
| Text.StripIdempotent | backend/app/routers/gemini.py:173 | stripping a stripped string changes nothing |
| Text.SeparatorsDiffer | backend/app/routers/gemini.py:173 | a lone U+001C..U+001F is removed by Python's `strip` but kept by JavaScript's `trim` |
| GeminiRouter.CleanTitle | backend/app/routers/gemini.py:215 | the cleaned title has no '"', is already stripped and is no longer than the raw text |
| GeminiRouter.CleanTitleKeepsCleanText | backend/app/routers/gemini.py:215 | a stripped title without '"' and without "Título:" comes through unchanged |
| GeminiRouter.Generate | backend/app/routers/gemini.py:189-227 | a content call that throws is 500 "Error al generar contenido: " and its text; otherwise the content is the model's text and the request is echoed, with a truthy title kept, or else the cleaned answer to the title prompt, or 500 when that call throws |
| GeminiRouter.NoteEntry | backend/app/routers/gemini.py:246 | an entry is the title header, the first 200 characters of the content, then "..." |
| GeminiRouter.SummaryUsesFirstTen | backend/app/routers/gemini.py:245-248 | notes after the tenth do not change the summary |
| GeminiRouter.AnalyzeNotes | backend/app/routers/gemini.py:229-277 | a user without notes gets "No hay notas para analizar" and no insights; otherwise an answer gives the count of all their notes, the answer as insights and the date "2024-01-01", and a model that throws gives 500 "Error al analizar notas: " and its text |
| ClientModel.ErrorText | frontend/src/pages/Dashboard.jsx:57 | the prefix followed by the error's message, or by "Error desconocido" when the message is empty |
| NoteForm.CollectErrors | frontend/src/components/NoteForm.jsx:36-54 | the errors are exactly those of failing fields with their messages: a blank title or content is required, a title over 200 or a content over 10000 characters is too long, more than 10 tags is too many; none means the form is valid |
| NoteForm.NoteFormState.ValidateForm | frontend/src/components/NoteForm.jsx:36-57 | replaces the errors with those of the current fields and reports valid exactly when there are none; the fields are unchanged |
| NoteForm.NormalizeTag | frontend/src/components/NoteForm.jsx:77 | the tag is trimmed and lower-cased: empty exactly when the input is blank, and already lower-case |
| NoteForm.WithTagKeepsGood | frontend/src/components/NoteForm.jsx:79 | adding a tag keeps the list free of duplicates and within ten; a non-empty new tag is appended when there is room |
| NoteForm.NoteFormState.LoadNote | frontend/src/components/NoteForm.jsx:18-34 | missing fields become "", `[]` and 'draft'; a status outside the three known ones becomes 'draft' |
| NoteForm.NoteFormState.HandleInputChange | frontend/src/components/NoteForm.jsx:59-73 | the named field takes the value; its error is cleared only if one is set; nothing else changes |
| NoteForm.NoteFormState.HandleAddTag | frontend/src/components/NoteForm.jsx:75-94 | the normalised tag is appended only when non-empty, new and with fewer than ten tags; only then are the input and a tags error cleared |
| NoteForm.NoteFormState.HandleRemoveTag | frontend/src/components/NoteForm.jsx:96-101 | every copy of the tag goes, the other tags keep their order, and a duplicate-free list stays duplicate-free |
| NoteForm.NoteFormState.BeginSubmit | frontend/src/components/NoteForm.jsx:103-110 | the form data is handed on exactly when it is valid, and only then does loading start |
| NoteForm.NoteFormState.FinishSubmit | frontend/src/components/NoteForm.jsx:117-120 | loading ends whatever the submission did |
| Dashboard.FilteredNotes | frontend/src/pages/Dashboard.jsx:103-127 | the shown notes are the notes passing both the search and the status test, in their original order, each as many times as it occurs |
| Dashboard.NoFilterShowsAll | frontend/src/pages/Dashboard.jsx:106 | a blank term with status 'all' shows every note |
| Dashboard.UnknownFilterIsAll | frontend/src/pages/Dashboard.jsx:111-120 | a search filter other than 'title' or 'content' behaves like 'all' |
| Dashboard.MatchIgnoresCase | frontend/src/pages/Dashboard.jsx:107-109 | the search test gives the same answer for terms, titles and contents that agree once lower-cased, so case never matters |
| Dashboard.MatchLowerTerm | frontend/src/pages/Dashboard.jsx:104-109 | a term and its lower-cased form select the same notes |
| Dashboard.ReplaceById | frontend/src/pages/Dashboard.jsx:65-69 | each note with the id is replaced by the updated one and every other note is kept in place |
| Dashboard.ReplaceThenRemoveAt | frontend/src/pages/Dashboard.jsx:65-85 | deleting after an update of the same id leaves what deleting alone leaves |
| Dashboard.RemoveById | frontend/src/pages/Dashboard.jsx:85 | deleting keeps, in order and with their multiplicities, exactly the notes with another id |
| Dashboard.ReplaceThenRemove | frontend/src/pages/Dashboard.jsx:65-85 | deleting a note just replaced gives the list that deleting it from the original gives |
| Dashboard.DashboardState.HandleCreateNote | frontend/src/pages/Dashboard.jsx:50-60 | a created note goes to the front, the form closes and the error clears; a failure only sets the error |
| Dashboard.DashboardState.HandleUpdateNote | frontend/src/pages/Dashboard.jsx:62-76 | an updated note replaces the notes with its id and editing ends; a failure only sets the error |
| Dashboard.DashboardState.HandleDeleteNote | frontend/src/pages/Dashboard.jsx:78-90 | an unconfirmed delete changes nothing; a confirmed one removes the notes with the id, or on failure only sets the error |
| NotesList.TruncateContent | frontend/src/components/NotesList.jsx:61-64 | content of at most 150 characters is kept; longer content becomes its first 150 characters and "..." |
| NotesList.StatusIcon | frontend/src/components/NotesList.jsx:35-46 | each known status has its icon; anything else gets 📄 |
| NotesList.StatusText | frontend/src/components/NotesList.jsx:48-59 | each known status has its label; anything else gets "Sin estado" |
| NotesList.KnownStatusesDistinct | frontend/src/components/NotesList.jsx:35-59 | the three known statuses have different icons and labels, all different from the default |
| NotesList.TagRow | frontend/src/components/NotesList.jsx:102-116 | the tag row appears exactly for a non-empty tag list, with the first three tags and a "+n" badge |
| NotesList.TagsAccountedFor | frontend/src/components/NotesList.jsx:104-112 | the badge counts exactly the tags not shown |
| NotesList.CardFor | frontend/src/components/NotesList.jsx:70-133 | a card shows the status icon and label, the title, the truncated content, the tag row and the creation date, and the update date exactly when it differs from the creation date; a note without content has no card |
| NotesList.CardDates | frontend/src/components/NotesList.jsx:119-130 | a note never edited since creation shows one date; an edited one shows its update date as well |
| NotesList.RenderList | frontend/src/components/NotesList.jsx:5-22 | loading shows the spinner; otherwise a missing or empty list shows the empty state, and any other list is shown as a grid of exactly those notes |
| AIGenerateModal.ExtractTitle | frontend/src/components/AIGenerateModal.jsx:48-49 | the title is the first non-blank line cut to 100 characters; only blank text gets 'Nota generada por IA', which saving never sends |
| AIGenerateModal.GenerateModalState.BeginGenerate | frontend/src/components/AIGenerateModal.jsx:15-24 | a blank prompt or a running generation does nothing; otherwise the trimmed prompt is sent and the text and error are cleared |
| AIGenerateModal.GenerateModalState.FinishGenerate | frontend/src/components/AIGenerateModal.jsx:24-37 | a non-empty note becomes the text and the step becomes 'preview'; otherwise the error is set and the step stays; generation ends in every case |
| AIGenerateModal.GenerateModalState.BeginSave | frontend/src/components/AIGenerateModal.jsx:40-57 | blank text does nothing; otherwise the step becomes 'saving' and a draft with the extracted title and the text is sent |
| AIGenerateModal.GenerateModalState.FinishSave | frontend/src/components/AIGenerateModal.jsx:57-70 | success hands the new note to `onNoteCreated` when it is given, then closes the modal back to 'prompt' and calls `onClose`; failure sets the error, returns to 'preview' and calls nothing |
| AIGenerateModal.GenerateModalState.HandleClose | frontend/src/components/AIGenerateModal.jsx:73-79 | prompt, text, error and step are reset and `onClose` is called once |
| AIGenerateModal.GenerateModalState.HandleBackToPrompt | frontend/src/components/AIGenerateModal.jsx:81-84 | only the step and the error change |
| AIGenerateModal.GenerateModalState.SetPrompt | frontend/src/components/AIGenerateModal.jsx:126 | only the prompt changes |
| AIChat.ReplyText | frontend/src/components/AIChat.jsx:54-73 | the answer is the reply, or a fallback when the reply is empty or the call failed; it is never empty |
| AIChat.ChatState.BeginSend | frontend/src/components/AIChat.jsx:35-52 | a blank input or a request in flight does nothing; otherwise the trimmed input is appended as the user's message, the input is cleared, the request starts and the log keeps its greeting |
| AIChat.ChatState.FinishSend | frontend/src/components/AIChat.jsx:54-76 | exactly one assistant message is appended, earlier messages are kept, a failure sets the error, and the request ends |
| AIChat.ChatState.ClearChat | frontend/src/components/AIChat.jsx:86-96 | the log is the greeting with id 1 alone and the error is cleared |
| AIChat.ChatState.SetInput | frontend/src/components/AIChat.jsx:179 | only the input changes |
| UseAuth.ClearedIdempotent | frontend/src/hooks/useAuth.jsx:103-112 | removing both keys twice is removing them once |
| UseAuth.AuthState.CheckAuth | frontend/src/hooks/useAuth.jsx:25-46 | both keys stored restores the session; otherwise nothing changes; a throwing read logs out; loading ends |
| UseAuth.AuthState.FinishLogin | frontend/src/hooks/useAuth.jsx:52-83 | a non-empty `access_token` is stored with the email and signs in; a missing one or a failure reports the error and leaves the session; loading ends |
| UseAuth.AuthState.FinishRegister | frontend/src/hooks/useAuth.jsx:86-100 | the session is never touched; failure reports the message or the default; loading ends |
| UseAuth.AuthState.Logout | frontend/src/hooks/useAuth.jsx:103-112 | both keys are removed and token, user and the signed-in flag are cleared |
| UseAuth.AuthState.GetToken | frontend/src/hooks/useAuth.jsx:115-117 | the token held when non-empty, else the stored one |
| UseAuth.AuthState.SignedInTokenIsStored | frontend/src/hooks/useAuth.jsx:115-117 | while signed in, `getToken` gives the stored token, which is non-empty |
| UseAuth.AuthState.BeginRequest | frontend/src/hooks/useAuth.jsx:52-54 | loading starts and the session and storage are untouched |
| RegisterPage.ValidationError | frontend/src/pages/Register.jsx:28-38 | the check passes exactly when both passwords are equal and have at least 6 characters; a mismatch is reported before the length |
| RegisterPage.FailureText | frontend/src/pages/Register.jsx:72-78 | an error mentioning "El email ya está registrado" gets the friendly text; another error is shown as is; an empty one gets the default |
| RegisterPage.TakenEmailIsFriendly | frontend/src/pages/Register.jsx:74-76 | both details the backend gives for a taken email come out as the friendly text |
| RegisterPage.RegisterForm.BeginSubmit | frontend/src/pages/Register.jsx:40-54 | both messages are cleared; a failing check sets its error and sends nothing; otherwise email, password, first and last name are sent, without the confirmation |
| RegisterPage.RegisterForm.FinishSubmit | frontend/src/pages/Register.jsx:56-79 | success clears all five fields and sets the success message; failure sets the error text |
| RegisterPage.RegisterForm.HandleChange | frontend/src/pages/Register.jsx:20-26 | the named field takes the value and every other field keeps its own |
| AppRoutes.ProtectedRoute | frontend/src/App.jsx:10-28 | the placeholder exactly while loading; then the page exactly when signed in, else a redirect to /login |
| AppRoutes.PublicRoute | frontend/src/App.jsx:31-49 | the placeholder exactly while loading; then the page exactly when signed out, else a redirect to /home |
| AppRoutes.RouteFor | frontend/src/App.jsx:52-82 | a path has a route exactly when, lower-cased and without trailing slashes, it is one of the four route paths; "/" redirects to /login; only /home is protected |
| AppRoutes.RouteIgnoresCaseAndSlash | frontend/src/App.jsx:52-82 | a path is routed like its lower-case form and like itself with a trailing slash |
| AppRoutes.GuardsSeparatePages | frontend/src/App.jsx:27-48 | once loading is over, the home page is shown only when signed in and the public pages only when signed out |
| AppRoutes.LoginSettles | frontend/src/App.jsx:56-63 | once loading is over, /login shows the login page when signed out, and when signed in reaches the home page in one more hop |
| AppRoutes.HomeSettles | frontend/src/App.jsx:72-79 | once loading is over, /home shows the home page when signed in, and when signed out reaches the login page in one more hop |
| AppRoutes.RoutesSettle | frontend/src/App.jsx:52-82 | every route reaches a page within two redirects: the home page when signed in, else the login page, or the register page when /register was asked for, in any case and with any trailing slashes |

## Left out

- Supabase is abstract. Its filtering (`eq`, `ilike`, `or_`), ordering, range execution, inserts and auth sign-in and sign-up are results passed in. `get_notes` returns whatever the executed query returns.
- The update at backend/app/routers/notes.py:153 and the delete at backend/app/routers/notes.py:186 filter on the id only, not the owner. The model applies each to every row with that id, after the ownership check (`UpdateRows`, `DeleteRows`).
- The 400 "Error al actualizar la nota" for an empty update result (backend/app/routers/notes.py:155-161) cannot happen in the model. After the ownership check the row exists, so the update always returns it.
- The `NoteStatus.DRAFT` fallback at backend/app/routers/notes.py:42 cannot be reached, because the status always has a value. The member it names does not exist in the enum.
- bcrypt password hashing (backend/app/utils/auth.py:15-38) is not modelled. A user record keeps the password it was given.
- HS256 signing is symbolic. A token records its claims and the key it was signed with.
- The clock, time zones and the local-time `fromtimestamp` at backend/app/utils/auth.py:106 are not modelled. Times are integer seconds.
- Gemini's output is an arbitrary string or an exception, given by the `Model` parameter.
- `AuthRouter.Register` models the in-place assignment to `user_data.username` as a record update.
- The analysis date is the constant the source returns. The analysis `select` of four columns is not modelled; whole rows are used.
- `GeminiRouter.CleanTitle` does not state that no "Título:" remains. The single left-to-right `replace` can create a new occurrence, for example from "TíTítulo:tulo:". For text that has no '"' and no "Título:", `CleanTitleKeepsCleanText` states that it comes through unchanged.
- Case mapping is ASCII only. Python's `lower` and JavaScript's `toLowerCase` also map non-ASCII letters. Whitespace is not simplified: each language's set is modelled over the code points (`Text.IsSpace` for JavaScript, `Text.IsPySpace` for Python).
- `TokenAuth.Decode` checks only the signature and `exp`. python-jose also checks that `sub` is a string and validates `aud`, `iat` and `nbf` when they are present. These checks are not modelled; the tokens this code issues carry only `sub` (the Supabase user id, a string) and `exp`.
- `UseAuth.AuthState.CheckAuth` with a throwing read runs `logout` to the end, so the keys and the state are cleared. In a browser whose storage throws on reads, `removeItem` in `logout` (frontend/src/hooks/useAuth.jsx:105-106) would likely throw as well, and the setters after it would not run. A separate failure of the removals is not modelled.
- String lengths count code points. JavaScript's `.length` counts UTF-16 units, which differs for characters outside the BMP.
- frontend/src/utils/api.js is not part of this model. Its `fetch` plumbing is an `ApiResult`, whose failure message is the error's `message`.
- The front end reads `response.note` (frontend/src/components/AIGenerateModal.jsx:26), but the backend returns `title` and `content`. This integration mismatch is not modelled; the modal takes the `note` value as given.
- `Dashboard`'s `loadNotes` (frontend/src/pages/Dashboard.jsx:36-48) and its redirect of a signed-out user are not modelled. They are fetch plumbing around `setNotes`.
- Presentation is not modelled: JSX, icons, locale date formatting, scrolling, focus and the modal's `isOpen`.
- The Enter key handlers are not modelled.
- The 2-second `setTimeout` redirect after registration is not modelled.
- React state batching and interleaved async handlers are not modelled. Each `Begin…`/`Finish…` pair is two atomic steps.
- `Date.now()` ids and `window.confirm` are parameters.
- `NotesList.TruncateContent` takes a string. A note with null content, which `truncateContent` fails on, gets no card from `NotesList.CardFor`; what React then shows is not modelled.
- The card's edit and delete buttons only pass the note or its id to the parent and are not modelled.
- Route matching models react-router's case-insensitive paths and ignored trailing slashes only. Percent-decoding, nested routes and route ranking are not modelled.
- `UseAuth.AuthState.FinishLogin` keeps the session invariant only for a non-empty email. An empty email signs in, but that session would not be restored from storage; the invariant says so.
