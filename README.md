# ResearchFlow — a verified model of its client-side logic

ResearchFlow is a Next.js application for writing academic papers. Most of it
is React rendering and relays to hosted language models. Under that sits a small
amount of deterministic logic, and this project models it in Dafny:

- **Paper registry** (`Dashboard`, `CreatePaperModal`). The list of papers is kept
  in local storage under `researchflow_papers`. It is seeded with two sample papers
  when empty. The "Create New Research Paper" form adds to it, and the dashboard
  shows a search filter, progress colours and completed / in-progress counts.
- **Paper editor shell** (`PaperEditor`). It looks the paper up by id and appends
  reference entries to the paper's references section in storage. It also keeps
  the per-task AI result map and handles edits on the settings tab.
- **Outline panel** (`OutlinePanel`). A two-level section tree with the
  expanded-section set, the word total and the completed-section count.
- **Citation library** (`Citations`). APA-like and MLA-like reference strings,
  citation keys, search and type filter, add / delete, and pre-filling the form
  from a resolved DOI.
- **Mock DOI resolver** (`DoiResolver`). `POST /api/citations/resolve` refuses a
  missing DOI. Otherwise it picks one of three fixed records by the sum of the
  DOI's character codes modulo 3.
- **AI route** (`AiRoute`). `POST /api/ai` sorts the action into the Claude set or
  the OpenAI set and calls that provider only when its key is configured. In every
  other case it answers with a fixed warning.
- **Feedback usage cap** (`FeedbackModal`). A counter that starts at 3 and only
  goes up while it is below 10.
- **Session and theme** (`Session`). A mock login / signup / logout and a dark-theme
  switch, both written through to local storage.

Shared modules model the JavaScript facilities the code relies on:

- `Text`: `trim`, `split(c)[0]`, `includes`, `toLowerCase`, `join`.
- `Json`: `JSON.stringify`, plus a parser for its output, with `Parse(Stringify(j)) == Some(j)` proved.
- `Seqs`: `Array.prototype.filter`.
- `Storage`: `localStorage`, as one shared object over a `map<string, string>`.

Components that change state are classes with `modifies` clauses: `DashboardPage`,
`CreatePaperForm`, `Panel`, `PaperEditorPage`, `CitationLibrary`, `FeedbackDialog`
and `AppSession`. Their pure parts are functions, with lemmas about them.

Two behaviours of the code worth knowing:

- **The AI route never answers 400.** An unknown action (for example
  `suggest_citations`) or a missing one takes the no-key branch and gets status
  200 with the warning text. The only error status is 500.
- **Malformed stored JSON stops the effect.** Where `JSON.parse` would throw on
  malformed stored data, the effect stops at that point. So the loading flags stay
  as they were, and the model says so.

## Model

| member | source | states |
|---|---|---|
| Json.ParseStringify | components/dashboard/dashboard.tsx:58-86 | Reading back any stringified JSON value gives the same value (`JSON.parse(JSON.stringify(v))` is `v`) |
| Json.LookupLast | app/providers.tsx:53 | A property whose key no later member repeats is read back as its own value, as `JSON.parse` resolves repeated keys last-wins |
| Text.TrimShape | components/editor/citation-manager.tsx:124 | `trim` drops exactly the ECMAScript whitespace at both ends: the result is empty iff the text is all whitespace, otherwise it starts and ends with a non-blank |
| Text.BeforeFirst | components/editor/citation-manager.tsx:124 | `s.split(c)[0]` is the longest prefix without `c`; it is followed by `c` unless it is the whole string |
| Seqs.Filter | components/editor/citation-manager.tsx:200-205 | `filter` returns no more elements than it was given, every one of them from the list and satisfying the predicate, and every satisfying element shows up |
| Seqs.FilterCounts | components/editor/citation-manager.tsx:200-205 | Every element is kept exactly as many times as it occurs when it satisfies the predicate, and not at all otherwise |
| Seqs.FilterIsSubsequence | components/dashboard/dashboard.tsx:111-114 | A filtered list is an order-preserving sub-list of the original |
| Seqs.DisjointFiltersFit | components/dashboard/dashboard.tsx:207-221 | Two filters with disjoint predicates together keep at most as many elements as the list has |
| Storage.LocalStorage.Get | app/providers.tsx:51-57 | `getItem` returns the stored value, or nothing exactly when the key is absent |
| DoiResolver.CharCodeSumAppend | app/api/citations/resolve/route.ts:51 | The character-code sum of a concatenation is the sum of the parts' sums |
| DoiResolver.RecordIndex | app/api/citations/resolve/route.ts:51 | The selected index is the character-code sum mod 3, so always 0, 1 or 2 |
| DoiResolver.MockRecord | app/api/citations/resolve/route.ts:14-52 | The three fixed records all echo the DOI in `doi` and in the `https://doi.org/` url, are journals, and have 2 to 4 authors with a non-empty first one |
| DoiResolver.Resolve | app/api/citations/resolve/route.ts:4-54 | 400 "Missing DOI" iff the DOI is missing or empty; otherwise the record at the checksum index, which echoes the DOI, is a journal, and has a non-empty author list, title and year |
| DoiResolver.SwappedHalvesSameRecord | app/api/citations/resolve/route.ts:51-52 | A DOI and the same DOI with its two halves swapped select the same record: only the characters decide the choice |
| Citations.TypeNameRoundTrip | components/editor/citation-manager.tsx:26 | Each source type's name reads back as that type, and no type is named "all" |
| Citations.MlaYearAfterTitle | components/editor/citation-manager.tsx:104-115 | Any style other than "apa" gives MLA, where the title follows the author and its opening mark and the year comes after the title, for every type |
| Citations.ApaYearFollowsAuthor | components/editor/citation-manager.tsx:92-103 | With the default style every APA string opens with "author (year)." |
| Citations.ApaJournalEndsWithDoi | components/editor/citation-manager.tsx:96 | With a non-empty DOI the trimmed APA journal string ends with `https://doi.org/` + doi |
| Citations.ApaJournalEndsWithPeriod | components/editor/citation-manager.tsx:96 | Without a DOI the trimmed APA journal string ends with the period after the pages |
| Citations.DefaultTemplateShared | components/editor/citation-manager.tsx:101-114 | Conference, thesis and other sources all use the default template, in both styles |
| Citations.BookAndWebsiteOwnTemplates | components/editor/citation-manager.tsx:97-112 | Books and websites get templates of their own, different from the default, in both styles |
| Citations.MlaBookStandsApart | components/editor/citation-manager.tsx:106-115 | In MLA a book citation differs from the same source cited as any other type, since only the book title opens with a star |
| Citations.StylesDiffer | components/editor/citation-manager.tsx:92-116 | APA and MLA never produce the same string: after the author APA has " (" and MLA an opening quote or star |
| Citations.KeyAuthorChars | components/editor/citation-manager.tsx:124 | The key's author part (the lower-cased author cut at the first comma, trimmed) holds no comma and no upper-case letter |
| Citations.KeyAuthorBlank | components/editor/citation-manager.tsx:124 | The key's author part starts and ends with a non-blank, and is empty exactly when the author's text before its first comma is blank |
| Citations.KeyTitle | components/editor/citation-manager.tsx:124 | The key's title part is the longest space-free prefix of the lower-cased title |
| Citations.FilterSources | components/editor/citation-manager.tsx:200-205 | An order-preserving sub-list holding every occurrence of each source whose title or author contains the term ignoring case and whose type passes the filter ("all" or its own), and nothing else |
| Citations.EmptySearchKeepsAll | components/editor/citation-manager.tsx:200-205 | An empty search with the "all" filter keeps every source, in order |
| Citations.EmptyDraft | components/editor/citation-manager.tsx:78-90 | The reset form (a journal with every field empty) cannot be added |
| Citations.SourceFromDraft | components/editor/citation-manager.tsx:122-126 | The new source has the fresh id and the key derived from author, year and title |
| Citations.SourceKeepsDraft | components/editor/citation-manager.tsx:125 | Every form field is carried into the new source unchanged |
| Citations.RemoveById | components/editor/citation-manager.tsx:146 | Deleting removes every source with the id and keeps every occurrence of all others, in order |
| Citations.ImportedDraftCanBeAdded | components/editor/citation-manager.tsx:174-187 | Importing any non-empty DOI through the resolver fills a form that can be added at once: a journal whose DOI is the one typed, noted as imported |
| Citations.CitationLibrary.AddSource | components/editor/citation-manager.tsx:119-143 | Without title, author or year nothing changes; otherwise exactly one source is prepended, the old ones keep their order, the form resets and the dialog closes |
| Citations.CitationLibrary.DeleteSource | components/editor/citation-manager.tsx:145-147 | The list becomes the list without the id's sources; the form is untouched |
| Citations.CitationLibrary.ImportDoi | components/editor/citation-manager.tsx:153-198 | A blank DOI, a failed request or an error status changes nothing; resolved metadata fills the form, clears the DOI input and opens the dialog |
| CreatePaperModal.EmptyForm | components/dashboard/create-paper-modal.tsx:18-24 | The form starts with all five fields empty |
| CreatePaperModal.SubmitIgnoresDueDateAndDescription | components/dashboard/create-paper-modal.tsx:119 | Neither the due date nor the description affects whether submit is enabled |
| CreatePaperModal.EmptyFormCannotSubmit | components/dashboard/create-paper-modal.tsx:119 | The empty form cannot be submitted |
| CreatePaperModal.With | components/dashboard/create-paper-modal.tsx:18-24 | A field edit sets that field and keeps the other four |
| CreatePaperModal.FillingRequiredFieldsEnablesSubmit | components/dashboard/create-paper-modal.tsx:117-121 | Once the title, topic and type inputs hold non-empty text, whatever else the form holds, the submit button is enabled |
| CreatePaperModal.ClearingRequiredFieldDisablesSubmit | components/dashboard/create-paper-modal.tsx:117-121 | Emptying the title, the topic or the type disables the submit button |
| CreatePaperModal.CreatePaperForm.HandleSubmit | components/dashboard/create-paper-modal.tsx:26-30 | Hands the current form to the caller, then resets all five fields |
| CreatePaperModal.CreatePaperForm.HandleClose | components/dashboard/create-paper-modal.tsx:32-35 | Resets all five fields |
| Dashboard.PaperRoundTrip | components/dashboard/dashboard.tsx:28-38 | A stored paper object reads back as the same paper, with or without a due date |
| Dashboard.DecodeEncodePapers | components/dashboard/dashboard.tsx:58-107 | A stored paper list parses back to the same list |
| Dashboard.NewPaper | components/dashboard/dashboard.tsx:92-103 | A new paper has progress 0 and word count 0, the given id, title, topic, type and due date, and dates that are the timestamps cut before 'T' |
| Dashboard.SearchPapers | components/dashboard/dashboard.tsx:111-114 | An order-preserving sub-list holding every occurrence of each paper whose title or topic contains the term ignoring case, and nothing else |
| Dashboard.EmptySearchKeepsAll | components/dashboard/dashboard.tsx:111-114 | An empty search keeps every paper |
| Dashboard.ProgressColor | components/dashboard/dashboard.tsx:124-129 | Every integer progress falls in exactly one bucket: red below 25, yellow below 50, blue below 75, emerald otherwise |
| Dashboard.ProgressColorMonotone | components/dashboard/dashboard.tsx:124-129 | More progress never gives an earlier colour |
| Dashboard.CountsFit | components/dashboard/dashboard.tsx:207-221 | The completed and in-progress figures together never exceed the number of papers |
| Dashboard.NewPaperCountedNowhere | components/dashboard/dashboard.tsx:207-221 | A new paper is red and counted neither as completed nor as in progress |
| Dashboard.DashboardPage.Load | components/dashboard/dashboard.tsx:49-90 | No user: redirect to /login. A saved list is used as it is. Nothing saved: the two samples are set and stored. Loading then ends |
| Dashboard.DashboardPage.CreatePaper | components/dashboard/dashboard.tsx:92-109 | Prepends exactly one new paper, stores the whole list (which reads back as the list in memory) and closes the dialog |
| Dashboard.DashboardPage.SubmitCreateForm | components/dashboard/create-paper-modal.tsx:26-30 | The submitted form becomes the new front paper and the form is empty again |
| Dashboard.DashboardPage.CloseCreateModal | components/dashboard/dashboard.tsx:405 | The form is reset and the dialog hidden; the papers are untouched |
| OutlinePanel.Toggle | components/editor/outline-panel.tsx:110-118 | Toggling flips the id's membership and leaves every other id as it was |
| OutlinePanel.ToggleTwice | components/editor/outline-panel.tsx:110-118 | Toggling the same id twice restores the set |
| OutlinePanel.TogglesCommute | components/editor/outline-panel.tsx:110-118 | Toggles of two ids commute |
| OutlinePanel.ChildlessSectionWords | components/editor/outline-panel.tsx:148 | A section without children contributes only its own word count |
| OutlinePanel.TotalWordsAppend | components/editor/outline-panel.tsx:214-217 | The total of two outlines put together is the sum of their totals |
| OutlinePanel.TotalWordsIgnoresGrandchildren | components/editor/outline-panel.tsx:214-217 | Removing all grandchildren leaves the total unchanged: only top-level sections and their direct children count |
| OutlinePanel.CompletedSections | components/editor/outline-panel.tsx:219-220 | The completed count never exceeds the number of top-level sections |
| OutlinePanel.DefaultOutlineTotals | components/editor/outline-panel.tsx:30-104 | The default outline has 1850 words and 0 of its 8 sections complete |
| OutlinePanel.Panel.constructor | components/editor/outline-panel.tsx:107-108 | The expanded set starts as exactly {"introduction"} |
| OutlinePanel.Panel.ToggleExpanded | components/editor/outline-panel.tsx:110-118 | The new expanded set is the toggled copy of the old one; the outline is untouched |
| PaperEditor.FindPaper | components/editor/paper-editor.tsx:77 | The first stored paper with the id, or nothing exactly when no paper has it |
| PaperEditor.CreatedPaperIsFound | components/editor/paper-editor.tsx:77 | A paper just created on the dashboard is the one the editor opens for its id |
| PaperEditor.ReferencesKey | components/editor/paper-editor.tsx:93 | The references key is "paper_", the id and "_section_references" |
| PaperEditor.ReferencesKeyInjective | components/editor/paper-editor.tsx:93 | Different papers keep their references under different keys |
| PaperEditor.ReferencesKeyIsOwn | components/editor/paper-editor.tsx:93 | A references key never collides with the paper-list, user or theme keys |
| PaperEditor.AppendReference | components/editor/paper-editor.tsx:94-96 | The new text is the old text (missing reads as ""), then "\n\n" only when the old text is not all whitespace, then the entry |
| PaperEditor.AccumulatedIsJoin | components/editor/paper-editor.tsx:94-96 | Appending non-blank entries one by one to an empty section gives them joined by blank lines |
| PaperEditor.PaperEditorPage.Load | components/editor/paper-editor.tsx:68-85 | No user: redirect to /login. The first stored paper with the id is shown; with no saved list or no such paper the page redirects to /dashboard and the paper stays unset |
| PaperEditor.PaperEditorPage.AddReferenceEntry | components/editor/paper-editor.tsx:89-99 | A missing entry or paper id changes nothing; otherwise the entry is appended under the paper's references key and the write tab is shown |
| PaperEditor.PaperEditorPage.RequestInsertCitation | components/editor/paper-editor.tsx:105-114 | A missing citation is ignored; otherwise the write tab is shown and the citation handed on |
| PaperEditor.PaperEditorPage.HandleAiResult | components/editor/paper-editor.tsx:119-120 | The task's result replaces any earlier one; every other task keeps its result |
| PaperEditor.PaperEditorPage.HandleAiAction | components/editor/paper-editor.tsx:122-127 | Sets the loading flag and the current task and nothing else |
| PaperEditor.PaperEditorPage.SetTitle | components/editor/paper-editor.tsx:292 | Replaces only the title of the page's paper; storage is untouched |
| PaperEditor.PaperEditorPage.SetTopic | components/editor/paper-editor.tsx:303 | Replaces only the topic of the page's paper; storage is untouched |
| PaperEditor.PaperEditorPage.SetDueDate | components/editor/paper-editor.tsx:315 | Replaces only the due date of the page's paper; storage is untouched |
| FeedbackModal.NoticeOrButton | components/editor/ai-feedback-modal.tsx:92-102 | While idle, exactly one of the limit notice and the generate button shows, and the notice shows iff the limit is reached |
| FeedbackModal.AfterGenerate | components/editor/ai-feedback-modal.tsx:31-39 | A generation adds one below the limit and nothing at it, so the count never passes the maximum |
| FeedbackModal.AfterClicksSaturates | components/editor/ai-feedback-modal.tsx:31-39 | After n clicks the count is the start plus n, capped at 10 |
| FeedbackModal.AtMostSevenReviews | components/editor/ai-feedback-modal.tsx:28-38 | From 3 the count stays within 10, so at most 7 reviews succeed, and 7 clicks reach the limit |
| FeedbackModal.FeedbackDialog.BeginGeneration | components/editor/ai-feedback-modal.tsx:32-34 | At the limit nothing changes; otherwise generating starts |
| FeedbackModal.FeedbackDialog.FinishGeneration | components/editor/ai-feedback-modal.tsx:37-38 | Generating stops and the count goes up by exactly one, staying within the maximum |
| AiRoute.ActionSetsDisjoint | app/api/ai/route.ts:12-13 | No action is in both the Claude set and the OpenAI set |
| AiRoute.Route | app/api/ai/route.ts:12-36 | Claude is called iff the action is in the Claude set and its key is set; OpenAI iff the action is in the OpenAI set and its key is set |
| AiRoute.UnknownActionNotRouted | app/api/ai/route.ts:12-56 | An action in neither set is never sent to a provider, whatever keys are set |
| AiRoute.ClaudeActionWithoutKey | app/api/ai/route.ts:17-36 | A Claude action without the Anthropic key never falls through to OpenAI |
| AiRoute.TextOr | app/api/ai/route.ts:33-50 | The reply's text when it is non-empty, else the fallback; never empty |
| AiRoute.Handle | app/api/ai/route.ts:4-64 | Success is `{result: output}` with a non-empty output: the provider text or its fallback, or the no-key warning. Any throw gives 500 "Failed to get AI response". No other status occurs |
| Session.DecodeEncodeUser | app/providers.tsx:53-78 | A stored user reads back as the same user |
| Session.LoginUser | app/providers.tsx:70-75 | The login user has id "1", is free, and is named after the email's part before its first '@' |
| Session.LoginNameWithoutAt | app/providers.tsx:73 | An email without '@' names the user in full |
| Session.SignupUser | app/providers.tsx:86-91 | The signup user keeps the given name as it is, with id "1" and free |
| Session.LoginIsSignupWithLocalPart | app/providers.tsx:66-96 | Login is signup with the email's local part as the name |
| Session.ThemeName | app/providers.tsx:107-113 | The stored theme word is "dark" iff the theme is dark |
| Session.AppSession.Init | app/providers.tsx:49-64 | A non-empty saved user is restored; the theme turns dark iff "dark" is stored; loading ends |
| Session.AppSession.Login | app/providers.tsx:66-80 | The password is ignored; the user is set and stored, reads back as itself, and login returns true |
| Session.AppSession.Signup | app/providers.tsx:82-96 | Like login, with the given name; returns true |
| Session.AppSession.Logout | app/providers.tsx:98-101 | No user, and the stored user is removed |
| Session.AppSession.ToggleTheme | app/providers.tsx:103-114 | The theme flips and the stored word is "dark" iff the new theme is dark |
| Session.LoginThenReload | app/providers.tsx:49-114 | After login and a theme toggle, a new session's init restores the same user and theme |

## Left out

- I/O and the browser are not modelled as effects: `fetch`, `router.push`, `toast`,
  `navigator.clipboard`, window custom events, `console`, and the DOM class list of
  the dark theme. What they return (a provider reply, a resolver response) is an
  input. A redirect is a recorded `redirect` field.
- Time is not modelled. `Date.now()` ids and `new Date().toISOString()` timestamps
  are parameters, and the `setTimeout` delays are left out. The two timestamps of a
  new paper come from two separate clock reads, so they are two parameters.
- Asynchrony is not modelled: each handler runs to completion. The feedback dialog's
  awaited delay is split into `BeginGeneration` and `FinishGeneration`.
- JSON values with the wrong shape are not modelled. `JSON.parse` of well-formed
  text with the wrong shape (say, an array whose items lack fields) would be stored
  as it is by the code. The model treats it like text that does not parse: the
  load effect stops.
- Json.Parse: accepts only what `JSON.stringify` writes for these records. That is
  compact text of objects, arrays, strings and integers. Whitespace, `true`,
  `false`, `null` and fractions are not parsed.
- Text.Lower: lower-cases ASCII letters only. Unicode case mapping is not modelled.
- DoiResolver.CharCodeSum: sums Unicode code points. JavaScript's `charCodeAt` sums
  UTF-16 code units, which differ for characters outside the Basic Multilingual Plane.
- A DOI that is not a string, such as a number in the request body, is not modelled.
- The editor's paper has an untyped `content` field. It is not modelled, and the
  editor uses the dashboard's paper record.
- `PrefillDraft` handles unknown type names differently from the code. A resolver
  type outside the six source types is read as a journal. All three resolver
  records are journals.
- Citations.ApaYearFollowsAuthor: needs an author that starts with a non-blank,
  because the APA journal string is trimmed as a whole.
- Citations.ApaJournalEndsWithDoi: needs a DOI that ends with a non-blank, for the
  same reason.
- Citations.StylesDiffer: needs an author that starts with a non-blank, because it
  relies on Citations.ApaYearFollowsAuthor.
- FeedbackModal.FeedbackDialog.BeginGeneration: assumes the dialog is idle. The
  generate button that calls it is only rendered then.
- The seed sources' citation keys are kept as the literal values in the code.
  "smith2023impact" is not the key the derivation rule gives ("smith2023the").
- content-editor.tsx is not part of this model: it edits the page through
  `document.execCommand`.
- ai-panel.tsx, landing-page.tsx, layout.tsx and the login and signup pages are
  not modelled. They are rendering only.
- signup-form.tsx is not modelled: its one terms-accepted guard is around
  navigation.
- The PDF and DOCX export routes are not modelled: they return constant responses
  after a delay.
- Locale date formatting and the floating-point progress-bar percentages are not
  modelled.
