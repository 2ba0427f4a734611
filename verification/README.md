# AI freelance studio: document generation, document search and client stats

This project is a Dafny model of the three pieces of logic in the freelance
studio's pages that go beyond presentation:

- **The AI assistant page** (`src/pages/AIAssistant.tsx`). `handleGenerate`
  does three things:
  - it refuses blank project details;
  - it binds the client name and project details into one fixed template per
    document type (proposal, email, estimate);
  - it "types" the bound text into the page one character at a time, then
    clears the generating flag.

  The model also covers the Generate button's enabled condition and the
  "Use Example" action with its per-type example prompts.
- **The documents page** (`src/pages/Documents.tsx`). The document list is
  narrowed by a case-insensitive search on title or client and by a type filter
  ("all" or one type). The page shows "No documents found" when the result is
  empty.
- **The clients page** (`src/pages/Clients.tsx`). The client list is narrowed
  by a case-insensitive search on name, email or company. The stats row shows
  the total clients, the active clients and the documents summed over all
  clients.

React state is treated as a plain immutable record. A click on Generate is a
pure function from the state to the sequence of states the handler sets, so
the typing loop becomes a trace whose properties can be stated directly.

Modules:

| file | module | contents |
|---|---|---|
| `text.dfy` | `Text` | `trim` with the exact ECMAScript whitespace set, ASCII `toLowerCase`, `includes` |
| `sequences.dfy` | `Sequences` | `Array.prototype.filter` on sequences, order-preserving subsequences |
| `kinds.dfy` | `Kinds` | the three document types |
| `options.dfy` | `Options` | an option type |
| `assistant.dfy` | `Assistant` | templates, binding, the typing trace, the page state and its handlers |
| `documents.dfy` | `Documents` | the document search and type filter |
| `clients.dfy` | `Clients` | the client search and the stats row |

## Model

| member | source | states |
|---|---|---|
| `Text.TrimStart` | src/pages/AIAssistant.tsx:45 | drops a prefix made only of trim-able characters; what is left does not start with one |
| `Text.TrimEnd` | src/pages/AIAssistant.tsx:45 | drops a suffix made only of trim-able characters; what is left does not end with one |
| `Text.Trim` | src/pages/AIAssistant.tsx:45 | `s.trim()` is a contiguous piece of `s`; every character before and after it is trim-able, and neither of its ends is |
| `Text.StripsBoth` | src/pages/AIAssistant.tsx:45 | stripping trim-able characters from the front and then from the back leaves a piece of the input with only trim-able characters around it |
| `Text.TrimEmptyIffAllSpace` | src/pages/AIAssistant.tsx:45 | the trimmed string is empty exactly when every character of `s` is trim-able |
| `Text.IsBlank` | src/pages/AIAssistant.tsx:242 | `!s.trim()` holds exactly when every character of `s` is a character `trim` removes |
| `Text.ToLower` | src/pages/Clients.tsx:68-70 | `toLowerCase` keeps the length, turns each upper-case ASCII letter into its lower-case partner, keeps every other character, and leaves no upper-case ASCII letter |
| `Text.ToLowerIdempotent` | src/pages/Documents.tsx:91-92 | lowercasing twice is lowercasing once |
| `Text.Includes` | src/pages/Documents.tsx:91-92 | `hay.includes(needle)` holds exactly when `needle` occurs at some position of `hay` |
| `Text.IncludesSpliced` | src/pages/AIAssistant.tsx:58 | a string spliced between two others is included in the result |
| `Sequences.Filter` | src/pages/Documents.tsx:89-95 | `filter` keeps an order-preserving subsequence; an element is in the result exactly when it is in the input and passes; each passing element keeps its multiplicity |
| `Sequences.FilterKeepsAll` | src/pages/Clients.tsx:66-71 | when every element passes, `filter` returns its input unchanged |
| `Sequences.FilterEmptyIff` | src/pages/Documents.tsx:223 | the filtered list is empty exactly when no element passes |
| `Sequences.FilterCompose` | src/pages/Documents.tsx:93-94 | filtering twice equals filtering once by the conjunction of the two tests |
| `Sequences.FilterKeepsAllIff` | src/pages/Clients.tsx:129 | the filtered list has the input's length exactly when every element passes |
| `Sequences.FilterDropsOne` | src/pages/Clients.tsx:129 | when some element fails the test, the filtered list is strictly shorter than the input |
| `Sequences.FilterSameTest` | src/pages/Documents.tsx:91-92 | two tests that agree on every element filter alike |
| `Assistant.Bind` | src/pages/AIAssistant.tsx:51-121 | a template literal's result: it starts with the heading line and a blank line, holds the project details verbatim right after the opening text, and ends with the closing text |
| `Assistant.Response` | src/pages/AIAssistant.tsx:51-123 | `mockResponses[selectedType]` starts with the selected type's heading and a blank line, and for every type contains the project details verbatim (lines 58, 87, 99) |
| `Assistant.BindContainsDetails` | src/pages/AIAssistant.tsx:51-121 | every bound template contains the project details verbatim |
| `Assistant.BindInjective` | src/pages/AIAssistant.tsx:51-121 | the details are spliced without alteration: equal bound texts come from equal details |
| `Assistant.BindNamesClient` | src/pages/AIAssistant.tsx:52 | a non-empty client name appears verbatim in every bound text |
| `Assistant.ResponseNamesClient` | src/pages/AIAssistant.tsx:83 | a non-empty client name appears verbatim in the response of every type |
| `Assistant.HeadingNamesClient` | src/pages/AIAssistant.tsx:52-96 | with an empty client name the proposal and estimate titles stand alone; otherwise they get " for " or " - " and the name (lines 52, 96); the email greets the name, or "Client" when the name is empty (line 83) |
| `Assistant.TypeOfHeading` | src/pages/AIAssistant.tsx:52 | the document type can be read off the first line of any text that starts with that type's heading |
| `Assistant.TypeReadBack` | src/pages/AIAssistant.tsx:123 | the response is chosen by the selected type alone: the type can be read back off every response, so different types never give the same text |
| `Assistant.TypingFrom` | src/pages/AIAssistant.tsx:126-128 | from iteration `i` on, the loop publishes `response.slice(0, i + k)` at step `k`, ending with the whole response |
| `Assistant.TypingTrace` | src/pages/AIAssistant.tsx:126-129 | the loop publishes `response.length + 1` values; the first is empty and the last is the whole response; the `i`-th is a prefix of length `i`; each value adds exactly the next character |
| `Assistant.InitiallyDisabled` | src/pages/AIAssistant.tsx:37-42 | the page mounts with the Generate button disabled |
| `Assistant.GenerateEnabled` | src/pages/AIAssistant.tsx:242 | the button is enabled exactly when nothing is being generated and the details contain a character that is not trim-able |
| `Assistant.EnabledClickRuns` | src/pages/AIAssistant.tsx:44-131 | a click on an enabled button starts a whole run of `response.length + 3` states |
| `Assistant.Run` | src/pages/AIAssistant.tsx:47-131 | the states a run sets: after the set-up (generating, content cleared), after each loop iteration (the next prefix, one character longer), and after the loop (the whole response, flag cleared); the inputs never change and every content is a prefix of the response |
| `Assistant.Generate` | src/pages/AIAssistant.tsx:44-131 | blank details set no state; otherwise the states of a whole run, with the same guarantees as `Run` |
| `Assistant.HandleGenerate` | src/pages/AIAssistant.tsx:44-131 | a click sets no state exactly when the details are blank; otherwise every state keeps the inputs and holds a prefix of the response for them, and the last holds the whole response and is not generating |
| `Assistant.BlankIsNoOp` | src/pages/AIAssistant.tsx:45 | with blank details a click sets no state and leaves the content and the generating flag as they were |
| `Assistant.RegenerateIsIdempotent` | src/pages/AIAssistant.tsx:123-131 | after a run the page shows the whole response, is not generating, keeps its inputs and is enabled; generating again settles in the same state |
| `Assistant.DisabledWhileGenerating` | src/pages/AIAssistant.tsx:242 | in every state a run sets before its last one, the button is disabled |
| `Assistant.UseExample` | src/pages/AIAssistant.tsx:140-142 | "Use Example" sets the details to the selected type's prompt and nothing else, so the button becomes enabled exactly when nothing is being generated |
| `Assistant.ExamplePrompt` | src/pages/AIAssistant.tsx:30-34 | every example prompt starts with an upper-case letter, so none is blank |
| `Documents.FilterDocuments` | src/pages/Documents.tsx:89-95 | the shown documents are an order-preserving subsequence of the list. A document is shown exactly when its lowercased title or client includes the lowercased query and the filter is "all" or its type. A type filter shows only that type |
| `Documents.NoDocumentsFound` | src/pages/Documents.tsx:223 | "No documents found" shows exactly when no document passes both the search and the type filter |
| `Documents.EmptySearchKeepsAll` | src/pages/Documents.tsx:90-93 | an empty query with the "all" filter lists every document |
| `Documents.OnlyRefinesAll` | src/pages/Documents.tsx:93-94 | a type filter lists exactly the documents of that type among those "all" lists for the same query, so its results are a subsequence of them |
| `Documents.SearchIgnoresQueryCase` | src/pages/Documents.tsx:91-92 | a query and its lowercase form list the same documents |
| `Documents.EmptySearchByType` | src/pages/Documents.tsx:93 | with an empty query, a type filter lists exactly the documents of that type |
| `Documents.MockDocumentsShown` | src/pages/Documents.tsx:28-95 | with the empty query and the "all" filter the page opens with, all five of its own documents are listed |
| `Clients.FilterClients` | src/pages/Clients.tsx:66-71 | the shown clients are an order-preserving subsequence of the list; a client is shown exactly when its lowercased name, email or company includes the lowercased query |
| `Clients.EmptySearchKeepsAll` | src/pages/Clients.tsx:66-70 | an empty query lists every client |
| `Clients.SearchIgnoresQueryCase` | src/pages/Clients.tsx:67-70 | a query and its lowercase form list the same clients |
| `Clients.FilterActiveIsCount` | src/pages/Clients.tsx:129 | filtering for active clients keeps exactly as many clients as are active, counted one client at a time |
| `Clients.ActiveCount` | src/pages/Clients.tsx:129 | the "Active" figure is the number of active clients; so it is at most the total, equals the total exactly when every client is active, and is zero exactly when none is |
| `Clients.ReduceDocuments` | src/pages/Clients.tsx:135 | the `reduce` from `acc` equals `acc` plus the sum of the document counts, where the sum is computed separately by splitting off the last client |
| `Clients.SumOfFirstAndRest` | src/pages/Clients.tsx:135 | the document sum splits off the first client |
| `Clients.SumNonNegative` | src/pages/Clients.tsx:135 | with no negative count the sum is non-negative and at least each client's count |
| `Clients.StatsOf` | src/pages/Clients.tsx:124-135 | the stats row holds the list's length, the number of active clients (no larger than the length), and the sum of the document counts |
| `Clients.DocumentStatNonNegative` | src/pages/Clients.tsx:135 | with no negative document count the documents stat is non-negative |
| `Clients.StatsIgnoreSearch` | src/pages/Clients.tsx:124-135 | the stats row is the same for every query and is computed over the whole list; the empty query shows the whole list; the shown list is never longer than the total |
| `Clients.StatsOfFour` | src/pages/Clients.tsx:24-61 | four clients with the page's statuses and document counts give the stats row (4, 3, 18) |
| `Clients.MockClientStats` | src/pages/Clients.tsx:124-135 | the page's own client list shows 4 clients, 3 active and 18 documents |

## Left out

- React rendering, JSX and the framer-motion animations are presentation only. The other pages (landing, dashboard, pricing, settings), the sidebar, the routing and the layout are also left out: they have no logic to state.
- The 5 ms `setTimeout` between typing steps and the wall-clock timing of the loop are not modelled. A run is the discrete sequence of states it sets: one after the set-up (lines 47-48), one after each loop iteration, and one after the loop (line 131).
- Which of these states React shows as separate renders is not modelled. Batching can merge some of them: the first iteration sets the empty content again, and the last iteration and line 131 run in the same continuation.
- Edits the user makes while a run is in progress are not modelled. The handler captured its inputs at the click, and the disabled button keeps a second run from starting.
- The clipboard write, the "copied" flag and its 2-second reset (`handleCopy`) are host I/O and are not modelled.
- The Download buttons have no handler, so there is nothing to model.
- Selecting a type and typing into the inputs are plain setters. They appear only as the fields of `AssistantState`.
- `Text.ToLower`: lowercases ASCII letters only. JavaScript's `toLowerCase` applies the full Unicode case mapping, so queries and fields outside ASCII may compare differently.
- Strings are sequences of code points. JavaScript indexes UTF-16 code units, so `response.slice(0, i)` can differ from `TypingTrace` when the client name or details contain characters outside the Basic Multilingual Plane. All of the templates' own text is inside it.
- `Clients.StatsOf`: document counts are unbounded integers. JavaScript adds doubles, which are exact only below 2^53.
- The type of a document in the documents page is a free string in the source. It is modelled as the three document types, which are the only values the page's data and filter buttons use.
- The date formatting with `toLocaleDateString` (src/pages/Documents.tsx:180) depends on the locale and is not modelled.
