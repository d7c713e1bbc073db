# Dorama catalogue with a paid plan — a Dafny model of its core

The application is a Portuguese-language catalogue of doramas (TV series)
behind a pay-by-Pix premium plan. A viewer signs in; the signing-in step
registers unknown credentials on the fly. The viewer can then browse the
active catalogue rows, optionally filtered by genre and newest first. They can
play a row when, at the time their plan was last fetched, their most recent
plan record was active and unexpired. That verdict is cached until the next
fetch.
To get a plan, the viewer submits a payment-proof URL, which creates a
pending plan record. An administrator adds, edits and soft-deletes rows from
a console.

This project models that logic in Dafny and proves properties about it. One
module stands for each core source file:

| module | file | form |
|---|---|---|
| `Types` | `types.dfy` | the row shapes, the closed category set, the category label table and its lookups |
| `UserPlans` | `user_plans.dfy` | the `user_plans` table (class `PlanStore`), latest-record selection, the active-plan predicate, the plan hook's state (class `UserPlanHook`) |
| `Movies` | `movies.dfy` | the `movies` table (class `MovieStore`), the catalogue query, the catalogue hook's state and list operations (class `MoviesHook`) |
| `Auth` | `auth.dfy` | sign-in with the register-and-retry fallback, sign-out, the session-to-user mapping, the provider state (class `AuthState`), the context guard |
| `DoramaPage` | `dorama_page.dfy` | the watch gate, player-or-locked choice, locked message and button, details column |
| `DoramaCard` | `dorama_card.dfy` | the values a catalogue card derives from a row |
| `AdminPanel` | `admin_panel.dfy` | the console's form cycle, save, confirmed delete and sign-out (class `Panel`) |
| `PlanModal` | `plan_modal.dfy` | the proof form's submit guard, submit and close (class `Modal`), the status label |
| `Text` | `text.dfy` | the ASCII string operations the code relies on: capitalisation, `trim`, `includes` |
| `Wrappers` | `wrappers.dfy` | `Option`, `Result`, `Outcome` |

The hosted backend is not modelled as code. Each remote table is an
in-memory class holding a `rows` sequence. Every operation that can fail
remotely takes a `fault: Option<StoreError>` argument: `None` means the
backend answered normally, and `Some(e)` is the error it returned. The
backend produces two errors itself:

- a `.single()` that finds no row reports code `PGRST116`;
- an insert that clashes on the primary key reports code `23505`.

A `StoreError` records whether the thrown value is a JavaScript `Error`
instance, because the hooks rethrow such values unchanged and wrap any other
value in an `Error` with a fixed message. The identity provider is a script
of answers (`Auth.ProviderAnswers`).

Some inputs come from outside the program and are passed in as parameters:

- the clock, as an integer timestamp `now`;
- the identifier the database assigns to a new row;
- the user's answer to the browser's confirmation dialog.

Outputs the program sends outside are returned instead:

- the text of an `alert` is the method's `Option<string>` result;
- a `console.error` is a `logged` flag;
- each call of a parent callback (`onClose`) adds one to a counter.

Some behaviour of the code is worth stating plainly, because a reader might
expect otherwise:

- The watch gate is computed once per plan fetch, not on every render. `hasActivePlan` is set when the plan is fetched: when the hook mounts and whenever the signed-in user changes (`src/hooks/useUserPlan.ts:12-20,42-48`). The page reads that stored flag (`src/components/DoramaPage.tsx:16,26`). Each opening of the page mounts its own hook instance, so it fetches afresh and stays locked while loading. A plan that expires after that fetch keeps the player open until the next one. `DoramaPage.GateIsReadAtFetchTime` states this.
- The gate is a bare boolean, `user && hasActivePlan`, with no reason attached. `DoramaPage.AccessDecision` is a reason-carrying definition written case by case: no session, no subscription, expired, allowed. `DoramaPage.CanWatchIsAccessDecision` proves the code's gate allows exactly when that definition says `Allowed`.
- `updateMovie` writes only the fields it is given. Nothing in the code refreshes `updated_at`, so `Movies.ApplyFields` keeps it.
- Deletion is soft: it sets `is_active = false` and keeps the row.
- Sign-in registers a new account only when the first sign-in's error message contains "Invalid login credentials". That includes a wrong password for an existing account.

## Model

| member | source | states |
|---|---|---|
| Text.ToUpperAscii | src/components/DoramaCard.tsx:42 | the result is never a lower-case ASCII letter; a lower-case letter maps to its upper-case partner; any other character is kept |
| Text.Capitalize | src/components/DoramaCard.tsx:42 | same length as the input; first character upper-cased, the rest (`slice(1)`) unchanged |
| Text.TrimStart | src/components/PlanModal.tsx:182 | the result is a suffix of the input; every dropped character is whitespace; the result does not start with whitespace |
| Text.TrimEnd | src/components/PlanModal.tsx:182 | the result is a prefix of the input; every dropped character is whitespace; the result does not end with whitespace |
| Text.Trim | src/components/PlanModal.tsx:182 | `trim` is the input with a run of leading and a run of trailing whitespace cut off, and neither starts nor ends with whitespace |
| Text.TrimEmptyIffAllSpace | src/components/PlanModal.tsx:182 | `trim()` gives the empty string exactly when every character is whitespace |
| Text.Includes | src/contexts/AuthContext.tsx:42 | definition of `includes` by scanning start positions; its meaning is stated by `Text.IncludesIff` |
| Text.IncludesIff | src/contexts/AuthContext.tsx:42 | the recursive `includes` holds exactly when the needle occurs at some index of the haystack |
| Types.ThrownMessage | src/hooks/useMovies.ts:72 | an `Error` is rethrown with its own message; any other thrown value becomes an `Error` with the operation's fixed message |
| Types.ParseCategory | src/types/index.ts:22 | a parsed string is the value of the category it yields; a string no category has yields nothing |
| Types.CategoryIsClosed | src/types/index.ts:22 | exactly eight categories, all listed, with pairwise distinct strings, and parsing a category's string gives back that category |
| Types.CategoryTableShape | src/types/index.ts:24-31 | the label table has six entries with distinct values, and none for `sci-fi` or `documentary` |
| Types.FindCategory | src/components/MoviePlayer.tsx:12 | `find`: nothing exactly when no entry has the value; otherwise an entry with the value with no earlier entry having it |
| Types.FindCategoryUnique | src/types/index.ts:24-31 | in a table with distinct values, looking up an entry's value finds that entry |
| Types.LabelLookupIsTable | src/components/MoviePlayer.tsx:12 | in the category table, the lookup of a value finds the entry holding it |
| Types.PlayerCategoryLabel | src/components/MoviePlayer.tsx:12 | a category with a table entry shows that entry's label; any other string is shown as it is |
| Types.AdminCategoryLabel | src/components/AdminPanel.tsx:274 | the entry's label when the category has one, and nothing exactly when it has none |
| Types.UnlabelledCategoriesFallBack | src/types/index.ts:22-31 | `sci-fi` and `documentary` show their raw string in the player and nothing in the console |
| UserPlans.HasActivePlan | src/hooks/useUserPlan.ts:42-48 | definition: a record is present, its status is active, it has an expiry and the expiry is strictly after now; its edge cases are stated by `UserPlans.ActivePlanBoundaries` |
| UserPlans.ActivePlanBoundaries | src/hooks/useUserPlan.ts:42-48 | no plan, a non-active status, a missing expiry or an expiry equal to now all give no active plan; an active plan expiring one tick later is active |
| UserPlans.ExpiryIsPermanent | src/hooks/useUserPlan.ts:42-45 | a plan that is not active at some time is not active at any later time |
| UserPlans.LatestPlan | src/hooks/useUserPlan.ts:27-33 | nothing exactly when the user has no record; otherwise one of the user's records whose `created_at` is at least that of every other record of theirs |
| UserPlans.LatestAfterAppend | src/hooks/useUserPlan.ts:27-33 | a record newer than all of its user's records becomes that user's latest |
| UserPlans.OtherUsersUnaffected | src/hooks/useUserPlan.ts:30 | adding one user's record leaves every other user's latest record unchanged |
| UserPlans.PlanRequest | src/hooks/useUserPlan.ts:64-70 | the requested record: the user's id, status pending, the proof URL verbatim, method "pix", amount 2000, no expiry |
| UserPlans.RequestSupersedesActivePlan | src/hooks/useUserPlan.ts:62-72 | once a new request is stored, it is the user's latest record and the gate is closed, even if the previous plan was active |
| UserPlans.PlanStore.SelectLatest | src/hooks/useUserPlan.ts:27-33 | the injected failure, else the user's latest record, else the `PGRST116` "no rows" error exactly when the user has no record |
| UserPlans.PlanStore.Insert | src/hooks/useUserPlan.ts:62-72 | appends the record and returns it, or fails and leaves the table unchanged |
| UserPlans.UserPlanHook.constructor | src/hooks/useUserPlan.ts:8-10 | starts with no plan, no active plan, loading |
| UserPlans.UserPlanHook.OnUserChange | src/hooks/useUserPlan.ts:12-20 | no user: plan null, no active plan, not loading, nothing logged; a user: the fetch's plan, with an error logged exactly when the failure is not "no rows"; in both cases `hasActivePlan` is the predicate on the new plan at this time and `loading` is false |
| UserPlans.UserPlanHook.AfterFetch | src/hooks/useUserPlan.ts:39 | the fetched record when there is one, null on any error |
| UserPlans.UserPlanHook.FetchUserPlan | src/hooks/useUserPlan.ts:22-56 | no user: nothing changes; otherwise the plan is the latest record or null, `hasActivePlan` is the predicate on it, `loading` ends false, and an error is logged exactly when the failure is not "no rows" |
| UserPlans.UserPlanHook.CreatePlanRequest | src/hooks/useUserPlan.ts:58-80 | no user: fails with "Usuário não logado" and inserts nothing; a store failure is rethrown and inserts nothing; otherwise exactly one pending request is appended and becomes `userPlan`; `hasActivePlan` is never changed |
| UserPlans.FetchSelectsLatest | src/hooks/useUserPlan.ts:27-39 | a fetch without failure yields the user's latest record |
| Movies.ActiveInGenre | src/hooks/useMovies.ts:17-25 | keeps exactly the active rows in the genre, each as often as it occurs in the table |
| Movies.InsertByDate | src/hooks/useMovies.ts:21 | the insertion step of the newest-first sort adds exactly one row to the length |
| Movies.InsertByDateAdds | src/hooks/useMovies.ts:21 | the insertion step adds exactly the inserted row to the multiset of rows |
| Movies.InsertByDateBound | src/hooks/useMovies.ts:21 | inserting a row no newer than a bound into rows no newer than it keeps every row within the bound |
| Movies.ConsNewestFirst | src/hooks/useMovies.ts:21 | a row at least as new as every row of a newest-first list can head it |
| Movies.InsertByDateSorted | src/hooks/useMovies.ts:21 | the insertion step keeps a newest-first list newest-first |
| Movies.InsertByDateCorrect | src/hooks/useMovies.ts:21 | inserting into a newest-first list keeps it newest-first and adds exactly that row |
| Movies.SortNewestFirst | src/hooks/useMovies.ts:21 | `.order('created_at', { ascending: false })` keeps the number of rows; its ordering and permutation are stated by `Movies.SortNewestFirstCorrect` |
| Movies.SortNewestFirstCorrect | src/hooks/useMovies.ts:21 | the sort is newest-first and a permutation of its input |
| Movies.FetchQuery | src/hooks/useMovies.ts:17-27 | the query returns no more rows than the table has; its full meaning is stated by `Movies.FetchQueryCorrect` |
| Movies.FetchQueryCorrect | src/hooks/useMovies.ts:17-27 | the catalogue query is newest-first and holds exactly the active rows of the genre (if one is given), each with its multiplicity in the table |
| Movies.SameIdSameRow | src/types/index.ts:2 | in a table with unique ids, two rows with the same id are the same row |
| Movies.FindById | src/hooks/useMovies.ts:81-83 | a row of the table with the id, found exactly when one exists |
| Movies.ActiveWithId | src/hooks/useMovies.ts:40-45 | exactly the active rows with the id |
| Movies.ActiveWithIdAtMostOnce | src/hooks/useMovies.ts:45 | with unique ids, at most one active row matches an id, so `.single()` never sees several |
| Movies.GetById | src/hooks/useMovies.ts:38-52 | a result is an active row of the table with the id; null exactly when the read failed or the number of active rows with the id is not one |
| Movies.GetByIdFinds | src/hooks/useMovies.ts:40-48 | without failure, every active row is found by its id |
| Movies.ApplyFields | src/hooks/useMovies.ts:78-81 | the row takes the five form fields (the description as given) and keeps every other column, `updated_at` included |
| Movies.UpdateRows | src/hooks/useMovies.ts:78-81 | same length, ids and creation times in place; rows with another id unchanged; each row with the id becomes that row with the five form fields written and every other column kept |
| Movies.SoftDeleteRows | src/hooks/useMovies.ts:95-98 | same length; rows with another id unchanged; rows with the id become inactive and keep every other column |
| Movies.UpdateRowsFrame | src/hooks/useMovies.ts:78-81 | an update keeps ids unique, and rows with other ids are neither lost nor added |
| Movies.UpdateThenGet | src/hooks/useMovies.ts:76-86 | after updating an active row, reading it by id gives the row with the new fields and every other field as before |
| Movies.SoftDeleteHides | src/hooks/useMovies.ts:93-98 | soft delete keeps every row and its id in place, and afterwards neither the lookup by id nor the catalogue query returns the row |
| Movies.ReplaceById | src/hooks/useMovies.ts:86 | `map` keeps the length; the entries it changes are stated by `Movies.ReplaceByIdAt` |
| Movies.ReplaceByIdAt | src/hooks/useMovies.ts:86 | `map` keeps the length and order; exactly the entries with the id become the new row, all others stay |
| Movies.RemoveById | src/hooks/useMovies.ts:101 | keeps exactly the entries with another id, each as many times as in the list, and none with the id |
| Movies.RemoveByIdKeepsOrder | src/hooks/useMovies.ts:101 | `filter` distributes over concatenation, so the kept entries stay in their order |
| Movies.StoredRow | src/hooks/useMovies.ts:59-64 | every field of the draft (title, description, embed code, thumbnail, category, genre, tags, duration, embed URL), active, zero sales, price 2000, the given id, created and updated at the given time |
| Movies.MovieStore.Insert | src/hooks/useMovies.ts:57-66 | appends the row; fails with the `23505` duplicate-key error when the id is taken, or with the injected failure; a failure changes nothing; ids stay unique |
| Movies.MovieStore.Update | src/hooks/useMovies.ts:78-83 | writes the fields to the rows with the id; `.single()` fails with the "no rows" error exactly when none had it; the returned row is the old row with the new fields |
| Movies.MovieStore.SoftDelete | src/hooks/useMovies.ts:95-98 | sets `is_active = false` on the rows with the id, or fails and changes nothing |
| Movies.MoviesHook.constructor | src/hooks/useMovies.ts:6-8 | empty list, loading, no error |
| Movies.MoviesHook.FetchMovies | src/hooks/useMovies.ts:14-36 | success: the list becomes the catalogue query; failure: the list is kept and `error` is set; `loading` ends false |
| Movies.MoviesHook.GetMovieById | src/hooks/useMovies.ts:38-53 | returns the lookup's result, an active row with the id or null, never fails, and logs exactly when the read failed or did not find exactly one row |
| Movies.MoviesHook.AddMovie | src/hooks/useMovies.ts:55-74 | success (exactly when the read succeeds and the id is free): the stored row is appended to the table and prepended to the list, other entries in order; failure: table and list unchanged, and the failure or the duplicate-key error is rethrown |
| Movies.MoviesHook.UpdateMovie | src/hooks/useMovies.ts:76-91 | success (exactly when the write succeeds and the id exists): the table rows with the id take the fields and the list entries with the id become the returned row; failure: the list is unchanged and the failure or the "no rows" error is rethrown |
| Movies.MoviesHook.DeleteMovie | src/hooks/useMovies.ts:93-105 | success: soft delete in the table and every entry with the id dropped from the list; failure: both unchanged, error rethrown |
| Auth.SignIn | src/contexts/AuthContext.tsx:34-63 | first sign-in succeeds: success; any other error is rethrown; an "Invalid login credentials" error leads to a sign-up (its error rethrown) and then one retried sign-in (its error rethrown); the calls made are recorded |
| Auth.IsInvalidCredentials | src/contexts/AuthContext.tsx:42 | definition: the error message contains "Invalid login credentials" |
| Auth.SignInCallOrder | src/contexts/AuthContext.tsx:42-57 | sign-in comes first; sign-up at most once, second, and only after invalid credentials; a retry only after a successful sign-up |
| Auth.WrappedMessageTriggersSignUp | src/contexts/AuthContext.tsx:42 | any message containing "Invalid login credentials" triggers the fallback |
| Auth.SignOut | src/contexts/AuthContext.tsx:65-68 | the provider's error is propagated; otherwise success |
| Auth.SessionUser | src/contexts/AuthContext.tsx:21 | the session's user, or null exactly when there is no session |
| Auth.AuthState.constructor | src/contexts/AuthContext.tsx:15-16 | no user, loading |
| Auth.AuthState.OnSession | src/contexts/AuthContext.tsx:20-29 | after the initial load or an auth event, `user` is the session's user and `loading` is false |
| Auth.UseAuth | src/contexts/AuthContext.tsx:77-83 | outside a provider it throws the guard message; inside it returns the context |
| DoramaCard.GenreLabel | src/components/DoramaCard.tsx:39-45 | a badge exactly for a non-empty genre, the same length as the genre, first letter upper-cased and the rest unchanged |
| DoramaCard.TagPreview | src/components/DoramaCard.tsx:70-72 | shown exactly for present, non-empty tags; one or two tags, the first ones of the list in order |
| DoramaCard.Card | src/components/DoramaCard.tsx:39-92 | title, genre badge, duration badge exactly when a duration is present, the row's description exactly when it is non-empty, tag preview, and a view count exactly when `sales_count` is defined |
| DoramaPage.CanWatchVideo | src/components/DoramaPage.tsx:26 | definition: a user is signed in and `hasActivePlan` holds |
| DoramaPage.RenderVideoPlayer | src/components/DoramaPage.tsx:28-80 | the player, with the row's embed URL, exactly when a user has an active plan and the row has an embed URL; otherwise the locked screen over the thumbnail, with the login prompt and button exactly when no user is signed in, else the plan prompt and button |
| DoramaPage.AccessDecision | src/components/DoramaPage.tsx:26 | reference definition of the gate, case by case: no session, then no active status, then missing or past expiry, else allowed |
| DoramaPage.CanWatchIsAccessDecision | src/components/DoramaPage.tsx:26 | the page's gate allows exactly when the case-by-case decision (session, status, expiry) says allowed |
| DoramaPage.PlayerNeedsLatestActivePlan | src/components/DoramaPage.tsx:26-29 | with the hook's gate, the player shows exactly when a user is signed in, has a plan record, and their latest one is active, has an expiry and expires after now, and the row has an embed URL |
| DoramaPage.SubscriberWithoutEmbedIsAskedToSubscribe | src/components/DoramaPage.tsx:29-58 | a subscriber opening a row with no embed URL sees the locked screen with the plan prompt |
| DoramaPage.GateIsReadAtFetchTime | src/components/DoramaPage.tsx:16-29 | a plan active at fetch time keeps the player open after it expires, because the page reads the flag computed at the fetch; re-evaluating the flag at the later time would lock the row |
| DoramaPage.ViewCount | src/components/DoramaPage.tsx:187 | `sales_count` when set, otherwise 0 |
| DoramaPage.Details | src/components/DoramaPage.tsx:123-187 | premium badge exactly when the plan is active; capitalised genre badge; the row's own duration, synopsis and tags exactly when present and non-empty; the view count |
| AdminPanel.FormFromMovie | src/components/AdminPanel.tsx:51-57 | the form holds the row's fields; a missing description becomes "" |
| AdminPanel.EditRoundTrip | src/components/AdminPanel.tsx:50-60 | saving an unchanged edit form of a row with a description writes back the same row |
| AdminPanel.DraftFromForm | src/components/AdminPanel.tsx:42 | the new row carries all five form fields (title, description, embed code, thumbnail, category) and no genre, tags, duration or embed URL |
| AdminPanel.ConsoleRowsMissGenreFilter | src/components/AdminPanel.tsx:42 | a row added from the console is returned by the unfiltered catalogue query and by no genre-filtered one |
| AdminPanel.Panel.constructor | src/components/AdminPanel.tsx:14-22 | empty form with category "action", not editing, form closed |
| AdminPanel.Panel.ResetForm | src/components/AdminPanel.tsx:24-34 | the empty form with category "action", form closed, not editing |
| AdminPanel.Panel.OpenAddForm | src/components/AdminPanel.tsx:121 | opens the form and leaves its contents and the editing state |
| AdminPanel.Panel.HandleEdit | src/components/AdminPanel.tsx:50-60 | the form holds the row's fields, the row is being edited, the form is open |
| AdminPanel.Panel.HandleSubmit | src/components/AdminPanel.tsx:36-48 | editing: an update of the edited id only; otherwise an insert only; the form is reset exactly when the save succeeded, else kept with a "Erro ao salvar filme: " alert carrying the failure, the "no rows" error or the duplicate-key error; the catalogue hook's `loading` and `error` are unchanged |
| AdminPanel.Panel.HandleDelete | src/components/AdminPanel.tsx:62-70 | nothing happens unless confirmed; a confirmed delete soft-deletes and drops the row, or alerts "Erro ao deletar filme: " with the error and changes nothing; the catalogue hook's `loading` and `error` are unchanged |
| AdminPanel.Panel.HandleSignOut | src/components/AdminPanel.tsx:72-79 | `onClose` is called exactly when sign-out succeeded; otherwise the "Erro ao fazer logout" alert |
| AdminPanel.Panel.Render | src/components/AdminPanel.tsx:81-134 | nothing exactly when no user is signed in; the form heading exactly when the form is open, "Editar Filme" when editing; one category label per listed row |
| PlanModal.StatusLabel | src/components/PlanModal.tsx:217-221 | active, pending and expired map to "Plano ativo", "Aguardando aprovação" and "Plano expirado" |
| PlanModal.StatusLabelsDistinct | src/components/PlanModal.tsx:218-220 | different statuses have different labels |
| PlanModal.SubmitDisabled | src/components/PlanModal.tsx:182 | disabled exactly when loading or the proof URL is all whitespace |
| PlanModal.Render | src/components/PlanModal.tsx:20-224 | nothing exactly when closed; the confirmation exactly when open after a submit; otherwise the form, its submit guard, and the status line exactly when there is a plan |
| PlanModal.Modal.constructor | src/components/PlanModal.tsx:12-14 | empty URL, not loading, no confirmation |
| PlanModal.Modal.EditProofUrl | src/components/PlanModal.tsx:171 | the URL becomes the input; nothing else changes |
| PlanModal.Modal.HandleSubmit | src/components/PlanModal.tsx:31-44 | success: the request is stored and becomes the hook's plan, the confirmation shows and the URL is cleared; failure: an "Erro ao enviar comprovante: " alert with the error, nothing stored, the hook's plan, the confirmation and the URL kept; `loading` ends false; the hook's `loading` and `hasActivePlan` are unchanged |
| PlanModal.Modal.HandleClose | src/components/PlanModal.tsx:46-50 | confirmation and URL cleared, then `onClose` called once |

## Left out

- Markup, styling and icons of every component are not modelled. Also left out: the header, the grid and card list components, the login form, and the movie player apart from its category-label lookup. None of these holds a rule beyond rendering or calling back.
- Routing and page selection in `src/App.tsx` are not modelled; they only set and clear the selected page.
- The hosted backend client, its query builder and the network are not modelled. Tables and the identity provider are in-memory models whose failures are arguments.
- Asynchrony, effect timing, overlapping fetches and unmounting are not modelled. Each handler is one atomic step.
- Browser services are parameters or results. The confirmation dialog is a boolean argument, an alert is a returned string, and a console log is a flag. The clipboard, opening the WhatsApp link and embedding raw player markup are not modelled.
- Date parsing and `pt-BR` date formatting are not modelled. Timestamps are integers.
- Plan approval, rejection and the 30-day expiry window have no code in these files. A plan's `expires_at` is taken as given.
- Text.ToUpperAscii: upper-cases ASCII letters only, because Unicode case mapping is runtime behaviour.
- Text.TrimStart: treats the ASCII whitespace characters (space, tab to carriage return) as whitespace, not JavaScript's full Unicode set.
- Movies.MoviesHook.UpdateMovie: takes the five form fields the console sends rather than an arbitrary `Partial<Movie>`.
- Movies.ApplyFields: does not refresh `updated_at`, because the code never writes it. A database trigger, if there is one, is not part of this model.
- UserPlans.LatestPlan: among records with equal `created_at` it picks the one earliest in the table. The backend's order on ties is unspecified.
- Movies.SortNewestFirst: the sort is stable, so rows with equal `created_at` keep their table order. The backend's order on ties is unspecified.
- `null` and `undefined` are both `None`. One visible difference follows. A `sales_count` that the table returns as `NULL` passes the card's `!== undefined` test, so the source still renders the view-count span (with no number). The model renders no count for it. A present `sales_count` of 0 is shown on the card and as the default 0 on the page.
- The `Movie` interface in `src/types/index.ts` lacks `genre`, `tags`, `duration`, `sales_count`, `embed_url`, `is_active` and `price`, which the components and hooks read. The model's `Movie` has all of them, with the extra ones optional. `UserPlan`'s declaration is not part of this model; its shape follows the fields the code uses.
