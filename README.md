# Homeowner/builder project manager: verified model of its logic

This project is a Dafny model of the small amount of real logic in a
homeowner/builder project-management web application, along with proofs about
that model. The backend and the UI are not part of it.

- **Profile service** (`UserService`). The hosted backend becomes a class
  `Backend`. It holds three things:
  - a profiles table (identifier → row);
  - a log of every request sent, in order;
  - a fixed `Faults` value. It says which kinds of request fail, with what
    message, and what message `.single()` gives when no row matches.

  The module models:
  - `getUserById`: the identifier-shape gate, and the collapse of every error
    to `null`;
  - `getUserByEmail`: the lookup by lower-cased address;
  - `updateUser`: the sanitiser and its no-op short-circuit;
  - `createUser`: identity first, then read, then update or insert, then a
    welcome e-mail whose failure is ignored.

  `createUser` is a method proved equal to the pure function `CreateUserRun`.
  The orchestration properties are lemmas about that function.
- **Builder project view** (`BuilderProjectView`):
  - the twelve-name month table;
  - the year/month photo filter with its `All` sentinel;
  - the initial filter values;
  - the `isUpdating` flag around a project update.
- **Homeowner table** (`HomeownerTable`):
  - a case-folded search over name and e-mail;
  - the per-homeowner project count;
  - the builder-scoped project list;
  - replace-by-id of an edited user.
- **Homeowner dashboard** (`HomeownerDashboard`):
  - the greeting's first-name fallback chain;
  - the loading / error / projects state of the project fetch.

Helper modules:
- `Wrappers`: `Option` and `Result`.
- `Seqs`: `filter`. Proved to keep order, to keep every occurrence of a
  matching element and none of the others, and to keep everything when the
  predicate always holds.
- `Text`: the JavaScript string built-ins used here. These are an ASCII
  `toLowerCase`, `includes`, `startsWith`, `split(sep)[0]` and integer
  `toString`.
- `Records`: JavaScript values with their truthiness, the user record and the
  project record.

External inputs become parameters:
- the identifier the identity provider issues;
- the row the database trigger may already have created;
- the clock (`now`, and the current year and month);
- what each service call returns or throws.

Call ordering in the profile service is stated over the backend's request log.
The builder project view keeps an event log of service calls, callbacks and
toasts. The homeowner dashboard logs the user identifiers it requests projects
for. The homeowner table records no calls: its fetch is one transition from the
fetched result.

Three behaviours of the service's code are easy to misread. The model follows
the code:
- `getUserById` turns every store error into `null`, not only a malformed
  identifier.
- `updateUser` removes `email` only when its value is truthy. An empty or
  undefined `email` stays in the payload.
- `createUser` decides "profile not created yet" by looking for the text
  `No rows found` in the read error's message. Whether the insert fallback can
  run therefore depends on the message the backend actually gives. The model
  keeps that message as a parameter (`Faults.notSingleMessage`). When the
  message lacks the text, a missing profile aborts the creation
  (`ReadErrorAborts`).

## Model

| member | source | states |
|---|---|---|
| `UserService.UuidPositions` | src/services/userService.ts:31 | The UUID shape is exactly 36 characters: hyphens at positions 8, 13, 18 and 23, hexadecimal digits everywhere else. |
| `UserService.UuidIgnoresCase` | src/services/userService.ts:31 | The UUID test ignores case, as the `i` flag makes it: an id passes exactly when its lower-cased form passes. |
| `UserService.UuidFromGroups` | src/services/userService.ts:31 | Any five hex groups of 8, 4, 4, 4 and 12 digits, joined by hyphens, pass the UUID test. |
| `UserService.LegacyExamples` | src/services/userService.ts:32 | `homeowner-42` and `administrator` are accepted on their prefix alone. |
| `UserService.RejectedExamples` | src/services/userService.ts:32-35 | `user-42` is rejected. So is a UUID written without its hyphens. |
| `UserService.LookupAnswer` | src/services/userService.ts:28-57 | getUserById's answer is null for a rejected shape and null for any read error. Otherwise it is the stored row. A row comes back exactly when the shape is accepted, reads work and the id is stored. |
| `UserService.GetUserById` | src/services/userService.ts:28-58 | Sends no request for a rejected identifier, else exactly one select by id. Never changes the table. Returns `LookupAnswer`. |
| `UserService.GetUserByEmail` | src/services/userService.ts:61-79 | Selects by the lower-cased address. Succeeds exactly when reads work and one row matches, and then returns that row. Otherwise fails with "Failed to fetch user by email: " and the backend's message. |
| `UserService.Backend.CreateIdentity` | src/services/userService.ts:85-93 | The identity request is logged. It fails with the outage message, or issues the new id, after which the trigger's row (if any) is in the table. |
| `UserService.Backend.SelectById` | src/services/userService.ts:106-110 | One select by id is logged, and the table stays as it was. The answer is the stored row, the outage error, or the not-single error. |
| `UserService.Backend.SelectByEmail` | src/services/userService.ts:63-67 | `.single()` on the email column: succeeds only when exactly one row matches, and returns a matching row. |
| `UserService.Backend.UpdateById` | src/services/userService.ts:121-131 | Logs the update. The answer and the new table are those of `UpdateInTable`: the fields are merged into the stored row. A missing row fails. |
| `UserService.Backend.Insert` | src/services/userService.ts:151-155 | Logs the insert. The answer and the new table are those of `InsertIntoTable`: a duplicate or missing id fails the constraint. |
| `UserService.Backend.SendWelcomeEmail` | src/services/userService.ts:168-174 | Logs the e-mail. Never changes the table. Reports delivery exactly when the mailer is up. |
| `UserService.ProfileFields` | src/services/userService.ts:123-128 | The update for an existing profile sets name, role and phone. It adds `builderId` only when that value is truthy, and with exactly that value. |
| `UserService.NewProfile` | src/services/userService.ts:141-149 | The inserted row has the keys id, email, name, role, phone and createdAt, plus `builderId` only when truthy. Its id is the new id, its email is lower-cased and its timestamp is `now`. |
| `UserService.NewProfileExtendsUpdate` | src/services/userService.ts:123-149 | The inserted row is exactly the update's fields plus id, lower-cased email and createdAt. |
| `UserService.CreateUser` | src/services/userService.ts:82-185 | The answer, the new table and the requests sent equal `CreateUserRun` from the table before the call. |
| `UserService.NoProfileWithoutIdentity` | src/services/userService.ts:85-98 | If identity creation fails: the call fails with "Failed to create auth user: " and the message, the only request is the identity request, and the table is unchanged. |
| `UserService.IsMissingRow` | src/services/userService.ts:112 | A read error counts as "no profile yet" exactly when "No rows found" occurs somewhere in its message. |
| `UserService.ReadErrorAborts` | src/services/userService.ts:106-115 | A read error without "No rows found" fails the call with "Failed to fetch profile: " followed by the read error's own message. Only the identity request and the read were sent, and nothing is written. |
| `UserService.IdentityFirst` | src/services/userService.ts:85-110 | The first request is always the identity request. A read by the new id follows exactly when identity creation worked. At most four requests are sent. |
| `UserService.ExistingProfileIsUpdated` | src/services/userService.ts:119-138 | When the read finds the row, the third request is the update with `ProfileFields`, and no insert is ever sent. |
| `UserService.MissingProfileIsInserted` | src/services/userService.ts:139-163 | When the read fails with "No rows found", the third request is the insert of `NewProfile`, and no update is ever sent. |
| `UserService.UpdateErrorThrows` | src/services/userService.ts:119-136 | When the row was found but the update fails, the call fails with "Failed to update profile: " and the update's own message. Exactly the identity request, the read and the update were sent (no welcome e-mail), and the update wrote nothing. |
| `UserService.InsertErrorThrows` | src/services/userService.ts:139-160 | When the read reported "No rows found" and the insert fails, the call fails with "Failed to create profile: " and the insert's own message. Exactly the identity request, the read and the insert were sent (no welcome e-mail), and the insert wrote nothing. |
| `UserService.SuccessSendsWelcome` | src/services/userService.ts:165-180 | The call succeeds exactly when four requests were sent. The fourth is then the welcome e-mail to the new id and the lower-cased address, with the name, the role and `now`. A welcome e-mail is in the log exactly when the call succeeds. |
| `UserService.WelcomeFailureIgnored` | src/services/userService.ts:165-180 | Whether the welcome e-mail fails changes nothing: not the answer, not the table, not the requests. |
| `UserService.CreatedProfileCarriesFields` | src/services/userService.ts:119-180 | On success, the returned profile is the row now stored under the new id. Whichever branch wrote it, it carries the caller's name, role and phone, and `builderId` when truthy. |
| `UserService.Sanitized` | src/services/userService.ts:191-202 | The payload never contains id, role, email_confirmed_at, last_sign_in_at, projects, builderName or createdAt. `email` stays exactly when it was given with a falsy value. Every other field passes through unchanged, and nothing is added. |
| `UserService.SanitizedIdempotent` | src/services/userService.ts:191-202 | Sanitising an already-sanitised payload changes nothing. |
| `UserService.UpdateUser` | src/services/userService.ts:188-231 | When the sanitised payload is empty: no update is sent, only getUserById's own requests go out, and the answer is exactly `LookupAnswer`. Otherwise: exactly one update carrying the sanitised payload is sent, and an error is rethrown with "Failed to update user profile: ". |
| `Text.Lower` | src/services/userService.ts:66 | Lower-casing keeps the length and folds each character on its own. |
| `Text.LowerIdempotent` | src/components/dashboard/HomeownerTable.tsx:54-55 | Lower-casing twice is lower-casing once, and its result holds no upper-case letter. |
| `Text.LowerAvoids` | src/components/dashboard/HomeownerTable.tsx:54-55 | A lower-case letter that occurs in a string in neither case does not occur in its lower-cased form. |
| `Text.Includes` | src/components/dashboard/HomeownerTable.tsx:54-55 | `includes` of the empty string always holds, and a needle is only found in a haystack at least as long. |
| `Text.IncludesAt` | src/components/dashboard/HomeownerTable.tsx:54-55 | `includes` holds exactly when the needle occurs at some offset of the haystack. |
| `Text.Before` | src/components/dashboard/HomeownerDashboard.tsx:47 | `split(sep)[0]` is a prefix without `sep`, and it ends at the first `sep` or at the end of the string. |
| `Text.IntToDecimal` | src/components/project/views/BuilderProjectView.tsx:35 | `toString` of an integer is non-empty, starts with `-` exactly when the integer is negative, and is decimal digits otherwise. `IntToDecimalValue` states which number those digits spell. |
| `Text.NatToDecimalValue` | src/components/project/views/BuilderProjectView.tsx:35 | Read back as a decimal number, most significant digit first, the rendering of a natural number spells exactly that number. |
| `Text.IntToDecimalValue` | src/components/project/views/BuilderProjectView.tsx:63 | The rendering of any integer, read back with its sign, spells exactly that integer. So a photo's year string is the year written in decimal. |
| `Text.IntToDecimalInjective` | src/components/project/views/BuilderProjectView.tsx:63 | Different years render as different strings. |
| `Seqs.Filter` | src/components/dashboard/HomeownerTable.tsx:53-56 | `filter` returns no more elements than it is given, and every element it returns satisfies the predicate. |
| `Seqs.SubsequenceReflexive` | src/components/dashboard/HomeownerTable.tsx:40 | Every list is an order-preserving subsequence of itself, as the unfiltered branch returns it. |
| `Seqs.FilterIsSubsequence` | src/components/project/views/BuilderProjectView.tsx:61 | `filter` keeps its elements in their original order. |
| `Seqs.FilterMembership` | src/components/dashboard/HomeownerTable.tsx:53 | `filter` keeps an element exactly when it is in the input and satisfies the predicate. |
| `Seqs.FilterMultiplicity` | src/components/dashboard/HomeownerTable.tsx:53 | `filter` keeps every occurrence of a satisfying element, so it occurs as often as in the input, and drops every occurrence of the others. |
| `Seqs.FilterSameValues` | src/components/dashboard/HomeownerTable.tsx:53 | Two predicates with the same values filter a list the same way. |
| `Seqs.FilterKeepsAll` | src/components/project/views/BuilderProjectView.tsx:66-67 | A predicate that holds of every element keeps the whole list unchanged. |
| `BuilderProjectView.MonthTable` | src/components/project/views/BuilderProjectView.tsx:20-23 | `MONTHS` has twelve entries, pairwise distinct, and none of them is the `All` sentinel. |
| `BuilderProjectView.YearStrings` | src/components/project/views/BuilderProjectView.tsx:35 | No year renders as `All`, and different years render differently. |
| `BuilderProjectView.FilteredImages` | src/components/project/views/BuilderProjectView.tsx:60-71 | The shown photos keep their order. Every one passes both filters, and a photo is shown exactly when it is in the list and passes both. A photo that passes is shown as many times as it occurs in the list. |
| `BuilderProjectView.FilterByYearOrMonth` | src/components/project/views/BuilderProjectView.tsx:66-67 | With the month filter at `All`, year "2024" keeps exactly the photos taken in 2024. With the year filter at `All`, month "March" keeps exactly the photos taken in March, of any year. |
| `BuilderProjectView.AllShowsEverything` | src/components/project/views/BuilderProjectView.tsx:66-67 | With both filters `All`, every photo is shown, in order. |
| `BuilderProjectView.InitialFiltersShowCurrentMonth` | src/components/project/views/BuilderProjectView.tsx:34-40 | Under the initial filters, a photo is shown exactly when it was taken in the current year and month. |
| `BuilderProjectView.ViewState.constructor` | src/components/project/views/BuilderProjectView.tsx:34-41 | The filters start at the current year's string and the current month's name. `isUpdating` starts false. |
| `BuilderProjectView.ViewState.HandleProjectUpdate` | src/components/project/views/BuilderProjectView.tsx:44-57 | Without a project nothing happens. Otherwise the service is called while `isUpdating` is true. The callback gets the service's result only on success, a failure toast comes only on failure, and `isUpdating` ends false either way. |
| `HomeownerTable.FilteredHomeowners` | src/components/dashboard/HomeownerTable.tsx:53-56 | Answers exactly when every homeowner has a name. The result keeps order and keeps a homeowner exactly when the lower-cased query occurs in the lower-cased name or e-mail. Each matching homeowner appears as often as in the list. |
| `HomeownerTable.QueryCaseIgnored` | src/components/dashboard/HomeownerTable.tsx:54-55 | The search gives the same answer for a query and for its lower-cased form. |
| `HomeownerTable.EmptyQueryKeepsAll` | src/components/dashboard/HomeownerTable.tsx:53-56 | An empty query keeps every homeowner. |
| `HomeownerTable.SearchFindsByName` | src/components/dashboard/HomeownerTable.tsx:54 | "jane" finds "Jane Doe". |
| `HomeownerTable.SearchFindsByEmail` | src/components/dashboard/HomeownerTable.tsx:55 | "jane" finds "jane@x.com". |
| `HomeownerTable.MissingLetterNoMatch` | src/components/dashboard/HomeownerTable.tsx:53-56 | A query holding a letter that occurs in neither the name nor the e-mail, in upper or lower case, finds nothing. |
| `HomeownerTable.CountIsMultiplicity` | src/components/dashboard/HomeownerTable.tsx:58-62 | The filtered project count equals the number of times the id occurs among the projects' homeowner ids. |
| `HomeownerTable.ProjectCount` | src/components/dashboard/HomeownerTable.tsx:58-62 | `getHomeownerProjectCount` is the multiplicity of the id among the homeowner ids, and is at most the number of projects. |
| `HomeownerTable.ScopedProjects` | src/components/dashboard/HomeownerTable.tsx:38-40 | For a builder: exactly the projects whose builderId is the user's id, in order, each as often as in the full list. For anyone else, or no user: all projects. |
| `HomeownerTable.ReplaceById` | src/components/dashboard/HomeownerTable.tsx:69-73 | The length is kept. Every entry with the edited user's id becomes that user, and every other entry is unchanged. |
| `HomeownerTable.ReplaceAbsentIsIdentity` | src/components/dashboard/HomeownerTable.tsx:71 | When no entry has the edited user's id, the list is unchanged. |
| `HomeownerTable.ReplaceIdempotent` | src/components/dashboard/HomeownerTable.tsx:71 | Applying the same update twice is the same as applying it once. |
| `HomeownerTable.TableState.constructor` | src/components/dashboard/HomeownerTable.tsx:22-25 | Starts with an empty query, no projects, loading true, and the homeowners as given. |
| `HomeownerTable.TableState.FetchProjects` | src/components/dashboard/HomeownerTable.tsx:34-48 | On success, `projects` becomes the builder-scoped list. On failure, it is unchanged. `loading` ends false either way, and nothing else changes. |
| `HomeownerTable.TableState.HandleUserUpdated` | src/components/dashboard/HomeownerTable.tsx:69-73 | `homeowners` becomes `ReplaceById` of the old list, and nothing else changes. |
| `HomeownerDashboard.FirstName` | src/components/dashboard/HomeownerDashboard.tsx:47 | `first_name` when non-empty. Otherwise the name's first word when that word is non-empty: a non-empty prefix of the name with no space, ending at a space or at the end. Otherwise the e-mail's local part: a prefix with no `@`, ending at the first `@` or at the end. |
| `HomeownerDashboard.FirstNameEmpty` | src/components/dashboard/HomeownerDashboard.tsx:47 | The greeting is empty exactly when there is no first name, no leading word, and the e-mail is empty or starts with `@`. |
| `HomeownerDashboard.DashboardState.constructor` | src/components/dashboard/HomeownerDashboard.tsx:14-16 | Starts with no projects, loading true and no error. |
| `HomeownerDashboard.DashboardState.FetchProjects` | src/components/dashboard/HomeownerDashboard.tsx:28-40 | Asks once for the user's projects. On success: projects are the result and the error is cleared. On failure: the error is "Failed to load projects. Please try again later." and projects are unchanged. `loading` ends false either way. |

## Left out

- `getUsers` (src/services/userService.ts:9-25) is not modelled. It is one unordered select of every row, with the same error wrapping as `getUserByEmail`, and the model's table has no row order.
- The Supabase client is replaced by the abstract `Backend` class. PostgREST semantics beyond select/update/insert by identifier or e-mail are not modelled.
- JSON serialisation is not modelled. When a payload is sent, keys whose value is `undefined` would be dropped; the abstract table keeps them as `Undefined`.
- The 500 ms wait before reading the profile is not modelled. It is timing only; the trigger's row is a parameter instead.
- `createUser` reads the clock twice (the inserted row and the welcome e-mail). Both reads are the one parameter `now`.
- `console.*`, `logger`, and the warnings for a refused e-mail change or an empty update are not modelled. They have no effect on state or results.
- E-mail delivery is not modelled. `sendWelcomeEmail` is an opaque request that succeeds or fails.
- Date parsing is not modelled: `new Date(createdAt)`, `getFullYear`, `getMonth`, their time zone, and invalid dates (which give `NaN` and an undefined month). Photos carry a year and a month index 0..11 instead.
- `toLowerCase` is an ASCII case fold. Unicode case mapping is not modelled.
- The UUID regular expression is written as explicit character predicates. No regex engine is modelled.
- JavaScript numbers are integers here (`Num(int)`). Fractions and `NaN` are not modelled.
- React scheduling is not modelled: hooks, effect re-runs, races between overlapping fetches, and the re-sync of `homeowners` when the prop changes (src/components/dashboard/HomeownerTable.tsx:29-31). Each handler is one sequential transition.
- `HandleProjectUpdate` assumes the `onProjectUpdate` callback returns normally. In the source, a callback that throws would also be caught and toasted.
- Rendering, styling, toasts (only recorded as an event), `EditUserDialog`, `handleEditClick` and the dialog state, and the image upload/update/delete callbacks of the project view (src/components/project/views/BuilderProjectView.tsx:73-163) are not modelled. They are presentation only.
