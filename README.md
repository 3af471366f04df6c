# StudySync group registry and create-group form, in Dafny

This project models the client-side group registry of StudySync, a per-group study
assistant. It also models the form that feeds the registry.

- **Group list page** (`frontend/app/group/page.tsx`). The page holds the catalog of
  study groups in creation order, starting from two seed entries (`"123"` and `"234"`).
  `generateGroupId` picks a new group's identifier. For an empty catalog it returns
  `"123"`. Otherwise it reads every identifier with `parseInt`, takes the maximum, adds
  one and left-pads the decimal rendering with `'0'` to width 3. Padding never
  truncates. `handleCreateGroup` builds a record with that identifier, using a member
  count of 1 when the count is missing or 0, and appends it to the catalog.
- **Create-group modal** (`frontend/components/CreateGroupModal.tsx`). The modal holds
  `groupName`, `subject` and a `loading` flag. `handleSubmit` refuses a submission in
  which either field is blank after `trim`. Otherwise it sets `loading` and calls the
  parent's `onCreateGroup` with the untrimmed fields and `members: 1`. When that call
  returns, it clears both fields and calls `onClose`. When the call throws, it keeps the
  fields. It always clears `loading` at the end.

Files:

- `js_string.dfy` (module `JsString`): the JavaScript string operations the two files
  rely on. These are `parseInt` on decimal digit strings, `String(n)`, `padStart` and
  `trim` with the ECMAScript whitespace set. Round-trip and trimming lemmas sit beside
  them.
- `group_page.dfy` (module `GroupPage`): the `Group` and `GroupData` records, the seed
  catalog, `GenerateGroupId` as a function, and the class `GroupListPage`. The class
  holds the catalog as a `seq<Group>` field and has `HandleCreateGroup`, which appends
  to it. `CreateAll` replays a sequence of creations and is used to state what
  successive creations allocate.
- `create_group_modal.dfy` (module `CreateGroupModal`): the class `CreateGroupForm`.
  `handleSubmit` is split at the callback: `BeginSubmit` covers validation, `loading`
  and the call, and `FinishSubmit` covers reset, close and clearing `loading`. A caller
  can therefore run the real callback in between. `HandleSubmit` composes the two and
  takes the callback's outcome (returned or threw) as a parameter. Calls to the
  parent's callbacks are recorded in the field `calls`.
- `create_group_flow.dfy` (module `CreateGroupFlow`): the modal wired to the page, as
  `page.tsx` wires it. `onCreateGroup` is `HandleCreateGroup`, which never throws, and
  `onClose` hides the modal.

Assumptions:

- Identifiers are decimal digit strings (`NumericIds`), so `parseInt`'s `NaN` never
  arises. The catalog functions require it. The page keeps it, together with
  distinctness, as its invariant `GroupListPage.Valid`, which the constructor
  establishes and every method preserves.
- Numbers are unbounded integers.
- The absent `members` field is `Option<int>`.

Notes on the code's behaviour:

- The blank-field check lives in the modal, not in `handleCreateGroup`. The page's
  handler accepts any name and subject.
- `members || 1` keeps negative counts, so the member count is only known to be non-zero.
- Identifiers are allocated from the catalog list rather than from a set.

## Model

| member | source | states |
|---|---|---|
| JsString.ParseInt | frontend/app/group/page.tsx:27 | `parseInt(s)` on a non-empty decimal digit string, read most significant digit first; other inputs are not covered |
| JsString.NatToString | frontend/app/group/page.tsx:28 | `String(n)` is a non-empty digit string; it starts with `'0'` only for `n == 0`, as `"0"` |
| JsString.PadStart | frontend/app/group/page.tsx:28 | `padStart` yields length `max(|s|, width)`, ends with `s` unchanged and has only the filler before it, so it never truncates |
| JsString.NatToStringRoundTrip | frontend/app/group/page.tsx:27-28 | `parseInt(String(n)) == n` |
| JsString.ParseLeadingZeros | frontend/app/group/page.tsx:27-28 | leading `'0'`s do not change the value `parseInt` reads |
| JsString.Pad3 | frontend/app/group/page.tsx:28 | `String(n).padStart(3, "0")`, the rendering of an allocated identifier |
| JsString.Pad3Properties | frontend/app/group/page.tsx:28 | a padded identifier is a digit string of at least 3 characters, equals the plain rendering once that has 3 or more digits, and parses back to the number it renders |
| JsString.Pad3Injective | frontend/app/group/page.tsx:28 | distinct numbers render to distinct padded identifiers |
| JsString.Pad3Widens | frontend/app/group/page.tsx:28 | 5 renders as `"005"` |
| JsString.Pad3Of123 | frontend/app/group/page.tsx:26 | `"123"` is what 123 renders as and parses back to 123, so the empty-catalog identifier fits the same scheme |
| JsString.Pad3NeverTruncates | frontend/app/group/page.tsx:28 | 999 renders as `"999"` and 1000 as `"1000"` |
| JsString.TrimStart | frontend/components/CreateGroupModal.tsx:19 | the result is the suffix of the input starting at its first non-whitespace character, and everything dropped is whitespace |
| JsString.TrimEnd | frontend/components/CreateGroupModal.tsx:19 | the result is the prefix of the input ending at its last non-whitespace character, and everything dropped is whitespace |
| JsString.Trim | frontend/components/CreateGroupModal.tsx:19 | `s.trim()`: no longer than `s`, and a non-empty result has no whitespace at either end |
| JsString.IsBlank | frontend/components/CreateGroupModal.tsx:19 | `!s.trim()`: the string is empty after trimming |
| JsString.BlankIffAllWhitespace | frontend/components/CreateGroupModal.tsx:19 | `!s.trim()` holds exactly when every character of `s` is whitespace, the empty string included |
| GroupPage.InitialGroups | frontend/app/group/page.tsx:15-18 | the two seed groups, `"123"` (18 members) and `"234"` (10 members), with their names and subjects |
| GroupPage.MaxId | frontend/app/group/page.tsx:27 | `Math.max` over the parsed identifiers bounds every identifier's value from above |
| GroupPage.MaxIdAttained | frontend/app/group/page.tsx:27 | the maximum is the value of some entry's identifier |
| GroupPage.GenerateGroupId | frontend/app/group/page.tsx:24-29 | the new identifier is a digit string of at least 3 characters; it is `"123"` for an empty catalog, otherwise it parses to the maximum plus one |
| GroupPage.GenerateGroupIdIsFresh | frontend/app/group/page.tsx:27-28 | the new identifier's value exceeds every existing identifier's value, and the new identifier equals none of them |
| GroupPage.GenerateGroupIdExamples | frontend/app/group/page.tsx:26-28 | a catalog whose maximum is 5 allocates `"006"`, one whose maximum is 999 allocates `"1000"` |
| GroupPage.MembersOrDefault | frontend/app/group/page.tsx:40 | an absent or zero count becomes 1, any other count is kept, and the result is never 0 |
| GroupPage.NewGroup | frontend/app/group/page.tsx:36-41 | the record `handleCreateGroup` builds: the allocated identifier, the name and subject verbatim, and the defaulted member count |
| GroupPage.NewGroupKeepsCatalogValid | frontend/app/group/page.tsx:36-43 | appending the new record keeps all identifiers numeric and pairwise distinct, as list keys and route segments (lines 67-68) require |
| GroupPage.SeedDistinct | frontend/app/group/page.tsx:15-18 | the seed catalog's identifiers are distinct |
| GroupPage.MaxIdAfterNewGroup | frontend/app/group/page.tsx:27-43 | each creation raises the maximum identifier value by exactly one |
| GroupPage.CreateAll | frontend/app/group/page.tsx:43 | the catalog after `handleCreateGroup` has run once per entry of a batch, in order; all its identifiers stay numeric |
| GroupPage.CreateAllAppends | frontend/app/group/page.tsx:43 | successive creations only append: the length grows by the number of creations, earlier entries keep their places, and the maximum rises by one per creation |
| GroupPage.CreateAllIdAt | frontend/app/group/page.tsx:24-43 | on a non-empty catalog, the k-th creation (from 0) gets the identifier value max + 1 + k, so identifiers are consecutive and strictly increasing in creation order |
| GroupPage.SeedAllocatesFrom235 | frontend/app/group/page.tsx:15-43 | starting from the seed catalog, creations get 235, 236, … and the seed entries stay first |
| GroupPage.EmptyAllocatesFrom123 | frontend/app/group/page.tsx:24-43 | starting from an empty catalog, the k-th creation (from 0) gets the identifier value 123 + k |
| GroupPage.GroupListPage.Valid | frontend/app/group/page.tsx:67-68 | the page invariant: every identifier is numeric and no two are equal, as list keys and route segments need |
| GroupPage.GroupListPage.constructor | frontend/app/group/page.tsx:15-22 | the page starts with the seed catalog and the modal hidden, and the page invariant holds |
| GroupPage.GroupListPage.HandleCreateGroup | frontend/app/group/page.tsx:31-44 | the catalog becomes the old catalog plus one record at the end: the record has the allocated identifier, the name and subject verbatim and the defaulted member count; the page invariant is kept |
| GroupPage.GroupListPage.OpenModal | frontend/app/group/page.tsx:57 | the modal is shown, the catalog is unchanged and the page invariant is kept |
| GroupPage.GroupListPage.CloseModal | frontend/app/group/page.tsx:84 | the modal is hidden, the catalog is unchanged and the page invariant is kept |
| GroupPage.CreateTwoOnFreshPage | frontend/app/group/page.tsx:15-43 | two creations on a fresh page allocate `"235"` and then `"236"` |
| CreateGroupModal.CanSubmit | frontend/components/CreateGroupModal.tsx:19 | the guard `!groupName.trim() \|\| !subject.trim()` is false: neither field is blank |
| CreateGroupModal.Payload | frontend/components/CreateGroupModal.tsx:26-30 | what the form hands to `onCreateGroup`: both fields untrimmed and `members: 1` |
| CreateGroupModal.CanSubmitIff | frontend/components/CreateGroupModal.tsx:19 | submission passes validation exactly when each field has a non-whitespace character |
| CreateGroupModal.CreateGroupForm.constructor | frontend/components/CreateGroupModal.tsx:12-14 | both fields start empty, `loading` false, and no callback has been called |
| CreateGroupModal.CreateGroupForm.SetGroupName | frontend/components/CreateGroupModal.tsx:63 | the name field takes the typed value and nothing else changes |
| CreateGroupModal.CreateGroupForm.SetSubject | frontend/components/CreateGroupModal.tsx:77 | the subject field takes the typed value and nothing else changes |
| CreateGroupModal.CreateGroupForm.BeginSubmit | frontend/components/CreateGroupModal.tsx:19-30 | a blank field is rejected with nothing changed and no callback; otherwise `loading` is set and `onCreateGroup` is called once with the untrimmed fields and 1 member |
| CreateGroupModal.CreateGroupForm.FinishSubmit | frontend/components/CreateGroupModal.tsx:32-40 | a normal return clears both fields and calls `onClose`; a throw keeps the fields and calls nothing; `loading` ends false |
| CreateGroupModal.CreateGroupForm.HandleSubmit | frontend/components/CreateGroupModal.tsx:16-41 | the whole handler: rejection changes nothing; otherwise exactly one `onCreateGroup` call with members 1, then reset and `onClose` on return, or fields kept and no `onClose` on a throw, and `loading` false on exit |
| CreateGroupFlow.PayloadGroup | frontend/app/group/page.tsx:36-41 | the record built from the form's payload has the fields as typed, 1 member and the allocated identifier |
| CreateGroupFlow.SubmitOnPage | frontend/app/group/page.tsx:82-86 | a submission on the page changes nothing when a field is blank; otherwise it appends exactly one group with non-blank name and subject as typed, 1 member and a fresh identifier, then resets the form and hides the modal; the page invariant is kept |

## Left out

- `alert`, `console.error`, `e.preventDefault()`, the `isOpen` render guard, the overlay click, disabled inputs and all rendering: these are presentation, not state logic.
- React's asynchronous state updates, stale closures over `groups`, and concurrent creations: each handler is one sequential step on one object.
- `handleSubmit` is declared `async` but awaits nothing. The model runs it as one sequential step.
- Identifiers that are not decimal digit strings, which `parseInt` would read as `NaN`: `NumericIds` is a precondition instead.
- GroupPage.MaxId: JavaScript numbers are doubles. Identifier values above 2^53, where `parseInt` and `+ 1` lose precision, are modelled exactly.
- GroupPage.MembersOrDefault: `members` is an integer here. A `NaN` or fractional count, which `||` would replace by 1 or keep, cannot be expressed.
- JsString.ParseInt: only the digit-string case is modelled. Leading whitespace, signs and trailing non-digits, which `parseInt` also accepts, are excluded by its precondition.
- The per-group session page (`frontend/app/group/[id]/page.tsx`, with file upload and chat), the other pages, and the backend (`backend/api/main.py`, `backend/api/rag.py`) are not part of this model. They are I/O against remote services, or static listings.
