# MkDomain: a Dafny model of the domain list, its form and its API client

MkDomain is a small single-page application for a list of "domain" records.
Each record has an id, a URL, an active flag, a verification status and a
creation time. The app keeps the list on a remote CRUD backend. This project
models the logic inside its three core files and proves properties of it.
The rendering and the transport are not modelled.

- `domain_api.dfy` (module `DomainApi`, from `src/store/domainApi.ts`): the
  `Domain` record and its `Partial` form. Each of the five endpoints is a
  function from its argument to a descriptor value: the HTTP verb, the url
  suffix, the body, JSON or text decoding of the response, and the declared
  `Domain` cache tags (`Bare` or `WithId(id)`). The create body spreads the
  caller's fields and then overrides `createdDate` with the time in seconds.
  The current time is a parameter.
- `domain_pattern.dfy` (module `DomainPattern`): the domain-URL regular
  expression of the form, over ASCII. `Matches` states its language as the
  regex's parts laid end to end. `Accepts` decides that language and is proved
  to agree with `Matches`.
- `domain_form.dfy` (module `DomainForm`, from `src/Components/DomainForm.tsx`):
  - the `required` and `pattern` rules of the `domain` field;
  - the submit dispatch of `onFinish`, returned as effects: delegate to
    `onSuccess`, or send one create request, then reset and close on success;
  - a `DomainFormState` class that holds the two fields and the props. It
    covers the `isActive` default, pre-fill from `initialValues` and reset.
- `domain_table.dfy` (module `DomainTable`, from
  `src/Components/DomainTable.tsx`):
  - the case-insensitive search filter, the status colour and label, and the
    per-row menu rules;
  - the handlers' effects: an update, a delete, a refetch or a toast;
  - a pure state machine (`Next`, `Run`) over `searchText`, `isDrawerOpen`
    and `editingDomain`, with the invariant "drawer closed ⇒ no record being
    edited" proved for every event sequence from mount;
  - a `DomainTableState` class whose methods are proved against that machine.
- `ascii.dfy`, `messages.dfy` and `wrappers.dfy` hold helpers: ASCII case
  mapping with `includes`, the toast value, and `Option`.

Each asynchronous handler is modelled as one step. The request's outcome
(success or failure) is a boolean parameter, and the handler returns the
requests it issues and the toasts it shows as a sequence of effect values.

Three consequences of the source are worth stating plainly:

- The `{2,6}` bound of the domain pattern (src/Components/DomainForm.tsx:63)
  looks as if it limits the last label, but it limits nothing: the path class
  that follows takes every label character. An eight-letter label is accepted
  (`LongLabelAccepted`), and so is `....` (`DotsOnlyAccepted`). What every
  accepted string does hold is a dot followed by two characters of `[a-z.]`
  (`AcceptedHasDottedLabel`).
- Only create and delete invalidate the list's bare `Domain` tag. Update and
  verify invalidate `Domain` with the record's id only, which does not reach
  the list query (`UpdateRefreshesOnlyItsRecord`). The table's explicit
  `refetch` is what reloads the list after them.
- `handleUpdate` always sends both `domain` and `isActive`, whether or not
  either was changed.

## Model

| member | source | states |
|---|---|---|
| DomainApi.ParseStatus | src/store/domainApi.ts:7 | a string belongs to the status union exactly when it is `pending`, `verified` or `rejected`, and then it names that status |
| DomainApi.StatusNameRoundTrip | src/store/domainApi.ts:7 | every status survives the trip to its string and back |
| DomainApi.ItemUrlRoundTrip | src/store/domainApi.ts:27 | the `/${id}` suffix gives back its id and never equals the collection url `""` |
| DomainApi.CreatedSeconds | src/store/domainApi.ts:36 | the stamped value is the time in whole seconds, floored: `secs*1000 <= nowMs < secs*1000 + 1000` |
| DomainApi.GetDomains | src/store/domainApi.ts:22-25 | the list query is a GET of the base url with no body, decoded as JSON, providing the bare `Domain` tag |
| DomainApi.GetDomain | src/store/domainApi.ts:26-29 | the single-record query is a GET of the url naming that id, providing `Domain` with that id |
| DomainApi.AddDomain | src/store/domainApi.ts:30-40 | create is a POST to the base url; the body is the caller's fields with only `createdDate` replaced by the time in seconds; it adds the `createdDate` key and invalidates the bare tag |
| DomainApi.UpdateDomain | src/store/domainApi.ts:41-53 | update is a PUT to the url naming the argument's id, with the caller's partial body unmodified; it invalidates only `Domain` with that id |
| DomainApi.DeleteDomain | src/store/domainApi.ts:54-61 | delete is a DELETE to the url naming the id, with no body; its response is read as text, not JSON; it invalidates the bare tag |
| DomainApi.CreateAndDeleteRefreshEverything | src/store/domainApi.ts:24-60 | under the library's tag-matching rule, create and delete reach the list query and every single-record query |
| DomainApi.UpdateRefreshesOnlyItsRecord | src/store/domainApi.ts:50-52 | update reaches its own record's query, not the list, and no other record's query |
| Ascii.Includes | src/Components/DomainTable.tsx:209 | `includes` holds exactly when the needle occurs at some index of the haystack (so the empty needle always does) |
| DomainPattern.Accepts | src/Components/DomainForm.tsx:63 | the decision procedure accepts exactly the strings in the pattern's language |
| DomainPattern.SlashIsPath | src/Components/DomainForm.tsx:63 | the optional final `\/?` adds no string to `([/\w .-]*)*` |
| DomainPattern.AcceptsAfterSchemeCorrect | src/Components/DomainForm.tsx:63 | searching split points left to right, with a two-character label, finds a match exactly when host, dot, 2–6 label characters and path exist |
| DomainPattern.StripSchemeCorrect | src/Components/DomainForm.tsx:63 | the scheme is optional, but a string starting with `http://` or `https://` matches only with it taken off |
| DomainPattern.AcceptedHasDottedLabel | src/Components/DomainForm.tsx:63 | every accepted string holds a dot followed by two characters of `[a-z.]` |
| DomainPattern.UppercaseBeforeFirstDotRejected | src/Components/DomainForm.tsx:63 | an upper-case letter before the first dot (after the scheme) rejects the string: the pattern has no `i` flag |
| DomainPattern.PlaceholderAccepted | src/Components/DomainForm.tsx:63-69 | the placeholder example `https://google.com` is accepted |
| DomainPattern.NotAUrlRejected | src/Components/DomainForm.tsx:63 | `not a url` is rejected |
| DomainPattern.UppercaseHostsRejected | src/Components/DomainForm.tsx:63 | `https://Google.com` and `Google.com` are rejected |
| DomainPattern.LongLabelAccepted | src/Components/DomainForm.tsx:63 | a label of eight letters is accepted: the `{2,6}` bound does not limit it |
| DomainPattern.DotsOnlyAccepted | src/Components/DomainForm.tsx:63 | `....` is accepted: no letter is required anywhere |
| DomainForm.ValidateDomain | src/Components/DomainForm.tsx:60-66 | an absent or empty value fails `required`; any other value passes exactly when it matches the pattern |
| DomainForm.CheckText | src/Components/DomainForm.tsx:60-66 | no message for an accepted value; otherwise the message of the failed rule, "Please input the domain!" or "Please enter a valid domain URL!" |
| DomainForm.ValidationExamples | src/Components/DomainForm.tsx:60-69 | the placeholder passes with no message; empty, `not a url` and `https://Google.com` fail with the matching rule and its message |
| DomainForm.FinishEffects | src/Components/DomainForm.tsx:25-45 | with `onSuccess` only the values are handed over; otherwise one create with exactly `domain`, `status = pending`, `isActive` and the time in seconds, exactly one toast matching the outcome, and `onCancel` exactly once, last, on success; the list has three effects on success and two on failure |
| DomainForm.CreateRequestIsPending | src/Components/DomainForm.tsx:31-37 | the request the form's create produces is a POST whose body has the submitted fields, `pending`, and the endpoint's own time in seconds, whatever time the form stamped |
| DomainForm.Prefill | src/Components/DomainForm.tsx:16-23 | a present `initialValues` sets `domain` and `isActive`; an absent one leaves both fields untouched |
| DomainForm.FreshAddFormIsActive | src/Components/DomainForm.tsx:53-55 | a fresh add form has `isActive` true and no domain |
| DomainForm.DomainFormState.constructor | src/Components/DomainForm.tsx:12-23 | mounting sets the form's own initial values and then runs the pre-fill |
| DomainForm.DomainFormState.ReceiveProps | src/Components/DomainForm.tsx:16-23 | the pre-fill runs again only when `initialValues` changed; otherwise the entered values stay |
| DomainForm.DomainFormState.EditDomain | src/Components/DomainForm.tsx:57-73 | typing sets the `domain` field |
| DomainForm.DomainFormState.EditActive | src/Components/DomainForm.tsx:75-81 | the switch sets the `isActive` field |
| DomainForm.DomainFormState.ResetFields | src/Components/DomainForm.tsx:39 | reset returns the fields to no domain and active |
| DomainForm.DomainFormState.OnFinish | src/Components/DomainForm.tsx:25-45 | effects as `FinishEffects`; fields reset only after a successful create, and kept on failure and on delegation |
| DomainForm.DomainFormState.Submit | src/Components/DomainForm.tsx:51-66 | a value failing the rules issues nothing and changes nothing; a passing one goes to `onFinish` with the current fields |
| DomainTable.SearchFilter | src/Components/DomainTable.tsx:208-210 | the shown rows are a subsequence of the list, all matching, each matching record as often as in the list and each other record not at all |
| DomainTable.EmptySearchShowsAll | src/Components/DomainTable.tsx:208-210 | the empty search shows the whole list |
| DomainTable.SearchIgnoresCase | src/Components/DomainTable.tsx:208-210 | search texts equal up to letter case show the same rows |
| DomainTable.UpperCaseSearchFindsRecord | src/Components/DomainTable.tsx:208-210 | searching `GOOGLE` matches the record `https://google.com` |
| DomainTable.StatusColor | src/Components/DomainTable.tsx:77-86 | `verified` ↦ success, `pending` ↦ warning, every other string ↦ error, each as an if-and-only-if |
| DomainTable.StatusColorsOfStatuses | src/Components/DomainTable.tsx:77-86 | the three statuses get three different colours, `rejected` the error colour |
| DomainTable.StatusLabel | src/Components/DomainTable.tsx:155 | the label keeps the length, upper-cases the first character and keeps the rest |
| DomainTable.StatusLabelLowersBack | src/Components/DomainTable.tsx:155 | lower-casing the label gives the lower-cased status back |
| DomainTable.StatusLabelsOfStatuses | src/Components/DomainTable.tsx:155 | the labels are `Pending`, `Verified` and `Rejected` |
| DomainTable.UpdateEffects | src/Components/DomainTable.tsx:54-75 | without a record id, no request and only the error toast; otherwise one update of that id with exactly `domain` and `isActive`, exactly one toast matching the outcome, and a single refetch, last, exactly on success; three effects on success, two on failure |
| DomainTable.VerifyEffects | src/Components/DomainTable.tsx:40-52 | one update of the id whose body names only `status`, set to verified; exactly one toast matching the outcome; a single refetch, last, exactly on success; three effects on success, two on failure |
| DomainTable.DeleteEffects | src/Components/DomainTable.tsx:29-38 | one delete of the id; exactly one toast matching the outcome; a single refetch, last, exactly on success; three effects on success, two on failure |
| DomainTable.VerifyRequestTouchesOnlyStatus | src/Components/DomainTable.tsx:40-52 | the verify request is a PUT to the record's url that leaves `domain`, `isActive` and `createdDate` out, and its tags do not reach the list |
| DomainTable.DropdownItems | src/Components/DomainTable.tsx:96-116 | the keys are `edit-`, `verify-` and `delete-` followed by the row's id; Edit is never disabled; Verify is disabled iff the row is verified; Delete iff the global delete flag is set; each item acts on that row's id |
| DomainTable.MenuKeysUnique | src/Components/DomainTable.tsx:96-116 | menu keys differ within a row and across rows with different ids |
| DomainTable.Next | src/Components/DomainTable.tsx:17-75 | each transition keeps "closed ⇒ no record"; a search changes only `searchText`; showing with no record keeps the record; close clears it; a settled update closes only on success with an id |
| DomainTable.RunKeepsInvariant | src/Components/DomainTable.tsx:17-75 | any event sequence from a state that satisfies the invariant ends in one that does |
| DomainTable.ReachableStatesKeepInvariant | src/Components/DomainTable.tsx:10-27 | every state reachable from mount (closed, no record) satisfies "drawer closed ⇒ no record being edited" |
| DomainTable.DrawerFor | src/Components/DomainTable.tsx:219-231 | the title is "Edit domain" and the form gets `handleUpdate` exactly when a record is being edited; otherwise "Add domain" and no `onSuccess` |
| DomainTable.EditSubmissionSendsUpdate | src/Components/DomainTable.tsx:226-229 | submitting while editing a record with an id delegates to `handleUpdate`, which PUTs exactly the two fields to that record's url |
| DomainTable.DomainTableState.constructor | src/Components/DomainTable.tsx:10-12 | mount: empty search, drawer closed, no record |
| DomainTable.DomainTableState.SetSearchText | src/Components/DomainTable.tsx:191-210 | the search input sets `searchText` and nothing else, and the rows shown (`Visible`) become the search filter of the list for that text |
| DomainTable.DomainTableState.ShowDrawer | src/Components/DomainTable.tsx:17-22 | opens the drawer and sets the record only when one is given; keeps the invariant |
| DomainTable.DomainTableState.CloseDrawer | src/Components/DomainTable.tsx:24-27 | closes the drawer and clears the record |
| DomainTable.DomainTableState.HandleUpdate | src/Components/DomainTable.tsx:54-75 | effects as `UpdateEffects`; the drawer closes and the record clears only on success with an id; otherwise the state is unchanged |
| DomainTable.DomainTableState.HandleVerify | src/Components/DomainTable.tsx:40-52 | effects as `VerifyEffects` |
| DomainTable.DomainTableState.HandleDelete | src/Components/DomainTable.tsx:29-38 | effects as `DeleteEffects` |
| DomainTable.DomainTableState.SelectMenuItem | src/Components/DomainTable.tsx:96-116 | a disabled item does nothing; Edit opens the drawer on the row; Verify and Delete issue their handler's effects |

## Left out

- Rendering: JSX, antd components, Tailwind classes, pagination, scroll sizing, the loading spinner, and the active-status marker and tag (src/Components/DomainTable.tsx:88-94, 141-147).
- The sort-order select (src/Components/DomainTable.tsx:195-202). It has no handler and no effect on the rows.
- The copy-to-clipboard button and its toast (src/Components/DomainTable.tsx:131-135). It is a local side effect with no state.
- The HTTP transport: the base URL host, the `Content-Type` header, network errors and the backend's behaviour. This covers how it merges a PUT body, assigns ids and answers a missing id. Requests are values only.
- The RTK Query cache and its refetch machinery. `DomainApi.Hits` states the library's documented tag-matching rule as an assumption. That rule is not visible in this source.
- Asynchrony: each handler is one step whose outcome is a parameter. Interleavings of concurrent mutations and the timing of `isDeleting` are not modelled. `isDeleting` is an input flag of `DropdownItems`.
- `Date.now()`: it is the `nowMs` parameter (an integer of milliseconds).
- `console.error` calls. A toast is recorded as a `Messages.Message` value.
- React scheduling. Hooks are plain fields and method calls. The pre-fill effect re-runs when `initialValues` changes, compared by value where React compares references.
- Case mapping and regex classes cover ASCII only. Non-ASCII characters are left unchanged by `Ascii.ToLower`/`ToUpper`, whereas JavaScript folds some of them.
- A JSON key present with the value `undefined` in a `Partial<Domain>` is treated as absent.
- Matching time of the domain pattern. The model captures the language of the regular expression in src/Components/DomainForm.tsx:63, not the cost of matching it. A backtracking matcher may take time exponential in the length of the path on a string that fails only at its end, because the pattern nests `*` inside `*` before `\/?$`. This reading was not executed.
- src/App.tsx is not part of this model. It only wires providers, the router and configuration.
