# Contacts page list-state controller

This project models the list-state controller of the `ContactsPage` component of the
contacts-management dashboard (`app/page.tsx`), and proves properties of it in Dafny.

The controller does five things:

- It builds the query parameters of the list request (`GET /contacts`) and of the export
  request (`GET /contacts/export`) from the search text and the filter panel.
- It normalises the API's list response. It picks the contact array out of one of several
  envelopes, maps each raw record to a canonical contact through JavaScript `||` fallback
  chains, and derives the total count. It reads the stats counters through their key aliases.
- It keeps the table's state: the row selection, the "select all" flag, the current page and
  page size, the filters, and the single open row menu.
- It updates that state in the click handlers: select one, select all, cancel the selection,
  the row menu, single and bulk delete, export, the Previous/Next/page-number buttons, the
  page-size buttons, the search box and "Clear All".
- It computes the small lookups of the table: avatar initials, the temperature, stage and
  source badges, the page count and the "showing X-Y of N" range.

The modules:

- `Json` holds raw server values with JavaScript truthiness (`""`, `0`, `false`, `null` and
  `undefined` are falsy; every array and object, even an empty one, is truthy). It also holds
  property reads, `||`, and the string conversion a template literal applies.
- `Text` holds `trim`, `split(" ")`/`join(" ")` and the initials.
- `Query` holds the filters and the list and export request parameters.
- `Normalize` holds the response normalisation.
- `Badges` holds the badge lookups.
- `Paging` holds the page arithmetic.
- `Selection` holds the selection and row-menu values.
- `Controller` holds the class `ContactsPage`. Its methods mirror the handlers.

A property read of `null`/`undefined`, or `.map` on a value that is not an array, throws a
TypeError in the page. The model returns `Err` for these. A thrown error inside
`fetchContacts` becomes the error banner (`ApplyListResponse`). Fetches themselves are inputs:
every start of a refresh of the list and the stats is counted in `refreshes`. That covers the
direct calls of the retry button and the deletes, and the runs of the fetch effect. The effect
runs on mount and whenever the page, the page size, the search text or the filters change.
Each start sets `loading` and clears the error banner. While `loading` holds, the page renders
only the skeleton, so no button exists and every handler requires `!loading`. The list
response clears `loading` again. The
confirmation dialog and the API call's success are boolean parameters.

## Model

| member | source | states |
|---|---|---|
| Json.Or | app/page.tsx:73-86 | `a \|\| b` is `a` when `a` is truthy and `b` otherwise; the result is truthy iff either operand is |
| Json.Prop | app/page.tsx:73-86 | a property read on an object gives the field or `undefined`; it requires a non-nullish receiver, the case that throws |
| Json.Truthy | app/page.tsx:73-91 | JavaScript truthiness, which every `\|\|` fallback of the record mapping and of the stats (lines 106-110) and the search test (line 62) use: `undefined`, `null`, `false`, `0` and `""` are falsy, every array and object is truthy |
| Json.Nullish | app/page.tsx:73-75 | `null` or `undefined`, the receivers on which a property read such as `c._id` throws |
| Json.Digits | app/page.tsx:76 | a number of magnitude below 10^21 in a template literal is written as decimal digits that denote it, with no leading zero except in "0" |
| Json.Show | app/page.tsx:76 | a template literal embeds a string unchanged, a number of magnitude below 10^21 as its decimal digits after a minus sign when negative, `undefined`/`null`/booleans by name, an object as "[object Object]" and an empty array as "" |
| Json.ShowElems | app/page.tsx:76 | an array's conversion: its elements from an index on, joined by commas, with `null` and `undefined` elements left empty |
| Text.IsSpace | app/page.tsx:62 | the characters `trim()` removes, here and in the name on line 76: the ECMAScript white space and line terminators, including no-break space, the byte-order mark and the Unicode space separators |
| Text.TrimStart | app/page.tsx:62 | dropping the leading white space of `trim()`; its facts are stated by Text.TrimStartSpec |
| Text.TrimEnd | app/page.tsx:62 | dropping the trailing white space of `trim()`; its facts are stated by Text.TrimEndSpec |
| Text.Trim | app/page.tsx:62 | `s.trim()`; its facts are stated by Text.TrimSpec, Text.TrimIsSlice and Text.TrimIdempotent |
| Text.TrimStartSpec | app/page.tsx:62 | dropping leading white space leaves a suffix of the text that does not start with white space, after a prefix that is all white space |
| Text.TrimEndSpec | app/page.tsx:62 | dropping trailing white space leaves a prefix of the text that does not end with white space, before a suffix that is all white space |
| Text.TrimSpec | app/page.tsx:62 | `s.trim()` is empty iff `s` is all white space; otherwise neither of its ends is white space |
| Text.TrimIsSlice | app/page.tsx:62 | `s.trim()` is the slice of `s` between an all-white-space prefix and an all-white-space suffix |
| Text.TrimIdempotent | app/page.tsx:62 | trimming twice is trimming once |
| Text.FirstSpace | app/page.tsx:197 | the index of the first space: no space before it, a space at it, or the end of the text |
| Text.Split | app/page.tsx:197 | `name.split(" ")`; it is pinned down by Text.SplitJoin with Text.SplitPiecesHaveNoSpace |
| Text.Join | app/page.tsx:197 | `parts.join(" ")`, the inverse Text.SplitJoin uses |
| Text.SplitJoin | app/page.tsx:197 | `split(" ")` followed by `join(" ")` gives the name back |
| Text.SplitPiecesHaveNoSpace | app/page.tsx:197 | no piece of `split(" ")` contains a space |
| Text.SplitFront | app/page.tsx:197-199 | the first piece is the text up to the first space; when there is a space, the second piece starts right after it |
| Text.Initial | app/page.tsx:200 | `p[0]` rendered by `join("")`: the first character, or nothing for an empty piece |
| Text.Initials | app/page.tsx:196-202 | `getInitials` yields at most two characters |
| Text.FirstInitial | app/page.tsx:196-202 | the first initial is the name's first character, unless the name is empty or starts with a space |
| Text.SecondInitial | app/page.tsx:196-202 | the second initial is the character right after the first space, unless it is missing or another space |
| Text.InitialsOfName | app/page.tsx:196-202 | the initials, stated directly on the name: its first character and the character after its first space, each only when it is not a space |
| Text.InitialsFromName | app/page.tsx:196-202 | every initial is a non-space character of the name |
| Query.ListRequestParams | app/page.tsx:57-67 | the list request always carries `page` and `limit`; it carries `search` (the trimmed text) iff that is non-empty, each of source/temperature/stage/group iff it is not "all", and `sortBy` iff it is not "newest" |
| Query.ListQuerySearch | app/page.tsx:62 | `search` is sent iff the text is not all white space; the value sent is a truthy string with no white space at either end |
| Query.ListQueryRoundTrip | app/page.tsx:57-67 | reading absent keys as their sentinels recovers the trimmed search, every forwarded filter, the page and the limit; tags and date range are never sent |
| Query.ListQueryOmitsSentinels | app/page.tsx:62-67 | no filter is ever sent at its sentinel value, and an empty search is never sent |
| Query.DefaultFiltersSendNoFilter | app/page.tsx:57-67 | with the default filters only `page`, `limit` and possibly `search` are sent |
| Query.ExportQuery | app/page.tsx:184-187 | the export request has exactly `source` and `temperature`, each `undefined` when it is "all" |
| Query.ExportAgreesWithList | app/page.tsx:184-187 | the export request defines source/temperature exactly when the list request carries them, with the same values |
| Normalize.ComposedName | app/page.tsx:76 | the trimmed `${firstName} ${lastName \|\| ""}`; Normalize.ContactNameBlank states when it is blank |
| Normalize.ContactName | app/page.tsx:76 | the name chain; its facts are stated by Normalize.ContactNameFallbacks and Normalize.ContactNameBlank |
| Normalize.ToContact | app/page.tsx:75-86 | the record mapping; its facts are stated by Normalize.ToContactFallbacks and Normalize.ToContactDefined |
| Normalize.ToContactFallbacks | app/page.tsx:75-86 | every fallback chain of the record mapping: id `_id`, then `id`, then index+1; temperature, then `temp`, then "cold"; lastContact, then updatedAt, then createdAt, then ""; and each field's own default |
| Normalize.ToContactDefined | app/page.tsx:75-86 | a mapped contact's id, source, temperature, stage and tags are truthy; its text fields are never nullish; avatar and group are truthy or `null` |
| Normalize.ContactNameFallbacks | app/page.tsx:76 | the name is `name`, else the trimmed "firstName lastName" when firstName is truthy, else `email`, else the placeholder |
| Normalize.ContactNameBlank | app/page.tsx:76 | the mapped name is falsy iff there is no truthy name but a truthy first name whose composition is all white space; it is then "" |
| Normalize.NamedAfterEmail | app/page.tsx:76 | a record with only an e-mail is named after it |
| Normalize.ZeroIdFallsBack | app/page.tsx:75 | an `_id` of 0 is falsy, so the id falls back to the 1-based position |
| Normalize.ZeroIdGivesWayToId | app/page.tsx:75 | an `_id` of 0 gives way to a truthy `id` |
| Normalize.Envelope | app/page.tsx:73 | `response.contacts \|\| response.data \|\| response \|\| []`; its precedence is stated by Normalize.EnvelopePrecedence |
| Normalize.ContactArray | app/page.tsx:73 | the contact array exists iff the response is not nullish and the first truthy of contacts/data/response/[] is an array; it is that array |
| Normalize.EnvelopePrecedence | app/page.tsx:73 | a truthy `contacts` wins, else a truthy `data`, else the response itself, else `[]` |
| Normalize.EnvelopeShapes | app/page.tsx:73 | `{contacts: A}`, `{data: A}` and `A` give the same array; `{data: {contacts: A}}` makes the page throw |
| Normalize.EmptyContactsWin | app/page.tsx:73 | an empty `contacts` array wins over any `data` |
| Normalize.MapRecords | app/page.tsx:73-87 | `.map` succeeds iff no record is nullish; then it maps each record with its own index, in order, keeping the length |
| Normalize.NormalizeList | app/page.tsx:73-91 | the list normalises iff the contact array exists and holds no nullish record; it has the same length and maps record j to contact j; the total is truthy or 0 |
| Normalize.NormalizeListCount | app/page.tsx:75-91 | the total is `total`, else `totalCount`, else the number of contacts; a record without a truthy `_id` or `id` gets its 1-based position |
| Normalize.NormalizeStats | app/page.tsx:105-110 | the stats normalise iff the response is not nullish |
| Normalize.NormalizeStatsAliases | app/page.tsx:105-110 | each counter is its key, else its alias (totalContacts, hotLeads, frozenContacts), else 0, so it is never undefined |
| Badges.TempStyles | app/page.tsx:205-248 | an unknown temperature gets the label "غير محدد" and no icon; only "hot" gets the ring |
| Badges.TempLabelsDistinguish | app/page.tsx:205-248 | equal temperature labels mean the same known temperature, or both unknown |
| Badges.StageStyles | app/page.tsx:251-270 | an unknown stage is labelled with itself; a known stage gets a label different from its value |
| Badges.StageLabelsDistinct | app/page.tsx:251-270 | known stages have pairwise distinct labels |
| Badges.StageLabelAmbiguous | app/page.tsx:251-270 | the unknown stage "Lead" is shown with the same label as the known stage "lead" |
| Badges.SourceStyles | app/page.tsx:273-288 | the source label is always the source itself; an unknown source gets the grey badge |
| Badges.NameInitials | app/page.tsx:600 | `getInitials(contact.name)` succeeds iff the name is a string; its result has at most two characters, each a non-space character of the name |
| Paging.CeilDiv | app/page.tsx:290 | `Math.ceil(a / b)` is the least integer whose multiple of `b` reaches `a` |
| Paging.TotalPages | app/page.tsx:290 | the page count; its bounds are stated by Paging.TotalPagesBounds |
| Paging.TotalPagesBounds | app/page.tsx:290 | the pages hold the total count and one page fewer would not; there are no pages iff the count is not positive |
| Paging.RangeStart | app/page.tsx:730 | the first row number shown; Paging.RangeWithinPage states its bounds |
| Paging.RangeEnd | app/page.tsx:730 | the end of the shown range is the smaller of the page's last row and the total count |
| Paging.RangeWithinPage | app/page.tsx:730 | on a page within the page count with rows loaded, the shown range is non-empty, starts at 1 or later, ends no later than the total and spans at most one page |
| Paging.PreviousPage | app/page.tsx:749 | Previous goes one page back and never below 1 |
| Paging.NextPage | app/page.tsx:772 | Next never goes past the page count nor more than one page forward; below the page count it goes one forward, otherwise to the page count |
| Paging.NextEnabled | app/page.tsx:773 | Next is live while the page is below the page count; Paging.FollowingNumberIsNext relates it to the page-number button |
| Paging.FollowingNumberShown | app/page.tsx:758 | the following page number is shown while there is more than one page and the page is below the count; see Paging.FollowingNumberIsNext |
| Paging.FollowingNumberIsNext | app/page.tsx:758-773 | from page 1 on, the following-number button is shown iff Next is enabled, and both go to the same page within the page count |
| Selection.RemoveAll | app/page.tsx:139 | the `filter` never lengthens the selection and changes nothing when the id is not selected |
| Selection.RemoveAllMembers | app/page.tsx:139 | the `filter` keeps exactly the ids other than the removed one |
| Selection.RemoveAllCounts | app/page.tsx:139 | the `filter` keeps every other id as often as it occurred: the multiset of the result is the old one with the removed id's count set to 0 |
| Selection.RemoveAllConcat | app/page.tsx:139 | the `filter` works piece by piece, so the kept ids stay in their order: filtering a concatenation concatenates the filtered pieces |
| Selection.RemoveAllKeepsNoDup | app/page.tsx:139 | the `filter` keeps a duplicate-free selection duplicate-free |
| Selection.Toggled | app/page.tsx:137-143 | the toggled selection; its facts are stated by Selection.ToggledMembership, Selection.ToggleTwice and Selection.ToggleKeepsNoDup |
| Selection.ToggledMembership | app/page.tsx:137-143 | toggling flips whether the id is selected and leaves every other id as it was |
| Selection.ToggleTwice | app/page.tsx:137-143 | toggling the same id twice gives back the same selected set, and the same sequence when the id was not selected |
| Selection.ToggleKeepsNoDup | app/page.tsx:137-143 | a duplicate-free selection stays duplicate-free |
| Selection.Ids | app/page.tsx:131 | `contacts.map(c => c.id)` lists the ids in the contacts' order |
| Selection.IdsAreLoaded | app/page.tsx:131 | the ids "select all" takes are exactly the loaded contacts' ids |
| Selection.ToggledDropdown | app/page.tsx:665 | clicking a row's menu button closes the menu iff it was open for that row, and otherwise opens it for that row |
| Selection.DropdownTwice | app/page.tsx:665 | clicking the same row twice restores a closed or same-row menu; starting from another row's menu it ends closed |
| Selection.MenuOpen | app/page.tsx:672 | a row shows its menu when `activeDropdown === contact.id`; Selection.MenuExclusive states that at most one row does |
| Selection.MenuExclusive | app/page.tsx:672 | with distinct ids at most one row shows its menu |
| Controller.PositionalIdClash | app/page.tsx:75 | the index fallback can repeat an explicit id: a record whose `_id` is another record's 1-based position (`{_id: 2}` before `{}`, say) shares its id with that record, so the loaded ids are not distinct and one open menu shows on both rows |
| Controller.MessageOr | app/page.tsx:94 | `err.message \|\| fallback`: the message when it is non-empty, otherwise the fallback |
| Controller.RunsAfterReset | app/page.tsx:116-124 | a change of the search, the filters or the page size runs the fetch effect once on the old page, and once more iff the reset effect then moves the page to 1 |
| Controller.ContactsPage.constructor | app/page.tsx:31-50 | the initial state: nothing loaded or selected, zero stats, empty search, default filters, page 1 of 50 rows, no open menu, and the one refresh the fetch effect starts on mount |
| Controller.ContactsPage.PageCount | app/page.tsx:290 | `Math.ceil(totalCount / rowsPerPage)`: just enough pages to hold the total, one page fewer would not, and no page iff there is no contact |
| Controller.ContactsPage.StartRefreshes | app/page.tsx:52-54 | each started refresh sets `loading` and clears the error banner; starting none changes nothing |
| Controller.ContactsPage.FetchParams | app/page.tsx:57-67 | the list request built from the page's state; since the filters stay at their defaults, it carries only page, limit and possibly search |
| Controller.ContactsPage.Export | app/page.tsx:181-193 | the export request comes from the filters; an alert with the message or the fallback text is shown iff the export fails |
| Controller.ContactsPage.ApplyListResponse | app/page.tsx:52-98 | the refresh ends with `loading` cleared; a response that normalises replaces the contacts and the total and leaves the banner cleared at the start; an error keeps them and shows the message or the fallback text |
| Controller.ContactsPage.ApplyStatsResponse | app/page.tsx:100-114 | a stats response that normalises replaces the counters; a failure leaves them |
| Controller.ContactsPage.Retry | app/page.tsx:314-318 | the retry button, present only while the banner shows an error, starts one refresh of the list and the stats, which sets `loading` and clears the banner |
| Controller.ContactsPage.SelectContact | app/page.tsx:137-143 | the selection becomes the toggled selection: the id flips, every other id stays, and no duplicates appear |
| Controller.ContactsPage.SelectAll | app/page.tsx:127-134 | the selection becomes exactly the loaded ids when "all" was off and empty when it was on; the flag flips |
| Controller.ContactsPage.CancelSelection | app/page.tsx:455-460 | Cancel empties the selection and clears "all" |
| Controller.ContactsPage.ToggleDropdown | app/page.tsx:665 | the menu is closed iff it was open for that row; otherwise it is open for that row |
| Controller.ContactsPage.DeleteContact | app/page.tsx:146-160 | a confirmed, successful delete closes the menu and refreshes; otherwise nothing changes; an alert is shown iff a confirmed delete fails; the selection is untouched |
| Controller.ContactsPage.BulkDelete | app/page.tsx:163-178 | a confirmed delete sends the whole selection; on success the selection empties, "all" clears and the page refreshes; otherwise nothing changes and a failure alerts |
| Controller.ContactsPage.PreviousPage | app/page.tsx:749 | the page goes one back, never below 1; a refresh starts iff the page changed |
| Controller.ContactsPage.NextPage | app/page.tsx:772-773 | while enabled, Next goes exactly one page forward, stays within the page count and starts one refresh |
| Controller.ContactsPage.FollowingPage | app/page.tsx:758-761 | the following-number button goes one page forward, stays within the page count and starts one refresh |
| Controller.ContactsPage.SetRowsPerPage | app/page.tsx:733-736 | the page size becomes one of 25/50/100; iff the size changed, the page resets to 1 and the refreshes of Controller.RunsAfterReset start |
| Controller.ContactsPage.SetSearch | app/page.tsx:476 | the search text is set; iff the text changed, the page resets to 1 and the refreshes of Controller.RunsAfterReset start |
| Controller.ContactsPage.ClearFilters | app/page.tsx:541 | the filters return to their defaults, the page resets to 1 and, since a new filter object is always set, the refreshes of Controller.RunsAfterReset start |

## Left out

- Fetching, `async`/`await`, `useEffect` scheduling and races between overlapping fetches are not modelled. A fetch's outcome is an input to `ApplyListResponse`/`ApplyStatsResponse`, and starting a refresh is counted in `refreshes`.
- Overlapping refreshes share one `loading` flag, and the first list response to arrive clears it, as each `finally` in the page does. Which response arrives first is not modelled.
- `confirm()`, `alert()` and `console.log` are not modelled as dialogs or output. The confirmation and the API call's success are parameters, and the alert text is an output.
- Json.Digits: a number whose magnitude is at least 10^21 is written by JavaScript in exponent form ("1e+21"), and an integer above 2^53 is not held exactly; the model writes every integer in plain decimal digits.
- Json.Show: the same limit holds for numbers; the contract is only faithful for magnitudes below 10^21 and integers up to 2^53.
- JavaScript numbers are integers here. NaN, infinities and fractions are not modelled, and neither is floating-point `Math.ceil` (it is integer ceiling division with a positive page size).
- Record ids are compared structurally. JavaScript's `===` compares arrays and objects by reference.
- The TypeError's message text is represented by one placeholder string.
- `getInitials` works on characters, not UTF-16 code units. A name starting with a character outside the Basic Multilingual Plane gives half a surrogate pair in the page.
- Object key order, and so the order of the query string, is not modelled. The parameter bags are maps.
- `shared-api-config/api/endpoints.js` is not part of this model. Each of its methods passes a request straight to the HTTP client and returns `response.data`.
- `app/layout.tsx`, the JSX markup, the Tailwind class strings and the SVGs are not part of this model. Only the badge lookups' results are kept.
- The per-filter buttons have no handlers in the page, so no operation changes a single filter. This is why `filters` stays at its defaults (the class invariant).
- Controller.ContactsPage.ApplyListResponse: requires the chosen total to be a number. The page stores whatever `total`/`totalCount` holds (a string, say); the class keeps `totalCount` as an integer.
- The page has no `data.contacts` probe and no empty-list fallback for an object envelope: `.map` on it throws (`Normalize.EnvelopeShapes`).
- Json.Show: the conversion of a non-empty array (its elements joined by commas) is defined by `Json.ShowElems` but no contract clause states it. The page only converts `firstName` and `lastName`, which the API sends as strings.
- Which page, search text and filters each started refresh reads is not recorded. Only the number of refreshes is kept.
