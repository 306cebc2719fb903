# Claritel agent dashboard, modelled in Dafny

The Claritel agent dashboard is a React/Redux front end for managing companies, their voice
assistants and outbound call campaigns. This project models the parts of it that are
deterministic once HTTP, authentication and rendering are set aside.

- **Contact import** of the campaign page (`CsvContacts`). A naive CSV reader splits on `\n` and
  `,`, deletes every `"` and normalizes the header names. Rows can be edited and deleted, the
  preview is paged, and guards sit in front of the bulk-call request. This reader does not follow
  the quoting rules of section 2 of RFC 4180, and neither does the model.
- **The three-step wizard** that creates an assistant (`AssistantWizard`): the language toggle,
  the step / completed-steps machine, the draft database and column editor with its slug rule,
  and the payload posted after step 2.
- **The Redux slices.** `EntitySlice` holds the entity-list transitions that the `Assistants` and
  `Companies` slices share. `Campaigns` has its own flags. `Assistants` and `Companies` also
  hold the selectors.
- **The assistant thunks** (`AssistantRequests`): the base URL fallback, the multipart encoding
  of `objectToFormData`, the fetch URL and its query string, the authorization header, the
  rejection message, and the requests each thunk makes. The outcome of each HTTP exchange is a
  parameter.
- **The pages:**
  - `CompanyAssistantsPage`: company-id matching, the company-name fallback and the date
    fallback.
  - `CompaniesPage`: the search filter, the create / edit / delete guards and the edit modal.
  - `AssistantsPage`: the search-and-status filter, the badge labels and the row menu.
  - `Dropdown`: the row-menu toggle that both list pages share.
  - `AdminDashboard`: the initial fetch, the avatar letter and colour, the five-row preview and
    the phone badge.
  - `Sidebar`: the active-path rule and the Home section.
  - `UserRole`: the user's role.

Support modules:

- `Wrappers`: `Option`, `Result`, and `Lookup` (found, or missing as `null` / `undefined`).
- `Text`: ASCII string operations.
- `Seqs`: filter, find, replace-first, remove-at.
- `JsValues`: JavaScript values with truthiness, `String()` and `?.` property reads.

Where the design description and the code disagree, the model follows the code. This includes `objectToFormData`: the request builders encode a `File` value as the code does, and the intended encoding is kept beside them (see Findings).

- **Slug rule.** The design describes the derived `name` of a database or column as stripped
  of every character outside `[a-z0-9_]`. The code only lower-cases and turns whitespace runs
  into `_`, without trimming. So `AssistantWizard.Slug` keeps punctuation, and a leading blank
  becomes `_` (`SlugKeepsLeadingBlank`).
- **Column rules.** The design also promises that adding a column rejects duplicate names and
  forces the first column to be the primary key. The code does neither. `AddColumn` accepts
  duplicates and any number of primary keys.

## Model

| member | source | states |
|---|---|---|
| CsvContacts.NormalizeFieldName | src/pages/CreateCampaign.jsx:66-67 | a normalized name holds no whitespace and no upper-case letter, is never longer than its input, and a name already in that form is returned as is |
| CsvContacts.NormalizeIdempotent | src/pages/CreateCampaign.jsx:66-67 | normalizing twice gives the same name as normalizing once |
| CsvContacts.NormalizeRun | src/pages/CreateCampaign.jsx:66-67 | a whitespace run between two blank-free pieces becomes exactly one `_`, with both pieces lower-cased |
| CsvContacts.CleanCell | src/pages/CreateCampaign.jsx:94 | a cleaned cell contains no `"` and is no longer than the raw cell |
| CsvContacts.HeaderName | src/pages/CreateCampaign.jsx:77 | a header name has no `"`, no whitespace and no upper case |
| CsvContacts.Lines | src/pages/CreateCampaign.jsx:70 | splitting the trimmed file always yields at least one line: one more than its newlines |
| CsvContacts.LineValues | src/pages/CreateCampaign.jsx:94 | a data line yields one value per comma plus one, and no value keeps a `"` or a `,` |
| CsvContacts.HeaderRow | src/pages/CreateCampaign.jsx:75-77 | there is one header per comma of the first line plus one, each free of quotes, whitespace and upper case |
| CsvContacts.ParseCsvHeaders | src/pages/CreateCampaign.jsx:69-78 | header parsing always succeeds: the "CSV file is empty." branch cannot be reached; it gives the header count and the header shape |
| CsvContacts.EmptyContentHeaders | src/pages/CreateCampaign.jsx:70-77 | an empty file has exactly one header, the empty name |
| CsvContacts.CellAt | src/pages/CreateCampaign.jsx:97 | a value beyond the end of the line reads as `""`; a present value is taken as is |
| CsvContacts.BuildRow | src/pages/CreateCampaign.jsx:95-98 | a row has exactly the header names as keys, and a repeated header holds the value of its rightmost column |
| CsvContacts.BuildRowStep | src/pages/CreateCampaign.jsx:96-98 | one assignment of the `forEach` keeps both row properties for the longer header list |
| CsvContacts.ParseCsvContent | src/pages/CreateCampaign.jsx:80-103 | there is one row per line after the first, in file order; row `i` is keyed by the header row and holds the cleaned values of line `i + 1`, rightmost column winning |
| CsvContacts.DataRows | src/pages/CreateCampaign.jsx:93-100 | each data line becomes one row built against the same headers, in order |
| CsvContacts.RowsKeyedByHeaders | src/pages/CreateCampaign.jsx:87-98 | every row's key set is exactly the header list that header parsing reports |
| CsvContacts.ShortLineValue | src/pages/CreateCampaign.jsx:97 | a column past the last comma of a short line reads as `""` |
| CsvContacts.DeleteContact | src/pages/CreateCampaign.jsx:190-191 | exactly row `i` is removed (as a multiset) and the others keep their order; an index outside the list changes nothing |
| CsvContacts.EditContact | src/pages/CreateCampaign.jsx:170-176 | only `field` of row `i` changes (or is added); every other field and row is untouched |
| CsvContacts.PreviewRows | src/pages/CreateCampaign.jsx:705 | the preview is the first `min(limit, n)` rows |
| CsvContacts.ShowMoreVisible | src/pages/CreateCampaign.jsx:780 | "Show 10 more" appears exactly when the preview leaves a row out |
| CsvContacts.ShowingAllVisible | src/pages/CreateCampaign.jsx:790 | the "Showing all" note appears only when every row is rendered |
| CsvContacts.ShowMoreReveals | src/pages/CreateCampaign.jsx:155-157 | "Show 10 more" reveals up to ten further rows and keeps the rows already shown as a prefix |
| CsvContacts.BulkCall | src/pages/CreateCampaign.jsx:320-384 | the four guards run in order, each with its own message; a dispatch happens exactly when all four pass and sends the rows, the trimmed name and description, the assistant, the execution mode, the call delay and the token; the template is sent trimmed, and left out exactly when it is blank |
| CsvContacts.ReadyMakesLaterGuardsRedundant | src/pages/CreateCampaign.jsx:880-885 | with the readiness the page computes, a dispatch happens exactly when the page is ready and some row was imported, so the assistant and token guards never fire |
| CsvContacts.InitiatedMessage | src/pages/CreateCampaign.jsx:386-391 | the singular "Call initiated" message is shown exactly for one contact, and the plural "Bulk calls initiated" message for every other count |
| AssistantWizard.ToggleLanguage | src/pages/CreateAssistant.jsx:48-55 | a selected language is removed with every copy while all other languages stay; an unselected one is appended at the end |
| AssistantWizard.ToggleTwiceRestores | src/pages/CreateAssistant.jsx:48-55 | selecting an unselected language and deselecting it again restores the list |
| AssistantWizard.ToggleOffKeepsOrder | src/pages/CreateAssistant.jsx:50-51 | deselecting keeps the remaining languages in their order |
| AssistantWizard.LanguageFieldRoundTrip | src/pages/CreateAssistant.jsx:72 | the comma-joined `language` field splits back into exactly the selected languages when at least one is selected; an empty selection is sent as `""`, which splits back into one empty language |
| AssistantWizard.AvailableLanguagesHaveNoComma | src/pages/CreateAssistant.jsx:108-115 | no offered language contains a comma, so every non-empty selection round-trips |
| AssistantWizard.Slug | src/pages/CreateAssistant.jsx:473 | a slug has no whitespace and no upper case, is no longer than its input, and leaves an already-slugged name alone |
| AssistantWizard.SlugKeepsLeadingBlank | src/pages/CreateAssistant.jsx:473 | a leading blank is not trimmed: the slug starts with `_` |
| AssistantWizard.AddNewDatabase | src/pages/CreateAssistant.jsx:455-463 | the draft is emptied and the add form opened; the saved databases and the column form are untouched |
| AssistantWizard.SaveDatabase | src/pages/CreateAssistant.jsx:465-488 | an alert is raised exactly when the display name is blank, and then nothing changes; otherwise exactly one database is appended under the slug of its display name, and the step-2 editor is remounted: the draft, the add form and the column form all return to their defaults |
| AssistantWizard.SavedNamesAreSlugs | src/pages/CreateAssistant.jsx:471-475 | a saved database's name has no whitespace and no upper case, and its display name is not blank |
| AssistantWizard.AddColumn | src/pages/CreateAssistant.jsx:490-514 | an alert is raised exactly when the name or display name is blank; otherwise exactly one column is appended with its name slugged and other fields copied, and the column form returns to its defaults |
| AssistantWizard.DeleteColumn | src/pages/CreateAssistant.jsx:516-521 | exactly column `i` leaves the draft, the rest keep their order; an index outside the list changes nothing |
| AssistantWizard.DeleteDatabase | src/pages/CreateAssistant.jsx:523-528 | exactly database `i` is removed, the rest keep their order and every other copy is kept; an index outside the list removes nothing; either way the step-2 editor is remounted with its draft and column form reset |
| AssistantWizard.CreatePayload | src/pages/CreateAssistant.jsx:67-80 | the posted object has twelve fields: the comma-joined languages, every saved database, `""` and `null` for the never-set data source and file, and the token |
| AssistantWizard.NextStepRequest | src/pages/CreateAssistant.jsx:59-82 | the create request is dispatched only when leaving step 2 with a token |
| AssistantWizard.NextStep | src/pages/CreateAssistant.jsx:58-96 | step 1 moves to 2 and records 1 only when its form submits (name and description filled, the URL empty or accepted), and otherwise changes nothing; step 2 moves to 3 and records 2 only when the create was fulfilled, and otherwise changes nothing; step 3 stays put |
| AssistantWizard.DeleteUndoesSave | src/pages/CreateAssistant.jsx:465-528 | deleting a database just saved gives back the earlier list in a freshly mounted editor |
| AssistantWizard.PreviousStep | src/pages/CreateAssistant.jsx:98-102 | the wizard goes back one step only above step 1 and never touches the completed steps |
| AssistantWizard.InitialValid | src/pages/CreateAssistant.jsx:21-22 | the wizard starts on step 1 with nothing completed |
| AssistantWizard.ApplyKeepsValid | src/pages/CreateAssistant.jsx:58-102 | each press keeps the step in 1..3, records only steps 1 and 2, and reaches step 2 only after 1 and step 3 only after 2 |
| AssistantWizard.RunKeepsValid | src/pages/CreateAssistant.jsx:58-102 | any sequence of presses keeps those properties |
| AssistantWizard.ReachableStepInRange | src/pages/CreateAssistant.jsx:58-102 | every wizard reachable from the start is on step 1, 2 or 3 |
| EntitySlice.OnReset | src/redux/assistants/assistantsSlice.js:22-24 | resetting clears only the error |
| EntitySlice.OnClear | src/redux/assistants/assistantsSlice.js:25-27 | clearing empties only the list |
| EntitySlice.OnPending | src/redux/assistants/assistantsSlice.js:32-35 | a pending request sets loading, clears the error and leaves the list alone |
| EntitySlice.OnRejected | src/redux/assistants/assistantsSlice.js:40-43 | a rejection clears loading, keeps the list, and sets the error to the payload or, when that is missing or empty, the operation's default |
| EntitySlice.OnFetched | src/redux/assistants/assistantsSlice.js:36-39 | a fulfilled fetch replaces the list wholesale, clears loading and keeps the error |
| EntitySlice.OnCreated | src/redux/assistants/assistantsSlice.js:50-53 | a fulfilled create appends the entity at the end: the length grows by one and the old list is a prefix |
| EntitySlice.OnUpdated | src/redux/assistants/assistantsSlice.js:64-70 | a fulfilled update replaces only the first entity with the payload's id; with no match the list is unchanged, the length and every id are kept |
| EntitySlice.OnDeleted | src/redux/assistants/assistantsSlice.js:81-85 | a fulfilled delete removes every entity with the id and keeps all others in order, each with as many copies as before |
| EntitySlice.Reduce | src/redux/assistants/assistantsSlice.js:29-89 | loading is set by exactly the pending cases and cleared by every settled case; only rejections set an error, and pending, rejected and reset never touch the list |
| EntitySlice.DeleteUndoesCreate | src/redux/assistants/assistantsSlice.js:50-85 | deleting the id of a just-created entity whose id was new restores the list |
| EntitySlice.UpdateIdempotent | src/redux/assistants/assistantsSlice.js:64-70 | applying the same update twice equals applying it once |
| Assistants.SetPhoneNumber | src/redux/assistants/assistantsSlice.js:92-104 | only the first assistant with the id gets the new `default_phone`; other entries, loading and error are untouched |
| Assistants.SetPhoneNumberKeepsIds | src/redux/assistants/assistantsSlice.js:99-102 | apart from `default_phone`, every field of every assistant is kept |
| Assistants.Reduce | src/redux/assistants/assistantsSlice.js:18-105 | the shared transitions use the assistants' messages: a rejection keeps the list, ends loading and stores the payload or that operation's default; the phone update gives only the first assistant with the id the new `default_phone`, keeps every other entry, the flags and the length, and changes nothing when no assistant has the id |
| Assistants.RejectedWithoutPayload | src/redux/assistants/assistantsSlice.js:40-89 | a rejection without a message reports its own operation's default and keeps the list |
| Assistants.SelectStats | src/redux/assistants/assistantsSelectors.js:29-42 | `total` is the list length, `active` counts truthy `is_active`, and `active + inactive = total` with both at least zero |
| Assistants.StatsAfterCreate | src/redux/assistants/assistantsSelectors.js:32-34 | a created assistant adds one to `total` and one to `active` or to `inactive`, by its flag |
| Assistants.SelectById | src/redux/assistants/assistantsSelectors.js:23-26 | the result is the first assistant with an equal id, or `null` exactly when none carries it |
| Assistants.UpdateThenSelect | src/redux/assistants/assistantsSlice.js:64-70 | after an update of a stored id, selecting that id finds the payload |
| Assistants.DeleteThenSelect | src/redux/assistants/assistantsSlice.js:81-85 | after a delete, selecting that id gives `null` |
| Companies.Reduce | src/redux/companies/companiesSlice.js:15-87 | pending sets loading and clears the error; rejected gives the payload or the companies' default; fetch replaces, create appends, update replaces only the first company with the id and keeps every other position, delete drops every copy of the id and keeps every copy of the others in order, and reset and clear touch one field each |
| Companies.SelectById | src/redux/companies/companiesSelectors.js:22-25 | the result is the first company with an equal id, a member of the list, or `undefined` (not `null`) exactly when none carries it |
| Companies.CreateThenSelect | src/redux/companies/companiesSlice.js:47-50 | a created company with a new id is then found by that id |
| Campaigns.Reduce | src/redux/campaigns/campaignsSlice.js:11-41 | reset gives exactly the initial state; pending sets loading and clears error and success, keeping the last campaign; fulfilled records the campaign and success without touching the error; rejected gives the payload or the default message |
| Campaigns.ReduceNeverLoadingAndSuccess | src/redux/campaigns/campaignsSlice.js:15-39 | after any action the state is never loading and successful at once |
| Campaigns.RunNeverLoadingAndSuccess | src/redux/campaigns/campaignsSlice.js:4-39 | from any state that is not loading and successful at once, including the initial one, no action sequence reaches `loading && success` |
| Campaigns.LastCampaignChangesOnlyOnFulfilledOrReset | src/redux/campaigns/campaignsSlice.js:15-39 | the last campaign changes only on a fulfilled request or a reset |
| Campaigns.RunLastCampaign | src/redux/campaigns/campaignsSlice.js:15-39 | after any sequence the last campaign is the original, `null`, or the payload of some fulfilled action |
| AssistantRequests.GetBaseUrl | src/redux/assistants/assistantsActions.js:5-14 | the base URL is `VITE_BASE_URL`, else `VITE_API_BASE_URL`, else the local server; it is never empty |
| AssistantRequests.EncodeValue | src/redux/assistants/assistantsActions.js:29-35 | a value is JSON-encoded exactly when it is a truthy `spreadsheet_metadata`, an array or a plain object; everything else, a file included, is sent as `String(value)` |
| AssistantRequests.FileBecomesText | src/redux/assistants/assistantsActions.js:31-34 | a `File` value is sent as the text `[object File]` |
| AssistantRequests.EncodeValueIntended | src/redux/assistants/assistantsActions.js:31-32 | a `File` value is attached as a file; every other value is encoded as before |
| AssistantRequests.ObjectToFormData | src/redux/assistants/assistantsActions.js:21-39 | one field per entry whose value is neither `undefined` nor `null`, so a list without such values loses no entry; no field is sent as a file |
| AssistantRequests.ObjectToFormDataIsFilterMap | src/redux/assistants/assistantsActions.js:24-36 | the fields are the kept entries encoded in entry order |
| AssistantRequests.ObjectToFormDataIntended | src/redux/assistants/assistantsActions.js:21-39 | the intended encoding drops the same entries |
| AssistantRequests.IntendedAttachesFile | src/redux/assistants/assistantsActions.js:31-34 | on a file field, the two encodings differ: attachment versus `[object File]` |
| AssistantRequests.EncodingsAgreeWithoutFiles | src/redux/assistants/assistantsActions.js:29-35 | without file values the two encodings give the same fields |
| AssistantRequests.FormEncode | src/redux/assistants/assistantsActions.js:50 | an encoded query value contains no `&`, `=`, `#` or space, and unreserved text passes unchanged |
| AssistantRequests.FetchUrl | src/redux/assistants/assistantsActions.js:48-52 | the URL is base + `/api/assistants`, with a `company_id` query exactly when the company id is truthy |
| AssistantRequests.FetchUrlSingleParameter | src/redux/assistants/assistantsActions.js:49-51 | the query carries a single parameter whatever the company id holds |
| AssistantRequests.FetchAuthorization | src/redux/assistants/assistantsActions.js:56 | the bearer is the given token when truthy, else `org_test_token` |
| AssistantRequests.RejectionMessage | src/redux/assistants/assistantsActions.js:62-65 | the rejection message is the server's message, else the error's, else "An unknown error occurred", and never empty |
| AssistantRequests.SettleWithBody | src/redux/assistants/assistantsActions.js:54-67 | a thunk fulfils with the response body or rejects with the rejection message |
| AssistantRequests.FetchAssistantsRequest | src/redux/assistants/assistantsActions.js:44-58 | the fetch is a GET of the fetch URL with the fetch header |
| AssistantRequests.FetchAssistantsCall | src/redux/assistants/assistantsActions.js:44 | token and company id come from the argument's fields; a non-object argument contributes neither |
| AssistantRequests.StripFields | src/redux/assistants/assistantsActions.js:78 | the multipart fields are exactly the entries not named `token` or `databases` |
| AssistantRequests.CreateAssistantRequest | src/redux/assistants/assistantsActions.js:76-87 | the create is a multipart POST, with the fixed test token, of the stripped fields encoded by `objectToFormData` as written |
| AssistantRequests.TablesRequest | src/redux/assistants/assistantsActions.js:90-99 | the follow-up posts the `databases` value as JSON to the created assistant's tables URL |
| AssistantRequests.CreateAgreesWithIntended | src/redux/assistants/assistantsActions.js:78-80 | when no field holds a file, the create request's fields are those of the intended encoding |
| AssistantRequests.CreateAssistantRequests | src/redux/assistants/assistantsActions.js:82-102 | the create post comes first; the tables request follows exactly when the create post succeeded with a body that is neither `null` nor `undefined`, since reading `id` of such a body throws first |
| AssistantRequests.CreateAssistantOutcome | src/redux/assistants/assistantsActions.js:89-110 | the thunk settles as the create post did, whatever the tables request met |
| AssistantRequests.CreateFieldsOmitTokenAndDatabases | src/redux/assistants/assistantsActions.js:78-80 | no multipart field is named `token` or `databases` |
| AssistantRequests.WizardEntriesArePlain | src/pages/CreateAssistant.jsx:67-80 | apart from `databases` and `token`, the wizard's payload holds no file, array or object, and its `uploadedFile` is `null` |
| AssistantRequests.WizardRequestIsPlainText | src/pages/CreateAssistant.jsx:67-82 | every field the wizard's create request sends is text, and none is `uploadedFile` |
| AssistantRequests.UpdateAssistantRequest | src/redux/assistants/assistantsActions.js:118-140 | the update PUTs a ready form as is, or an object encoded by `objectToFormData` as written, to the assistant's URL |
| AssistantRequests.UpdateAgreesWithIntended | src/redux/assistants/assistantsActions.js:125-129 | when no field holds a file, the encoded update body is that of the intended encoding |
| AssistantRequests.DeleteAssistantRequest | src/redux/assistants/assistantsActions.js:156-164 | the delete targets the assistant's URL with the fixed test token and no body |
| AssistantRequests.DeleteAssistantOutcome | src/redux/assistants/assistantsActions.js:166-174 | a successful delete fulfils with exactly the id it was given, whatever the response |
| AssistantRequests.RejectionReachesSlice | src/redux/assistants/assistantsActions.js:105-110 | a rejected thunk leaves the assistants list untouched, clears loading and stores exactly the rejection message |
| AssistantRequests.AfterDelete | src/redux/assistants/assistantsActions.js:154-176 | after a successful delete the id is gone from the store and every other assistant stays; after a failed one the list is kept and the error is the rejection message; loading ends either way |
| Dropdown.Toggle | src/pages/CompaniesPage.jsx:86-88 | the menu closes exactly when the open id is toggled; otherwise that id's menu opens |
| Dropdown.ToggleTwice | src/pages/CompaniesPage.jsx:86-88 | toggling the same id twice from closed returns to closed |
| Dropdown.ToggleSwitches | src/pages/AssistantsPage.jsx:136-138 | toggling another row moves the menu to that row |
| Dropdown.ClickOutside | src/pages/CompaniesPage.jsx:167-172 | a click outside closes a menu whose id is truthy; a menu of a falsy id stays open |
| CompanyAssistantsPage.BelongsToIff | src/pages/CompanyAssistantsPage.jsx:53-63 | an assistant belongs exactly when one of its non-nullish id candidates prints as the route id |
| CompanyAssistantsPage.MissingIdNeverMatches | src/pages/CompanyAssistantsPage.jsx:59 | an assistant with no company id belongs to no company, even for the route id `undefined` |
| CompanyAssistantsPage.CompanyAssistants | src/pages/CompanyAssistantsPage.jsx:53-63 | the list shows exactly the belonging assistants, as a subsequence of the store, each with as many copies as in the store |
| CompanyAssistantsPage.FillCompanyName | src/pages/CompanyAssistantsPage.jsx:65-74 | an empty name with a match becomes the first match's `company_name`, else `company.name`; otherwise the name is kept |
| CompanyAssistantsPage.FillCompanyNameSettles | src/pages/CompanyAssistantsPage.jsx:65-74 | re-running the effect after it set the name changes nothing |
| CompanyAssistantsPage.NavigationNameKept | src/pages/CompanyAssistantsPage.jsx:66 | a name passed in with the navigation is never replaced |
| CompanyAssistantsPage.FormatDate | src/pages/CompanyAssistantsPage.jsx:27-36 | a missing or empty date, or one the runtime cannot render, shows `N/A`; any other date shows the runtime's rendering |
| CompaniesPage.FilteredCompanies | src/pages/CompaniesPage.jsx:80-84 | the shown companies are exactly those whose lower-cased name or url contains the lower-cased term, in store order and with every copy kept; the sort choice plays no part |
| CompaniesPage.EmptySearchKeepsAll | src/pages/CompaniesPage.jsx:80-84 | an empty search shows every company in store order |
| CompaniesPage.SubmitCreate | src/pages/CompaniesPage.jsx:90-114 | a create is dispatched exactly when name and url are filled and the browser accepts the `type="url"` field; a blocked submit or a failure changes nothing, and success empties the form and closes the modal |
| CompaniesPage.SubmitEdit | src/pages/CompaniesPage.jsx:116-134 | an update is dispatched exactly when both fields are filled, the browser accepts the url, and a company is being edited; a blocked submit changes nothing, and success closes and forgets the editor |
| CompaniesPage.SubmitDelete | src/pages/CompaniesPage.jsx:136-146 | a declined confirmation does nothing; a confirmed delete is dispatched and the menu closes |
| CompaniesPage.ToggleMenu | src/pages/CompaniesPage.jsx:86-88 | the toggle changes only the open menu |
| CompaniesPage.OpenEditModal | src/pages/CompaniesPage.jsx:148-156 | the form takes the company's name and url, the company is remembered, the modal opens and the menu closes |
| CompaniesPage.EditAfterOpen | src/pages/CompaniesPage.jsx:116-156 | opening the editor and submitting unchanged dispatches an update of that company with its own fields exactly when the browser accepts its stored url; otherwise nothing happens |
| CompaniesPage.IncompleteEditDispatchesNothing | src/pages/CompaniesPage.jsx:118 | a company with an empty name or url can be opened but not submitted unchanged |
| AssistantsPage.FilteredAssistants | src/pages/AssistantsPage.jsx:85-90 | an assistant is shown exactly when the term occurs case-insensitively in its name or description and the status filter is `all` or its status; order and copies are kept |
| AssistantsPage.AllAndEmptyKeepsAll | src/pages/AssistantsPage.jsx:85-90 | with `all` and an empty term every assistant is shown in order |
| AssistantsPage.StatusFilterExact | src/pages/AssistantsPage.jsx:88 | a status other than `all` shows only assistants in that status |
| AssistantsPage.SpecializationLabel | src/pages/AssistantsPage.jsx:121-131 | a known specialization gets its label, an unknown one `General` |
| AssistantsPage.SpecializationColor | src/pages/AssistantsPage.jsx:113-130 | a known specialization gets its colour, an unknown one the general colour |
| AssistantsPage.SamplesHaveLabels | src/pages/AssistantsPage.jsx:30-83 | every sample assistant's specialization has its own label and colour |
| AssistantsPage.MenuAfter | src/pages/AssistantsPage.jsx:136-153 | the toggle opens or closes the row's menu, and edit, delete and service always close it |
| AssistantsPage.OpenThenActClosed | src/pages/AssistantsPage.jsx:136-153 | opening a row's menu and choosing any action leaves no menu open |
| AdminDashboard.DashboardFetchAsWritten | src/pages/AdminDashboard.jsx:46-49 | once the effect passes its first-load guard, the dashboard fetches exactly when the token is truthy, passing the bare token as the thunk's argument |
| AdminDashboard.DashboardTokenIgnored | src/pages/AdminDashboard.jsx:48 | as written, the request carries the test token, not the user's |
| AdminDashboard.DashboardFetch | src/pages/AdminDashboard.jsx:46-49 | the intended fetch passes `{ token }` |
| AdminDashboard.DashboardFetchSendsToken | src/pages/AdminDashboard.jsx:48 | the intended fetch sends the user's token, with no company filter |
| AdminDashboard.FirstLetter | src/pages/AdminDashboard.jsx:62-64 | the avatar letter is `?` for a missing or empty name, else the first character upper-cased |
| AdminDashboard.CharCode | src/pages/AdminDashboard.jsx:71 | the first UTF-16 unit is the character itself inside the Basic Multilingual Plane, else its high surrogate |
| AdminDashboard.Color | src/pages/AdminDashboard.jsx:67-73 | the colour is always a palette entry: `blue` for a missing or empty name, else the entry at the first code unit mod 7 |
| AdminDashboard.SameInitialSameAvatar | src/pages/AdminDashboard.jsx:62-73 | names with the same first character get the same letter and colour |
| AdminDashboard.ColorCycles | src/pages/AdminDashboard.jsx:71-72 | initials seven code points apart share a colour |
| AdminDashboard.Preview | src/pages/AdminDashboard.jsx:191 | at most the first five assistants are rendered, in order |
| AdminDashboard.ViewAllIffTruncated | src/pages/AdminDashboard.jsx:279 | "View All" appears exactly when the preview leaves an assistant out |
| AdminDashboard.PhoneBadgeAfterUpdate | src/pages/AdminDashboard.jsx:193-195 | an assistant given a non-empty phone number by the phone update shows the phone badge |
| AdminDashboard.NoNumberNoBadge | src/pages/AdminDashboard.jsx:193-195 | without a `phone_number` the badge is absent |
| Sidebar.IsActiveIff | src/components/Sidebar.jsx:79-83 | an item is active exactly when the path is its path or its path followed by `/` and anything |
| Sidebar.SiblingNotActive | src/components/Sidebar.jsx:81 | a sibling path such as `/dashboardx` does not activate `/dashboard` |
| Sidebar.ActiveTogether | src/components/Sidebar.jsx:79-83 | when two paths are both active, the shorter begins the longer, followed by `/` |
| Sidebar.AtMostOneActive | src/components/Sidebar.jsx:79-83 | two different single-segment paths are never active together |
| Sidebar.NavigationItemsDistinct | src/components/Sidebar.jsx:20-77 | the items' ids and paths are pairwise distinct and every path is one segment |
| Sidebar.AtMostOneItemActive | src/components/Sidebar.jsx:20-83 | whatever the current path, at most one item is highlighted |
| Sidebar.Section | src/components/Sidebar.jsx:146-148 | a section lists exactly its items in declaration order, each as often as it is declared |
| Sidebar.HomeSection | src/components/Sidebar.jsx:146-150 | the Home section is Dashboard then Companies |
| UserRole.Role | src/hooks/useUserRole.js:7-10 | the role is the public role if truthy, else the unsafe role if truthy, else `user`; it is never falsy |
| UserRole.NeverBoth | src/hooks/useUserRole.js:14-15 | no user is both an admin and a plain user |
| UserRole.NoMetadataIsUser | src/hooks/useUserRole.js:7-15 | without role metadata, or before sign-in loads, the user is a plain user and not an admin |
| UserRole.PublicAdminWins | src/hooks/useUserRole.js:7-14 | a public `admin` role wins whatever the unsafe metadata says |
| UserRole.UnsafeRoleFallback | src/hooks/useUserRole.js:7-14 | the unsafe metadata decides admin status only when the public role is falsy |

## Left out

- Network and authentication: axios, Clerk's `getToken` / `useUser`, thunk dispatch timing and the `useEffect` fetch ordering are left out. Each HTTP exchange's outcome and each token is a parameter; so is whether sign-in has loaded.
- The thin company and campaign request modules (`companiesActions.js`, `campaignsActions.js`) are not part of this model. They add nothing beyond the rejection-message fallback that `AssistantRequests.RejectionMessage` models. `store.js` is configuration only, and it does not register the campaigns reducer.
- The slices' projection selectors (`selectAllAssistants`, `selectAssistantsLoading`, `selectAssistantsError` and the company ones) only read a field of the state. The model reads the fields directly.
- Browser APIs are left out: the template cache in `localStorage`, the sample-file download, drag-and-drop, file reading and the outside-click listener's DOM test. For the listener, only whether the click landed inside a menu is a parameter.
- Floating-point display arithmetic is left out: chart heights and the wizard's progress width.
- Date parsing and locale formatting are left out: `toIsoOrNull`, `toLocaleDateString`, and `parseInt` of the call delay. `CompanyAssistantsPage.FormatDate` takes the runtime's rendering as a parameter.
- `JSON.stringify` is not modelled: a JSON field carries the value itself.
- `Object.entries` lists integer-like keys first. The model keeps the entries in the order given.
- Text is ASCII-only. Case mapping (`toLowerCase`, `toUpperCase`) and the whitespace class `\s` cover ASCII characters only. Other characters are left as they are, and strings are sequences of Unicode scalar values (no lone surrogates).
- `CsvContacts.EditContact`: requires an index of an existing row. The page only offers indices of rendered rows. In JavaScript, an index beyond the list would create a new, sparse entry.
- `AssistantWizard`: step 2's `activeDatabase` is only ever set to `null`, so it is omitted. The form's `services` and `phone_number` are never edited or sent, so they are omitted too.
- `AssistantsPage.SpecializationLabel`: a key such as `constructor` would find an inherited property of the labels object in JavaScript. The model treats every key outside the five labels as unknown.
- `AssistantsPage.SpecializationColor`: the same holds for the colours object; a key such as `constructor` is treated as unknown and gets the general colour.
- `CsvContacts.BuildRow`: in JavaScript, assigning `rowData["__proto__"]` (CreateCampaign.jsx:97) sets the row's prototype and creates no own key. The model keys the row by every header, that one included.
- `JsValues`: a JavaScript number is modelled as an integer. `NaN`, infinities and fractional numbers are not represented.
- `AssistantWizard.NextStep`: whether the browser accepts the text of the `type="url"` field is a parameter. URL syntax is not modelled.
- `CompaniesPage.SubmitCreate`, `CompaniesPage.SubmitEdit`, `CompaniesPage.EditAfterOpen`: the same holds for the company forms' `type="url"` field (CompaniesPage.jsx:396-402 and 450-456). The browser's verdict is the parameter `urlAccepted`.
- `AdminDashboard.DashboardFetchAsWritten`: the effect's first-load guard (`!hasFetched && assistants.length === 0`, AdminDashboard.jsx:43) and its re-run timing belong to React's effect scheduling and are not modelled. The member models the effect's body past that guard.
- `AssistantsPage`: the status icons and badges are rendering only, and are left out.
- `AdminDashboard.FirstLetter`: ASCII upper-casing only. In JavaScript, a character whose upper case is several characters (such as `ß`) would give a longer letter.
- `CompaniesPage`: a company whose `name` or `url` is not a string makes the JavaScript filter throw. The model types both fields as strings.
- The schema rules the design describes are not implemented in the code: primary-key promotion on delete, rejection of duplicate column names, and column editing for a persisted table. The model does not add them.
- The other sidebar sections (Assistants, Pages) are commented out in the code. Only the Home section is modelled as rendered.

## Findings

| source | as written | input that shows it | evidently intended | confidence | as-written member | corrected member |
|---|---|---|---|---|---|---|
| src/redux/assistants/assistantsActions.js:31-34 | a `File` value fails the object branch (`!(value instanceof File)`) and falls to `String(value)` | any field whose value is a `File`, such as `uploadedFile` on an update | the file itself is appended to the form, which is why files are excluded from JSON encoding | high, not executed | AssistantRequests.EncodeValue (shown by AssistantRequests.FileBecomesText and AssistantRequests.IntendedAttachesFile) | AssistantRequests.EncodeValueIntended (AssistantRequests.ObjectToFormDataIntended; AssistantRequests.EncodingsAgreeWithoutFiles, AssistantRequests.CreateAgreesWithIntended and AssistantRequests.UpdateAgreesWithIntended show the fix changes nothing when no value is a file) |
| src/pages/AdminDashboard.jsx:48 | `fetchAssistants(token)` passes the token string where the thunk destructures `{ token, companyId }` | any non-empty token `t`: the request carries `Bearer org_test_token` instead of `Bearer t` | `fetchAssistants({ token })`, as the company page does | high, not executed | AdminDashboard.DashboardFetchAsWritten (shown by AdminDashboard.DashboardTokenIgnored) | AdminDashboard.DashboardFetch (AdminDashboard.DashboardFetchSendsToken) |
