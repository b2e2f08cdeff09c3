# Admin client state model

A Dafny model of the state logic inside the React admin client for the
investor directory. The markup is left aside. Each page component becomes a
Dafny class whose fields are the component's state slots. Each event handler
becomes a method that moves those fields from one state to the next. The
remote API is not modelled; each request is an input that says how it settled.

- **Investor forms.** Two forms share the form record and the list updates
  their handlers are built from (`investor_form.dfy`):
  - `create_investor_form.dfy` is the create page (`InvestorForm` in
    `CreateInvestorForm.jsx`).
  - `update_investor_form.dfy` is the edit page (`EditInvestorPage` in
    `UpdateInvestorForm.jsx`).
  - Portfolio-company entries are objects (class `Company`). Several handlers
    copy only the array that holds them and then assign to the shared entry
    in place.
  - An upload's second half works on state the handler captured when the
    upload started. On the create page a logo upload puts back the entry
    list it captured, so entries added or removed while it was in flight are
    lost; the other fields and in-place edits of the shared entries survive,
    and a profile-image upload loses nothing. On the edit page a logo upload
    puts back the whole captured form, so every edit made meanwhile to
    anything but the shared entries is lost.
- **Tables.** `investors_table.dfy` is the investor list: case-insensitive
  search and deletion guarded by typing the exact profile name.
  `users_table.dfy` is the user list: a search over every field and deletion
  through a confirmation dialog.
- **Session gate.** `session.dfy` covers the `PrivateRoute` token check, the
  router table's protected paths and the header's logout.
- **Fetch views.** `dashboard.dfy`, `investor_profile.dfy` and
  `user_details.dfy` each model the loading / error / data state machine and
  the order in which the page checks its states to decide what to render.
- **Shared modules.** `seqs.dfy` holds `filter`, toggle, remove-all and
  remove-at over sequences. `text.dfy` holds ASCII `toLowerCase` and
  `includes`. `wrappers.dfy` holds `Option`.

An async handler that sets a loading flag before it awaits is split in two:
- `Start…` covers the part before the request.
- `Finish…` covers the part after it settles, and takes the outcome as a
  parameter.

Every other handler is one atomic step.

## Model

| member | source | states |
|---|---|---|
| Session.Guard | src/components/PrivateRoute.jsx:4-14 | the element is rendered unchanged exactly when `authToken` is stored and non-empty; otherwise it is a replacing redirect to "/" |
| Session.GuardRejectsMissingOrEmptyToken | src/components/PrivateRoute.jsx:5-10 | an absent key and an empty token both redirect to "/" with replace |
| Session.GuardDependsOnlyOnToken | src/components/PrivateRoute.jsx:5-13 | two stores that agree on whether the token is truthy get the same decision (no expiry or format check) |
| Session.TrimTrailingSlashes | src/App.jsx:17-79 | the path loses exactly its trailing slashes (a lone "/" is kept), leaving no trailing slash |
| Session.RouteKeyIgnoresCaseAndTrailingSlash | src/App.jsx:17-79 | adding a trailing slash or lower-casing a path does not change the route it reaches |
| Session.Resolve | src/App.jsx:17-79 | compared without letter case and trailing slashes, "/" renders the login page, each protected route renders exactly when the token is truthy, and any other path matches no route |
| Session.InvestorPagesAreProtected | src/App.jsx:57-79 | the edit-page and profile-page links of any one-segment id, in any letter case, resolve to the guard |
| Session.RemoveToken | src/components/Header.jsx:9 | the key `authToken` is gone and every other key keeps its value |
| Session.HandleLogout | src/components/Header.jsx:7-13 | the store loses `authToken` and navigation goes to "/" |
| Session.LogoutIdempotent | src/components/Header.jsx:9 | logging out twice leaves the same store as once |
| Session.LogoutRedirectsEveryProtectedRoute | src/components/Header.jsx:9 | after logout every path that reaches a protected route, in any letter case and with any trailing slashes, redirects to "/" |
| Text.Lower | src/pages/InvestorsTable.jsx:70-73 | `toLowerCase` keeps the length, maps each character, and leaves no upper-case ASCII letter |
| Text.IncludesIff | src/pages/InvestorsTable.jsx:70-73 | `includes` holds exactly when the substring occurs at some offset |
| Seqs.FilterMembership | src/pages/InvestorsTable.jsx:68-74 | an element is in `s.filter(p)` exactly when it is in `s` and satisfies `p` |
| Seqs.FilterIsSubsequence | src/pages/InvestorsTable.jsx:68-74 | a filtered list keeps the list's order (it is a subsequence) |
| Seqs.FilterCommutes | src/pages/users/UsersTable.jsx:50-51 | two filters applied in either order give the same list |
| Seqs.ToggleSpec | src/pages/CreateInvestorForm.jsx:48-56 | a present value has every occurrence removed and the rest keep their counts and order; an absent value is appended once at the end |
| Seqs.ToggleKeepsNoDuplicates | src/pages/CreateInvestorForm.jsx:48-56 | a duplicate-free list stays duplicate-free |
| Seqs.ToggleTwiceRestores | src/pages/CreateInvestorForm.jsx:48-56 | toggling an absent value twice restores the list |
| Seqs.RemoveAllSpec | src/pages/CreateInvestorForm.jsx:215-229 | the value no longer occurs, every other value keeps its count, order is kept |
| Seqs.RemoveAllIdempotent | src/pages/CreateInvestorForm.jsx:215-229 | removing a value twice is removing it once |
| Seqs.RemoveAtSpec | src/pages/CreateInvestorForm.jsx:75-80 | an in-range index drops exactly that entry, keeping the others in order; an out-of-range index changes nothing |
| InvestorForm.Company.SetField | src/pages/UpdateInvestorForm.jsx:173-178 | writing one field of an entry object changes that field only |
| InvestorForm.NewCompanies | src/pages/UpdateInvestorForm.jsx:62-65 | one new, distinct entry object per value, with those values in order |
| InvestorForm.ToggleSelectionSpec | src/pages/CreateInvestorForm.jsx:48-56 | only the named list changes, and in it only the membership of the value flips |
| InvestorForm.RemoveSelectionSpec | src/pages/CreateInvestorForm.jsx:215-229 | for "businessModel" or "sectorInterested" the value leaves that list only, with other values' counts and order kept; any other type leaves the form unchanged |
| InvestorForm.RemoveSelectionIdempotent | src/pages/CreateInvestorForm.jsx:215-229 | removing a selection twice is removing it once |
| InvestorForm.ClassifyUpload | src/pages/CreateInvestorForm.jsx:179-197 | the URL is applied exactly when the body has a truthy status and a non-empty data list, and it is the first item's URL; a falsy status or missing data is a rejection; anything else is an error |
| CreateInvestor.CreateErrorMessage | src/pages/CreateInvestorForm.jsx:117-152 | no error exactly after a 200; the generic message exactly after another status; "Server error: " plus the server message exactly for a failure with a response; the network message exactly for one without a response; the unexpected-error message exactly otherwise |
| CreateInvestor.CreateInvestorForm.constructor | src/pages/CreateInvestorForm.jsx:14-46 | the blank form with image source "url", no loading, empty messages and previews |
| CreateInvestor.CreateInvestorForm.HandleCheckboxChange | src/pages/CreateInvestorForm.jsx:48-56 | the form becomes the toggled form; the loading, error, success and preview slots are unchanged |
| CreateInvestor.CreateInvestorForm.HandleImageSourceChange | src/pages/CreateInvestorForm.jsx:58-65 | the image source is set and the image cleared; nothing else changes |
| CreateInvestor.CreateInvestorForm.RemoveCompany | src/pages/CreateInvestorForm.jsx:75-80 | entry `index` is dropped and the others keep their order and values; an out-of-range index changes nothing |
| CreateInvestor.CreateInvestorForm.AddPortfolioCompany | src/pages/CreateInvestorForm.jsx:89-97 | one new blank entry with logo source "upload" is appended; existing entries and all other fields are untouched |
| CreateInvestor.CreateInvestorForm.HandleSubmit | src/pages/CreateInvestorForm.jsx:100-153 | a request is made exactly when name, website and description are non-empty, else the required-fields error is set; a 200 resets the form, sets success and clears the error; any other outcome sets the classified error and clears success; `loading` never changes |
| CreateInvestor.CreateInvestorForm.StartImageUpload | src/pages/CreateInvestorForm.jsx:156-173 | with no file nothing changes; otherwise the file's preview goes to the profile slot or the indexed logo slot and `loading` is set |
| CreateInvestor.CreateInvestorForm.FinishImageUpload | src/pages/CreateInvestorForm.jsx:174-201 | an applied URL sets `image` or the indexed entry's logo in the captured list, which replaces the current one, and reports success; a rejection or failure sets its error; every other path leaves the captured entries' values unchanged; `loading` ends false |
| CreateInvestor.CreateInvestorForm.HandleInputChange | src/pages/CreateInvestorForm.jsx:203-211 | one text field is written; typing the image while its source is "url" also sets the URL preview |
| CreateInvestor.CreateInvestorForm.HandleRemoveSelection | src/pages/CreateInvestorForm.jsx:215-229 | the form becomes the form with the selection removed; the slots and previews are unchanged |
| CreateInvestor.CreateInvestorForm.HandlePortfolioChange | src/pages/CreateInvestorForm.jsx:231-243 | one field of entry `index` changes in place and no other entry changes; a logo typed for a "url" entry also sets that index's URL preview |
| CreateInvestor.CreateInvestorForm.HandlePortfolioLogoSourceChange | src/pages/CreateInvestorForm.jsx:245-260 | the entry's logo source is set and its logo cleared, both previews at that index are cleared, and nothing else changes |
| UpdateInvestor.NormalizeCompanies | src/pages/UpdateInvestorForm.jsx:62-65 | each entry keeps its fields and gains logo type "url" exactly when it has a logo, "upload" otherwise |
| UpdateInvestor.NormalizeInvestorSpec | src/pages/UpdateInvestorForm.jsx:48-66 | there is a form exactly when the record has a portfolio list; each of the ten text fields keeps a present value and becomes "" when missing; each list keeps a present value and becomes [] when missing; image source is "url" exactly when the image is non-empty; each entry keeps its fields and its logo type follows its logo |
| UpdateInvestor.UpdateErrorMessage | src/pages/UpdateInvestorForm.jsx:101 | the server's non-empty message if there is one, else the fixed fallback; never empty |
| UpdateInvestor.UpdateInvestorForm.constructor | src/pages/UpdateInvestorForm.jsx:17-37 | the blank form, nothing loading, no messages |
| UpdateInvestor.UpdateInvestorForm.FinishFetch | src/pages/UpdateInvestorForm.jsx:41-71 | a record with a portfolio list replaces the form by its normalisation, using fresh entry objects; any failure sets "Failed to fetch investor data." and keeps the form |
| UpdateInvestor.UpdateInvestorForm.StartSubmit | src/pages/UpdateInvestorForm.jsx:79-88 | a request is made exactly when the required fields are non-empty; otherwise the required-fields error is set and `loading` is untouched; a request sets `loading` |
| UpdateInvestor.UpdateInvestorForm.FinishSubmit | src/pages/UpdateInvestorForm.jsx:87-104 | a 200 sets success and navigates to "/investors"; another status changes nothing; a failure sets the server message or the fallback; `loading` ends false |
| UpdateInvestor.UpdateInvestorForm.HandleInputChange | src/pages/UpdateInvestorForm.jsx:107-110 | one text field is written; nothing else changes |
| UpdateInvestor.UpdateInvestorForm.HandleCheckboxChange | src/pages/UpdateInvestorForm.jsx:113-121 | the same toggle as the create form, touching only the named list |
| UpdateInvestor.UpdateInvestorForm.HandleRemoveSelection | src/pages/UpdateInvestorForm.jsx:124-136 | the same removal as the create form, touching only the named list |
| UpdateInvestor.UpdateInvestorForm.ToggleLogoType | src/pages/UpdateInvestorForm.jsx:148-153 | entry `index` gets the logo type and an empty logo in place; no other entry changes |
| UpdateInvestor.UpdateInvestorForm.RemoveCompany | src/pages/UpdateInvestorForm.jsx:165-170 | entry `index` is dropped and the others keep their order; an out-of-range index changes nothing |
| UpdateInvestor.UpdateInvestorForm.HandlePortfolioChange | src/pages/UpdateInvestorForm.jsx:173-178 | exactly one field of entry `index` changes, in place |
| UpdateInvestor.UpdateInvestorForm.AddPortfolioCompany | src/pages/UpdateInvestorForm.jsx:181-189 | one new entry with logo source "upload" and no logo type is appended; existing entries are unchanged |
| UpdateInvestor.UpdateInvestorForm.StartImageUpload | src/pages/UpdateInvestorForm.jsx:192-200 | with no file nothing changes; otherwise `imageLoading` is set and the current form is captured |
| UpdateInvestor.UpdateInvestorForm.FinishImageUpload | src/pages/UpdateInvestorForm.jsx:201-221 | only an applied URL with an existing entry sets that entry's logo and the success message, and the captured form replaces the current one; otherwise the error is set and the form and the captured entries' values are unchanged; `imageLoading` ends false |
| InvestorsTable.NormalizeInvestors | src/pages/InvestorsTable.jsx:17-28 | an array body is used as-is, otherwise its `investors` field or []; a failure gives [] |
| InvestorsTable.FilteredInvestors | src/pages/InvestorsTable.jsx:68-74 | an investor is shown exactly when the lower-cased query occurs in its lower-cased name, geography, investment stages or investor type; the result keeps list order |
| InvestorsTable.EmptyQueryShowsAll | src/pages/InvestorsTable.jsx:68-74 | an empty query shows every investor |
| InvestorsTable.QueryCaseIgnored | src/pages/InvestorsTable.jsx:70-73 | a query and its lower-cased form show the same investors |
| InvestorsTable.RemoveByIdSpec | src/pages/InvestorsTable.jsx:45 | exactly the investors with another `_id` remain, in order and with their multiplicities |
| InvestorsTable.InvestorsTable.constructor | src/pages/InvestorsTable.jsx:7-12 | no investors, loading, dialog closed, nothing recorded, empty name and query |
| InvestorsTable.InvestorsTable.FinishFetch | src/pages/InvestorsTable.jsx:15-32 | the list becomes the normalised payload and loading ends, whatever the outcome |
| InvestorsTable.InvestorsTable.HandleDelete | src/pages/InvestorsTable.jsx:34-37 | the investor is recorded and the dialog opens |
| InvestorsTable.InvestorsTable.SetProfileName | src/pages/InvestorsTable.jsx:174 | only the typed name changes |
| InvestorsTable.InvestorsTable.SetSearchQuery | src/pages/InvestorsTable.jsx:89 | only the query changes, and the shown rows are the filter for it |
| InvestorsTable.InvestorsTable.Cancel | src/pages/InvestorsTable.jsx:177 | the dialog closes and the recorded investor and typed name are kept |
| InvestorsTable.InvestorsTable.DeleteInvestor | src/pages/InvestorsTable.jsx:39-58 | the request is sent exactly when the typed name equals the recorded name; a mismatch changes nothing; after a sent request the dialog closes, the record and name are cleared, and only a success removes that `_id` from the list |
| InvestorsTable.InvestorsTable.HandleEdit | src/pages/InvestorsTable.jsx:60-62 | navigation goes to "/edit-investor/" plus the `_id` |
| InvestorsTable.InvestorsTable.HandleViewProfile | src/pages/InvestorsTable.jsx:64-66 | navigation goes to "/investor/" plus the `_id` |
| UsersTable.NormalizeUsers | src/pages/users/UsersTable.jsx:21 | `data.data` when it is an array, otherwise []; a failure gives [] |
| UsersTable.SomeIncludesIff | src/pages/users/UsersTable.jsx:39-41 | `some` holds exactly when some field string, lower-cased, contains the query |
| UsersTable.SearchUsers | src/pages/users/UsersTable.jsx:36-44 | a user is kept exactly when some field string, lower-cased, contains the lower-cased search; the result keeps list order |
| UsersTable.EmptySearchKeepsAll | src/pages/users/UsersTable.jsx:36-44 | an empty search keeps every user |
| UsersTable.RemoveUserSpec | src/pages/users/UsersTable.jsx:50-51 | exactly the users with another `_id` remain, in order |
| UsersTable.RemoveUserCommutesWithSearch | src/pages/users/UsersTable.jsx:36-55 | removing a user from the search result equals searching the list without that user |
| UsersTable.UsersTable.constructor | src/pages/users/UsersTable.jsx:8-13 | empty lists and search, loading, dialog closed, no user recorded |
| UsersTable.UsersTable.FinishFetch | src/pages/users/UsersTable.jsx:17-34 | both lists become the normalised payload (the shown list equals the loaded one) and loading ends |
| UsersTable.UsersTable.SetSearch | src/pages/users/UsersTable.jsx:36-44 | the shown list becomes the search over the loaded list |
| UsersTable.UsersTable.HandleDeleteUser | src/pages/users/UsersTable.jsx:46-55 | a success removes that `_id` from both lists, keeping the shown list equal to the search; a failure changes neither |
| UsersTable.UsersTable.OpenModal | src/pages/users/UsersTable.jsx:57-60 | the user is recorded and the dialog opens |
| UsersTable.UsersTable.CloseModal | src/pages/users/UsersTable.jsx:62-65 | the dialog closes and no user is recorded |
| UsersTable.UsersTable.ConfirmDelete | src/pages/users/UsersTable.jsx:67-72 | nothing happens unless the recorded id is truthy; otherwise that id is deleted (if the request succeeds) and the dialog ends closed with no user recorded |
| Dashboard.CountOrZero | src/components/Dashboard.jsx:21-23 | a returned count is kept and a missing one becomes 0 |
| Dashboard.Dashboard.View | src/components/Dashboard.jsx:36-58 | the loader exactly while loading, else the error text exactly when the error is non-empty, else the three counts |
| Dashboard.Dashboard.constructor | src/components/Dashboard.jsx:6-10 | no counts, loading, no error |
| Dashboard.Dashboard.FinishFetch | src/components/Dashboard.jsx:13-31 | loading ends; a success sets all three counts (0 for a missing one), clears the error and shows the counts; a failure sets the fixed message, keeps the counts and shows the error |
| Wrappers.OrElse | src/pages/InvestorProfile.jsx:88 | `value || fallback`: a present, non-empty value is kept, anything else gives the fallback, and a non-empty fallback gives a non-empty result |
| InvestorProfile.CardAsWrittenLosesName | src/pages/InvestorProfile.jsx:70 | a body whose name is only inside `investor` gets no heading as the page builds it, but gets one from the corrected card |
| InvestorProfile.Card | src/pages/InvestorProfile.jsx:54-183 | the heading is the record's name; investment stages and check size fall back to "Not specified"; the companies section appears exactly for a non-empty list; everything except the heading is as the page builds it |
| InvestorProfile.InvestorProfile.View | src/pages/InvestorProfile.jsx:37-47 | the loader while loading, else the error text for a non-empty error, else "No data found." without a body, else the card |
| InvestorProfile.InvestorProfile.constructor | src/pages/InvestorProfile.jsx:9-11 | no investor, loading, no error |
| InvestorProfile.InvestorProfile.FinishFetch | src/pages/InvestorProfile.jsx:14-28 | a response stores its body and clears the error; a failure sets the fixed message and keeps the body; loading ends either way |
| InvestorProfile.InvestorProfile.HandleEditClick | src/pages/InvestorProfile.jsx:33-35 | navigation goes to "/edit-investor/" plus the page's id |
| UserDetails.ShowEducation | src/pages/users/UserDetails.jsx:61-62 | a missing or empty end date shows "Present", any other its value; the other parts are the entry's |
| UserDetails.Card | src/pages/users/UserDetails.jsx:40-80 | the photo or the placeholder; "Yes"/"No" for `isVerified`; each list, or its fallback text exactly when it is empty or there is no profile |
| UserDetails.UserDetails.View | src/pages/users/UserDetails.jsx:27-38 | the loading text while loading, else the error for a truthy error, else the content, with a card exactly when there is a user |
| UserDetails.UserDetails.constructor | src/pages/users/UserDetails.jsx:7-9 | no user, loading, no error |
| UserDetails.UserDetails.FinishFetch | src/pages/users/UserDetails.jsx:12-22 | the first row of `data` becomes the user (none for an empty list); a failure or a missing `data` sets "Error fetching user details." and keeps the user; loading ends either way |

## Findings

| source | as written | input that shows it | evidently intended | confidence | as-written member | corrected member |
|---|---|---|---|---|---|---|
| src/pages/InvestorProfile.jsx:70 | the heading reads the body's top-level `name`, while every other field reads `investor.investor.*` | a body `{ investor: { name: "Acme", ... } }`, the shape the edit page reads from the same endpoint (src/pages/UpdateInvestorForm.jsx:49) | the heading shows `investor.investor.name` | likely; not executed | InvestorProfile.CardAsWrittenLosesName | InvestorProfile.Card |

## Left out

- Network requests are not modelled. Each request is an input that says how it settled:
  - a resolved status;
  - a failure with a response and its message;
  - a failure without a response;
  - any other failure;
  - or a page-specific payload.
- Async interleaving is modelled only for the two upload handlers. Their second half takes the state captured by the first. Any other handler is one atomic step, so a request that settles after later edits is not modelled for it. No handler guards against stale settlement, and the model adds no guard.
- Browser APIs are not modelled:
  - `URL.createObjectURL` previews are opaque string inputs;
  - `localStorage` is a map;
  - `navigate` is a recorded target;
  - `alert` and `console` are dropped.
- JavaScript's `toLowerCase` is modelled on ASCII letters only; Unicode case folding is not.
- Optional chaining and `||` defaults are modelled with `Option`. A value that JavaScript would render as `undefined` is modelled as absent.
- Exceptions from reading a field of an undefined value are modelled in two ways:
  - where a handler catches them, as the catch's effect: the upload handlers' out-of-range index and the fetches' missing `investor`, `portfolioCompanies` or `data`;
  - where nothing catches them, as a handler that changes nothing, since the throw comes before any state update: the out-of-range index of `handlePortfolioChange` (src/pages/CreateInvestorForm.jsx:234, src/pages/UpdateInvestorForm.jsx:176), `handlePortfolioLogoSourceChange` (src/pages/CreateInvestorForm.jsx:248) and `toggleLogoType` (src/pages/UpdateInvestorForm.jsx:150). The error reaching the browser console is not modelled.
- Some shapes that would make the source throw are not modelled:
  - a missing searchable column of an investor;
  - a profile body without `investor`;
  - a profile without education or experience lists.
- A portfolio entry without a logo is modelled with an empty logo.
- The edit page's `handleImageSourceChange` and `handlePortfolioLogoSourceChange` (src/pages/UpdateInvestorForm.jsx:139-162) are not modelled: no element of that page calls them.
- The commented-out drafts of both forms are not modelled, because they are not live code.
- The user list's row click, which navigates to a user page, is not modelled: the router table has no user route.
- `ImageUploadComponent.jsx` and `FileUpload.js` are not part of this model. The first is dispatch and toast wiring; the second is a cloud-storage SDK upload.
- Of `App.jsx`, only the path table is modelled, as `Session.IsProtectedPath` over `Session.RouteKey`.
- Session.Resolve: the router's percent-decoding of the path and its case folding of non-ASCII letters are not modelled; only ASCII letter case and trailing slashes are.
- `Sidebar.jsx`, `Layout.jsx`, `DashboardPage.jsx` and `ConfirmationModal.jsx` are presentational. The dialog's open flag is the `UsersTable` field.
- `api.js` is a thin HTTP client instance and is not modelled.
- The option lists of the multi-select controls are opaque strings.
- The investor and user lists' loader rendering is not modelled, since it only depends on `loading`.
- UsersTable.UsersTable.SetSearch requires the list to have loaded, because the search box is only rendered then.
- InvestorsTable.InvestorsTable.DeleteInvestor requires the dialog to be open, because its Delete button is only rendered then.
- InvestorProfile.Card is the corrected card. The page as written takes the heading from the body's top level; see Findings.
