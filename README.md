# Admin dashboard widgets and pages, modelled in Dafny

A model of the client-side logic of the `boiler-next-dashboard` admin scaffold, a Next.js/React front end. All of its "backend" calls are simulated. The model covers:

- **Confirmation modal** (`src/lib/confirmation-modal.tsx`). The dialog is a pure function of its props (`Render`, `Respond`). The `useConfirmationModal` hook is a class holding the stored request and `isLoading`. `handleConfirm` is split at its `await` into `StartConfirm` and `FinishConfirm`, so that Escape or a backdrop click can arrive while the action is pending.
- **Date-range picker** (`src/lib/date-range-picker.tsx`). It shows the committed `value`. Edits go to a draft (`tempRange`) until Apply. Every `onChange` call is recorded in `commits`.
- **Navigation tree** (`src/lib/dropdown-menu.tsx`). A node renders either as a link or as a collapsible group. Nodes are identified by their index path, and the open flags are the set of open paths.
- **WYSIWYG editor** (`src/lib/wysiwyg-editor.tsx`). It is a textarea plus a toolbar. `formatText` replaces the selection with a marked-up copy. "Clear" runs the markup-stripping regular expression, written here as a left-to-right scan.
- **Users list** (`src/app/users/page.tsx`). It covers the case-insensitive search, the page size, the slice of rows on the current page, the "Showing a to b of n" summary, Previous/Next, the windowed page bar with ellipses, and deletion through the confirmation modal.
- **New-user form** (`src/app/users/new/page.tsx`). It covers field edits and `validateForm`. Errors are keyed by field, the e-mail regular expression is modelled, and the required checks use `trim()`. It also covers the confirmation-gated create, which sets `isSubmitting` and records the navigation on success.
- **Register form** (`src/app/auth/register/page.tsx`). It covers the password checks, counted in UTF-16 code units, and the input handler that blanks an error once its field is edited.
- **Sample forms** (`src/app/sample-forms/page.tsx`). This is one record of every input kind, updated by name. The update is dispatched on the input's type.
- **Auth-route test** of the layout wrappers.

Timers, the console, `alert` and the router are not modelled as such. An awaited action is named by an identifier, and how it settles is passed in as an outcome. A navigation is recorded as an appended path.

Three behaviours of the code are worth stating plainly:
- **Editor.** The editor is a controlled textarea. Its toolbar inserts Markdown-like markup around the selection, and the link URL comes from a popover.
- **Modal.** Escape and a backdrop click close the dialog even while a confirmation is pending and its buttons are disabled (`EscapeWhilePending`).
- **Form errors.** Errors clear on retype only on the register page. The new-user page keeps them until the next submit (`FixedErrorDisappears`).

## Model

| member | source | states |
|---|---|---|
| Strings.Trim | src/app/users/new/page.tsx:38-49 | `trim()` returns a contiguous piece of its input, with no whitespace at either end, and everything it drops before and after that piece is whitespace |
| Strings.TrimEmptyIffBlank | src/app/users/new/page.tsx:38-49 | `!s.trim()` holds exactly when every character of `s` is ECMAScript whitespace |
| Strings.LowerChar | src/app/users/page.tsx:41-45 | the fold maps upper-case ASCII letters to lower case, never returns an upper-case letter and leaves other characters alone |
| Strings.Lower | src/app/users/page.tsx:41-45 | lower-casing keeps the length and folds each character |
| Strings.Includes | src/app/users/page.tsx:41-45 | `includes` holds exactly when the needle occurs at some position |
| ConfirmationModal.Render | src/lib/confirmation-modal.tsx:17-112 | nothing renders while closed; an open dialog shows the title and message, "Confirm"/"Cancel"/default variant when omitted, and both buttons disabled and the spinner shown exactly while `confirmLoading` |
| ConfirmationModal.Respond | src/lib/confirmation-modal.tsx:28-102 | a closed dialog calls nothing; `onConfirm` is called exactly on a confirm click while not loading; `onClose` exactly on Escape, a click on the backdrop itself, or a cancel click while not loading |
| ConfirmationModal.PendingConfirmOnlyEscapeOrBackdropClose | src/lib/confirmation-modal.tsx:28-102 | while loading, confirm is never called, only Escape or the backdrop closes, and both buttons are disabled |
| ConfirmationModal.ModalHook.constructor | src/lib/confirmation-modal.tsx:131-136 | the hook starts closed with empty title and message, no action and not loading |
| ConfirmationModal.ModalHook.ShowModal | src/lib/confirmation-modal.tsx:138-143 | the request replaces the stored state wholesale and opens it; `isLoading` is untouched |
| ConfirmationModal.ModalHook.HideModal | src/lib/confirmation-modal.tsx:145-148 | closes and clears loading, keeping the stored request |
| ConfirmationModal.ModalHook.StartConfirm | src/lib/confirmation-modal.tsx:150-152 | with no stored action nothing changes; otherwise that action starts and loading is set |
| ConfirmationModal.ModalHook.FinishConfirm | src/lib/confirmation-modal.tsx:153-159 | success hides the dialog; failure keeps it open with the same request; loading ends either way |
| ConfirmationModal.ModalHook.HandleConfirm | src/lib/confirmation-modal.tsx:150-161 | the stored action runs once if present; the end state by outcome, or no change without an action |
| ConfirmationModal.ModalHook.Dispatch | src/lib/confirmation-modal.tsx:163-175 | an event to the rendered dialog is `hideModal`, `handleConfirm` or nothing, as `Respond` decides on the hook's props |
| ConfirmationModal.ConfirmRejected | src/lib/confirmation-modal.tsx:150-161 | after a failed action the same dialog is shown again, enabled |
| ConfirmationModal.ConfirmResolved | src/lib/confirmation-modal.tsx:150-161 | after a successful action the dialog is gone and loading has ended; the action ran once |
| ConfirmationModal.CancelNeverConfirms | src/lib/confirmation-modal.tsx:94-100 | cancel closes without starting the action |
| ConfirmationModal.EscapeWhilePending | src/lib/confirmation-modal.tsx:28-44 | Escape closes a dialog whose buttons are disabled by a pending action, and it stays closed when the action settles |
| DateRangePicker.FormatDate | src/lib/date-range-picker.tsx:20-28 | an empty date formats to the empty string, any other through the locale formatter |
| DateRangePicker.Picker.Label | src/lib/date-range-picker.tsx:110 | the trigger shows the text of the committed `value`, never of the draft; the three cases are stated by `DisplayText` and `EndOnlyShowsPlaceholder` |
| DateRangePicker.DisplayText | src/lib/date-range-picker.tsx:40-47 | both dates give "start - end"; a start alone gives "start - Select end date"; no start gives "Select date range" |
| DateRangePicker.EndOnlyShowsPlaceholder | src/lib/date-range-picker.tsx:40-47 | an end date without a start still shows the placeholder |
| DateRangePicker.QuickRanges | src/lib/date-range-picker.tsx:49-100 | five presets, "Today", "Yesterday", "Last 7 days", "Last 30 days" and "Last year": the first two are single days, the other three end today and start a week, a month and a year earlier |
| DateRangePicker.Picker.constructor | src/lib/date-range-picker.tsx:16-18 | mounting seeds the draft from `value`, closed, with no commits |
| DateRangePicker.Picker.ReceiveValue | src/lib/date-range-picker.tsx:16-18 | a new `value` prop does not reach the draft |
| DateRangePicker.Picker.ToggleOpen | src/lib/date-range-picker.tsx:104-106 | the trigger flips the popover and nothing else |
| DateRangePicker.Picker.Apply | src/lib/date-range-picker.tsx:30-33 | one `onChange` with the draft, then closed |
| DateRangePicker.Picker.Cancel | src/lib/date-range-picker.tsx:35-38 | the draft returns to `value`, closed, no `onChange` |
| DateRangePicker.Picker.ChooseQuickRange | src/lib/date-range-picker.tsx:129 | a preset replaces the whole draft |
| DateRangePicker.Picker.EditStart | src/lib/date-range-picker.tsx:146-147 | only the draft's start date changes |
| DateRangePicker.Picker.EditEnd | src/lib/date-range-picker.tsx:155-156 | only the draft's end date changes |
| DateRangePicker.TodayThenApply | src/lib/date-range-picker.tsx:30-33 | open, "Today", Apply: exactly one commit of today to today, closed |
| DateRangePicker.EditThenCancel | src/lib/date-range-picker.tsx:35-38 | edits then Cancel: no commit, label unchanged, draft restored |
| DateRangePicker.StaleDraftAfterNewValue | src/lib/date-range-picker.tsx:16-18 | after the parent changes `value`, Apply commits the old draft |
| DateRangePicker.OutOfOrderRangeAccepted | src/lib/date-range-picker.tsx:146-156 | an end before the start is committed as typed |
| DropdownMenu.Render | src/lib/dropdown-menu.tsx:25-75 | one node's rendering; its contract is stated by `RenderShape`, `ChildrenOverrideHref`, `RenderLocal` and `InitiallyAllClosed` |
| DropdownMenu.RenderList | src/lib/dropdown-menu.tsx:64-70 | one rendering per child: the `i`-th entry is the `i`-th child rendered at path `parent + [i]` |
| DropdownMenu.SidebarNavigation | src/lib/dropdown-menu.tsx:82-90 | one rendering per top-level item, the `i`-th at path `[i]` |
| DropdownMenu.RenderShape | src/lib/dropdown-menu.tsx:25-75 | a node is a link exactly when it has an href and no children; a group shows its title, is open exactly when its flag is, has a chevron and content exactly when it has children, and lists its children in order |
| DropdownMenu.ChildrenOverrideHref | src/lib/dropdown-menu.tsx:27-29 | a node with children is a group even when it has an href |
| DropdownMenu.RenderLocal | src/lib/dropdown-menu.tsx:41-70 | a node's rendering depends only on the flags of the node and its descendants |
| DropdownMenu.ToggleIsLocal | src/lib/dropdown-menu.tsx:41 | opening or closing one node leaves every other top-level entry's rendering unchanged |
| DropdownMenu.InitiallyAllClosed | src/lib/dropdown-menu.tsx:26 | with every flag false, no group at any depth is open |
| DropdownMenu.Sidebar.constructor | src/lib/dropdown-menu.tsx:26 | every node starts closed |
| DropdownMenu.Sidebar.View | src/lib/dropdown-menu.tsx:82-90 | the mounted tree shows `SidebarNavigation` of its items under the current flags, one entry per top-level item |
| DropdownMenu.Sidebar.OnOpenChange | src/lib/dropdown-menu.tsx:41 | sets the flag of that node and of no other |
| DropdownMenu.OpenFirstOfTwo | src/lib/dropdown-menu.tsx:41-70 | opening the first of two groups shows it open and the second exactly as before |
| Layout.IsAuthPage | src/components/layout/app-layout.tsx:16 | a page is an auth page exactly when there is a path and it is "/auth" followed by any text, so the test is a character prefix, not a path segment |
| Layout.PrefixNotSegment | src/lib/conditional-layout.tsx:28 | "/auth/login" and "/auth" count, so does "/authors"; "/users", "/" and no path do not |
| NewUserForm.FirstAt | src/app/users/new/page.tsx:44 | finds the first '@', or reports there is none |
| NewUserForm.ValidEmail | src/app/users/new/page.tsx:44 | the e-mail format test, as a scan; `ValidEmailIffPattern` proves it accepts exactly the regular expression's language |
| NewUserForm.ValidEmailIffPattern | src/app/users/new/page.tsx:44 | the executable check agrees with `/^[^\s@]+@[^\s@]+\.[^\s@]+$/` in both directions |
| NewUserForm.PatternHasNoOuterSpace | src/app/users/new/page.tsx:42-45 | an address the pattern accepts is non-empty with no whitespace at either end, so it is never blank |
| NewUserForm.SampleAddresses | src/app/users/new/page.tsx:44 | "a@b.c" passes; padded addresses, a missing dot, an empty domain part or a trailing dot fail |
| NewUserForm.FieldError | src/app/users/new/page.tsx:38-50 | only name, e-mail and location can carry an error |
| NewUserForm.FormErrors | src/app/users/new/page.tsx:35-53 | the error map has exactly the fields whose check fails, with their messages |
| NewUserForm.ValidIff | src/app/users/new/page.tsx:35-53 | the form is valid exactly when name and location are not blank and the e-mail matches the pattern; errors only ever name those three fields |
| NewUserForm.ErrorsFromChecks | src/app/users/new/page.tsx:36-52 | the checks made in order, each inserting its message, build exactly the error map |
| NewUserForm.OtherFieldsNeverChecked | src/app/users/new/page.tsx:35-53 | phone, department, role, status and bio have no effect on the errors |
| NewUserForm.InitialFormInvalid | src/app/users/new/page.tsx:20-53 | the initial form gets the three "required" errors |
| NewUserForm.WithField | src/app/users/new/page.tsx:138-248 | each input's handler replaces its own field and no other |
| NewUserForm.CreateRequest | src/app/users/new/page.tsx:63-87 | the confirmation: "Create New User", "Create User"/"Cancel", default variant, the create action |
| NewUserForm.NewUserPage.constructor | src/app/users/new/page.tsx:20-33 | the initial form, no errors, not submitting, no navigation |
| NewUserForm.NewUserPage.SubmitCaption | src/app/users/new/page.tsx:267 | "Creating User..." while submitting, "Create User" otherwise |
| NewUserForm.NewUserPage.Edit | src/app/users/new/page.tsx:138-248 | the edited field changes; the errors stay as they were |
| NewUserForm.NewUserPage.ValidateForm | src/app/users/new/page.tsx:35-54 | stores the error map of the current form and reports validity exactly when it is empty |
| NewUserForm.NewUserPage.HandleSubmit | src/app/users/new/page.tsx:56-88 | an invalid form stores its errors and opens nothing; a valid one opens the create confirmation |
| NewUserForm.NewUserPage.BeginCreate | src/app/users/new/page.tsx:69-70 | confirming starts the create action only when it is the stored one, setting `isSubmitting` |
| NewUserForm.NewUserPage.EndCreate | src/app/users/new/page.tsx:72-86 | navigates to "/users" on success only; submitting ends and the dialog closes either way, since the action swallows its own error |
| NewUserForm.NewUserPage.Cancel | src/app/users/new/page.tsx:90-92 | navigates to "/users" unless submitting, when the button is disabled |
| NewUserForm.SubmitEmptyForm | src/app/users/new/page.tsx:56-61 | submitting the initial form reports the three errors and opens no dialog |
| NewUserForm.CreateFlow | src/app/users/new/page.tsx:56-88 | a valid form, confirmed: "Creating User..." while pending; afterwards not submitting, dialog closed, "/users" visited exactly on success |
| NewUserForm.FixedErrorDisappears | src/app/users/new/page.tsx:35-54 | a name error stays after the name is typed and goes only at the next submit |
| RegisterForm.With | src/app/auth/register/page.tsx:45-49 | the named input takes the value, the others keep theirs |
| RegisterForm.Utf16Length | src/app/auth/register/page.tsx:28 | `length` counts between one and two units per character |
| RegisterForm.FiveAstralCharactersAreLongEnough | src/app/auth/register/page.tsx:28 | five emoji count as ten units, so they pass the six-unit rule |
| RegisterForm.SubmitErrors | src/app/auth/register/page.tsx:22-30 | the error map holds exactly the inputs whose check fails, with their messages |
| RegisterForm.SubmitErrorsStepwise | src/app/auth/register/page.tsx:22-30 | the two checks, in the handler's order, build exactly that map |
| RegisterForm.SubmitError | src/app/auth/register/page.tsx:24-30 | the message each input gets from the two checks; `SubmitErrors` and `SubmitRules` state when each appears |
| RegisterForm.SubmitRules | src/app/auth/register/page.tsx:24-36 | mismatch exactly when the two passwords differ, too short exactly below six units, name and e-mail never flagged; accepted exactly when neither check fails |
| RegisterForm.NameAndEmailNeverChecked | src/app/auth/register/page.tsx:22-30 | name and e-mail have no effect on the errors |
| RegisterForm.BothErrorsTogether | src/app/auth/register/page.tsx:24-30 | "abc" confirmed as "abd" gets both messages |
| RegisterForm.RegisterPage.constructor | src/app/auth/register/page.tsx:7-14 | empty inputs, not loading, no errors |
| RegisterForm.RegisterPage.SubmitCaption | src/app/auth/register/page.tsx:165 | "Creating account..." while loading, "Create Account" otherwise |
| RegisterForm.RegisterPage.StartSubmit | src/app/auth/register/page.tsx:16-36 | the call proceeds exactly when there are no errors; the errors of the form are stored; loading only while proceeding |
| RegisterForm.RegisterPage.FinishSubmit | src/app/auth/register/page.tsx:42 | loading ends; inputs and errors unchanged |
| RegisterForm.RegisterPage.HandleChange | src/app/auth/register/page.tsx:45-58 | the input changes; its shown error is blanked, key kept; other errors unchanged |
| RegisterForm.ChangeHidesOnlyItsOwnError | src/app/auth/register/page.tsx:51-57 | after an edit, that input shows no error and no other input's error appears or disappears |
| RegisterForm.ShortPasswordThenType | src/app/auth/register/page.tsx:16-58 | the empty form gets only the password error, loading stops, and typing blanks it with its key kept |
| RegisterForm.AcceptedSubmit | src/app/auth/register/page.tsx:16-43 | a good password proceeds, loading with "Creating account..." until the call returns, with no errors |
| SampleForms.Update | src/app/sample-forms/page.tsx:53-61 | the named field takes the value, added if absent; every other field keeps its own |
| SampleForms.KindShape | src/app/sample-forms/page.tsx:53-61 | no input type stores a number or a date range |
| SampleForms.ChangedValue | src/app/sample-forms/page.tsx:53-61 | the value stored for an event; `ChangedValueByKind` states it per input type |
| SampleForms.ChangedValueByKind | src/app/sample-forms/page.tsx:53-61 | a checkbox stores its checked state, a file input its first file or none, any other input its raw string |
| SampleForms.OnlyNumbersChangeShape | src/app/sample-forms/page.tsx:30-61 | among the rendered inputs, exactly rating and range store a different kind of value (a string) from the number they start with |
| SampleForms.InitialConsistent | src/app/sample-forms/page.tsx:8-48 | the initial record is consistent |
| SampleForms.HandlersKeepConsistent | src/app/sample-forms/page.tsx:50-70 | events from rendered inputs, new date ranges and new rich text add no field and give none a foreign kind of value |
| SampleForms.UnknownNameAddsField | src/app/sample-forms/page.tsx:50-61 | an event with an unknown name adds a field: the handler does not check names |
| SampleForms.SampleForm.constructor | src/app/sample-forms/page.tsx:8-48 | the record starts as the initial one: empty strings, false flags, rating 5, range 50, black, no file, empty date range |
| SampleForms.SampleForm.HandleInputChange | src/app/sample-forms/page.tsx:50-62 | only the event's field changes, to the value its type calls for; consistency is kept for rendered inputs |
| SampleForms.SampleForm.HandleDateRangeChange | src/app/sample-forms/page.tsx:64-66 | only the date range changes, replaced as a whole |
| SampleForms.SampleForm.HandleRichTextChange | src/app/sample-forms/page.tsx:68-70 | only the rich text changes |
| SampleForms.SampleForm.HandleSubmit | src/app/sample-forms/page.tsx:72-76 | reports the record and leaves it as it is |
| SampleForms.SlideRating | src/app/sample-forms/page.tsx:30-61 | the rating goes from the number 5 to the slider's string, and the record stays consistent |
| SampleForms.TickTermsThenChooseNothing | src/app/sample-forms/page.tsx:53-58 | ticking terms sets it and not newsletter; choosing no file stores none |
| UsersList.Matches | src/app/users/page.tsx:41-45 | one user passes the search; `Filter` keeps exactly those users and `EmptyTermKeepsAll` shows the empty term passes everyone |
| UsersList.Filter | src/app/users/page.tsx:41-45 | keeps exactly the users whose name, e-mail or role contains the term, case-insensitively |
| UsersList.FilterAppend | src/app/users/page.tsx:41-45 | filtering keeps the original order |
| UsersList.EmptyTermKeepsAll | src/app/users/page.tsx:41-45 | an empty search keeps every user |
| UsersList.CeilDiv | src/app/users/page.tsx:48 | the page count is the least number of pages holding every row, and zero exactly when there are no rows |
| UsersList.PageRows | src/app/users/page.tsx:49-51 | the rows of a page are the filtered rows from `(page - 1) * size` on, at most one page's worth, none past the end |
| UsersList.StoredPageSizeAsWritten | src/app/users/page.tsx:57-59 | "all" stores the current match count, which may be zero; the fixed sizes store at least 10 |
| UsersList.TotalPagesAsWritten | src/app/users/page.tsx:48 | a zero page size gives NaN with no rows and Infinity with some |
| UsersList.AllWithNoMatchesHidesLaterMatches | src/app/users/page.tsx:48-58 | "all" chosen with no matches, then a search that matches: no rows shown, Infinity pages, and Next still enabled |
| UsersList.AllWithNoMatchesExample | src/app/users/page.tsx:16-58 | the same, concretely, with the first sample user and the search "zzz" |
| UsersList.SampleUserMissesZzz | src/app/users/page.tsx:17 | the first sample user does not match "zzz" |
| UsersList.LowerHasNoZ | src/app/users/page.tsx:41-45 | a string without 'z' or 'Z' does not contain "zzz" once lower-cased |
| UsersList.PerPage | src/app/users/page.tsx:57-59 | at least one row per page; "all" covers every match; the fixed sizes as written |
| UsersList.StaleAllCountHidesLaterMatches | src/app/users/page.tsx:48-59 | as written, "all" chosen with `k` matches keeps page size `k`: once the search matches more, page 1 shows only the first `k`, there are at least two pages and Next is enabled |
| UsersList.AllShowsEveryMatch | src/app/users/page.tsx:48-59 | with "all", page 1 holds every match and there is one page, or none with no matches |
| UsersList.EveryPage | src/app/users/page.tsx:328-330 | one link per page, in order, the current one active |
| UsersList.DecorateNumbers | src/app/users/page.tsx:328-406 | the bar offers exactly the chosen pages, marks exactly the current one active, and starts and ends with a link |
| UsersList.DecorateGaps | src/app/users/page.tsx:346-406 | for increasing pages, each skipped range gets one ellipsis and adjacent links are consecutive |
| UsersList.EveryPageDecorated | src/app/users/page.tsx:328-345 | with at most five pages the bar lists every page with no ellipsis |
| UsersList.PageItems | src/app/users/page.tsx:328-406 | the page bar as the code builds it; `PageItemsDecorated` and `PageBarWellFormed` state its shape |
| UsersList.Neighbourhood | src/app/users/page.tsx:367-369 | the current page and its two neighbours that exist; part of the bar `PageBarWellFormed` describes |
| UsersList.PageItemsDecorated | src/app/users/page.tsx:328-406 | the bar as computed equals the decorated reference page list |
| UsersList.ShownPagesIncreasing | src/app/users/page.tsx:346-406 | the pages shown increase, lie within range, and run from 1 to the last page through the current one |
| UsersList.DecoratedWellFormed | src/app/users/page.tsx:328-406 | any increasing in-range page list from 1 to the last page through the current one decorates into a bar offering exactly those pages, one ellipsis per gap, only the current page active |
| UsersList.PageBarWellFormed | src/app/users/page.tsx:328-406 | the bar's pages increase, none repeats, all exist; it runs from page 1 to the last page; only the current page is active; every gap is one ellipsis |
| UsersList.SummaryOf | src/app/users/page.tsx:312 | the numbers of the summary line; `SummaryCountsRows` relates them to the rows shown |
| UsersList.SummaryCountsRows | src/app/users/page.tsx:312 | "Showing a to b of n" counts exactly the rows on screen, and reads "1 to 0 of 0" on page 1 with no matches |
| UsersList.DeleteRequest | src/app/users/page.tsx:99-114 | the destructive "Delete User" confirmation with "Delete"/"Cancel" and the deletion as its action |
| UsersList.UsersPage.constructor | src/app/users/page.tsx:35-38 | page 1, empty search, ten per page |
| UsersList.UsersPage.SetSearchTerm | src/app/users/page.tsx:154-157 | stores the term and returns to page 1 |
| UsersList.UsersPage.ChoosePageSize | src/app/users/page.tsx:57-60 | stores the menu choice, resolved by the corrected `PerPage` rather than the source's stored count (see Findings), and returns to page 1 |
| UsersList.UsersPage.GoToPage | src/app/users/page.tsx:53-55 | a page link in the bar moves to its page, which exists |
| UsersList.UsersPage.Previous | src/app/users/page.tsx:320-323 | back one page unless on page 1 |
| UsersList.UsersPage.TotalPages | src/app/users/page.tsx:48 | the page count under the corrected page size; `CeilDiv` states it is the least number of pages that holds every match |
| UsersList.UsersPage.CurrentUsers | src/app/users/page.tsx:49-51 | the rows of the current page; `PageRows` states which rows and how many |
| UsersList.UsersPage.Bar | src/app/users/page.tsx:328-406 | the bar for the current page and page count; `PageBarWellFormed` states its shape |
| UsersList.UsersPage.Next | src/app/users/page.tsx:411-414 | forward one page unless on the last page; the page stays valid |
| UsersList.UsersPage.DeleteUser | src/app/users/page.tsx:99-114 | opens the shared modal with the delete request |
| UsersList.NoMatchesEmptyPage | src/app/users/page.tsx:41-51 | a search matching nothing shows no rows and no page links, and Next stays on page 1 |
| WysiwygEditor.MatchLength | src/lib/wysiwyg-editor.tsx:87 | the length of the marker matched at the front, zero when none; it never exceeds the text, a leading '*' or '_' always matches, and only a marker character can start a match |
| WysiwygEditor.MatchLengthFollowsPattern | src/lib/wysiwyg-editor.tsx:87 | the match found is the first of `**`, `__`, `*`, `_`, `~~`, `<u>`, `</u>`, in that order, that the text starts with |
| WysiwygEditor.ClearPlainStep | src/lib/wysiwyg-editor.tsx:87 | a leading character that starts no marker is kept and the pass resumes after it |
| WysiwygEditor.ClearAfterMatch | src/lib/wysiwyg-editor.tsx:87 | a marker at the front is deleted and the pass resumes right after it |
| WysiwygEditor.OpeningMatch | src/lib/wysiwyg-editor.tsx:64-87 | an opening mark followed by an ordinary character is matched as that mark alone |
| WysiwygEditor.ClearMarkup | src/lib/wysiwyg-editor.tsx:86-88 | clearing never lengthens the text and leaves no '*' or '_' |
| WysiwygEditor.ClearPlainPrefix | src/lib/wysiwyg-editor.tsx:87 | text without markup characters passes through clearing unchanged, and the rest after it is cleared on its own |
| WysiwygEditor.ClearKeepsPlainText | src/lib/wysiwyg-editor.tsx:87 | text without markup characters is unchanged by clearing |
| WysiwygEditor.ClearNotIdempotent | src/lib/wysiwyg-editor.tsx:87 | one pass can create a marker: "<<u>u>" clears to "<u>", which clears to "" |
| WysiwygEditor.Formatted | src/lib/wysiwyg-editor.tsx:62-89 | the replacement per format: the marker pairs, `[text or "Link Text"](url)`, the list prefixes, clearing, or the text itself for an unknown format |
| WysiwygEditor.ClearUndoesMarks | src/lib/wysiwyg-editor.tsx:64-88 | clearing a bold, italic, underlined or struck-through plain text gives the text back |
| WysiwygEditor.FormatText | src/lib/wysiwyg-editor.tsx:54-92 | no textarea, no change; otherwise the text before and after the selection is kept and the selection is replaced by its formatted form |
| WysiwygEditor.FormatAtCaret | src/lib/wysiwyg-editor.tsx:54-92 | with an empty selection nothing is removed and the format's output for empty text is inserted at the caret |
| WysiwygEditor.UnknownFormatKeepsText | src/lib/wysiwyg-editor.tsx:62-92 | an unknown format still emits a change, with the text unchanged |
| WysiwygEditor.Editor.constructor | src/lib/wysiwyg-editor.tsx:34-45 | no marks pressed, left aligned, 14px, black on white, no link URL, popover closed |
| WysiwygEditor.Editor.Style | src/lib/wysiwyg-editor.tsx:293-298 | the textarea style carries the size in px, the alignment and both colours |
| WysiwygEditor.Editor.Toggle | src/lib/wysiwyg-editor.tsx:115-158 | a mark toggle sets its own flag and no other, and formats the selection only when pressed |
| WysiwygEditor.Editor.Press | src/lib/wysiwyg-editor.tsx:192-205 | the list, ordered-list and clear buttons format the selection and keep the toolbar state |
| WysiwygEditor.Editor.InsertLink | src/lib/wysiwyg-editor.tsx:101-107 | with no URL nothing happens; otherwise the link goes in, the URL is emptied and the popover closes |
| WysiwygEditor.Editor.SetLinkPopover | src/lib/wysiwyg-editor.tsx:251 | only the popover flag changes |
| WysiwygEditor.Editor.SetLinkUrl | src/lib/wysiwyg-editor.tsx:264 | only the link URL changes |
| WysiwygEditor.Editor.SetAlignment | src/lib/wysiwyg-editor.tsx:165-185 | only the alignment changes |
| WysiwygEditor.Editor.SetFontSize | src/lib/wysiwyg-editor.tsx:211-213 | only the font size changes |
| WysiwygEditor.Editor.SetColors | src/lib/wysiwyg-editor.tsx:232-242 | only the two colours change |
| WysiwygEditor.BoldThenRelease | src/lib/wysiwyg-editor.tsx:115-120 | pressing bold on "world" in "hello world" gives "hello **world**"; releasing it changes no text |
| WysiwygEditor.InsertLinkAtCaret | src/lib/wysiwyg-editor.tsx:101-107 | with no selection the link reads `[Link Text](url)` at the caret; the URL field empties and the popover closes |

## Left out

- Timers, `console.log`/`console.error`, `alert` and the router are external effects. Awaited work is an action identifier plus an outcome passed in, and a navigation is an appended path.
- Locale date formatting and the clock are not modelled. `formatDate` takes the formatter as a parameter, and the quick-range presets take their ISO dates as parameters.
- Strings.LowerChar: folds ASCII letters only, not the full Unicode lower-casing of `toLowerCase()`, because Dafny strings have no case tables.
- DOM access in the editor (`getElementById`, the selection, `focus`, `setSelectionRange`) is not modelled. The selection and the text are parameters, and the selection restore after the change is left out.
- The modal's keydown listener registration and `body.style.overflow` are left out. Only the Escape transition they enable is modelled.
- Native HTML form validation (`required`, `type="email"`, the `min` of the end-date input) happens before the handlers run and is not modelled. A disabled button cannot be clicked, so a submit or cancel while disabled is not modelled either.
- DropdownMenu.Sidebar: the open flags of nodes inside a closed group are kept. The collapsible library may unmount closed content and reset them, and that library is not part of this model.
- Icons, class names, badges, breadcrumbs and the other markup-only parts are not modelled. So are the layout files beyond their auth-route test.
- The WYSIWYG textarea's own typing is `onChange(e.target.value)` straight to the parent, and it is not modelled beyond the `value` parameter.
- The sample-forms file object is reduced to a name (`FileRef`).
- UsersList.UsersPage: the page keeps the page-size menu choice and resolves "all" against the current matches (`PerPage`), the corrected behaviour of the Findings rows. The source stores the match count at the moment "all" is chosen. The stored count is modelled only by the as-written functions (`StoredPageSizeAsWritten`, `TotalPagesAsWritten`, `NextEnabledAsWritten`) and the two as-written lemmas. The class therefore does not reproduce the stale page size after a later search, and neither does `ChoosePageSize`. The page bar drawn for a NaN or Infinity page count, and a click on its "Infinity" link, are not modelled.

## Findings

| source | as written | input that shows it | evidently intended | confidence | as-written member | corrected member |
|---|---|---|---|---|---|---|
| src/app/users/page.tsx:58 | choosing "all" stores `filteredUsers.length`, a snapshot that is 0 when nothing matches; `Math.ceil(n / 0)` is then NaN or Infinity | search "zzz", choose "All", then clear the search: no rows are shown, the page count is Infinity and Next stays enabled | "all" shows every current match on one page | not executed | UsersList.AllWithNoMatchesHidesLaterMatches | UsersList.AllShowsEveryMatch |
| src/app/users/page.tsx:58 | the same snapshot goes stale when it is not 0: a later search with more matches is split into pages of the old count | with the fifteen sample users, search "admin" (three matches), choose "All", then clear the search: page 1 of 5 shows three rows and Next is enabled | "all" shows every current match on one page | not executed | UsersList.StaleAllCountHidesLaterMatches | UsersList.AllShowsEveryMatch |
