# Qwicky admin dashboard: a Dafny model of its client-side logic

This project models the client-side logic of the Qwicky admin dashboard, a React
application for managing the services, professionals and bookings of a
home-services business. It models:

- **The admin session.** It is locked until the configured password is typed.
  It expires after ten minutes without activity, and the navigation bar counts
  down the time left.
- **The display formatters.** The countdown clock is written as `m:ss`. The
  duration label is `H hr M min`. The category names come from a table of
  three entries on the service card and five in the details modal.
- **The four entity forms.** Adding a service or a professional (with a nested
  form that creates a user), and editing a service or a professional. For each,
  the model covers:
  - the checks the form runs and the messages it shows;
  - the form data or JSON it sends;
  - the record it hands back to the page that opened it.
- **The cached lists.** The dashboard and the all-bookings page keep lists that
  are changed by:
  - replacing by id, after an edit form reports its saved record;
  - removing by id, which only happens after the server has confirmed.

  The dashboard also defines handlers that append a new service or
  professional, and the model covers them, but the program never calls them.
  The add forms are opened from the application shell, whose callbacks only
  log the record and close the modal. A record added there shows up on the
  dashboard only after the next fetch.

  The dashboard shows previews of at most three items, and offers "View All"
  when a list is longer.

JavaScript values are modelled as follows:

- A record is a `map<string, Value>`, and a missing property reads as `None`
  (`undefined`).
- Truthiness, `String(v)`, `parseInt` and the spread operator are written out
  in the `Records` and `Text` modules.
- A request is a `Reply` parameter: success with a body, a non-ok response
  with the server's `error` field, or a thrown exception.
- Clock readings are `now` parameters, in milliseconds.

Components with state are classes. Their methods state the new state in terms of
pure functions, and lemmas state the properties of those functions.

Modules:

- `Base`: option and result types and the request reply.
- `Text`: the string built-ins.
- `Records`: JavaScript values and records.
- `ListCache`: the list operations.
- `Json`: `JSON.stringify` of a string array, with a reader for it.
- `Session`, `Navbar`, `ServiceCard`, `DurationRoundTrip`,
  `ServiceDetailsModal`, `AddService`, `AddProfessional`, `EditService`,
  `EditProfessional`, `Dashboard` and `AllBookings`: one per component.

Two behaviours of the code worth noting:

- A successful login does not reset the countdown to 600 seconds. It sets only
  the authentication flag and the time of the last activity.
- An expired session keeps the last countdown value. Only an explicit logout
  puts the countdown back to 600.

## Model

| member | source | states |
|---|---|---|
| Session.Initial | src/App.jsx:13-15 | The application starts unauthenticated, with the countdown at 600 seconds and the last activity at the start time |
| Session.TickOutcomeAt | src/App.jsx:27-38 | A tick expires the session exactly when at least 600000 ms have passed since the last activity; otherwise the countdown is the remaining time in whole seconds, rounded down |
| Session.AfterTick | src/App.jsx:23-42 | A tick does nothing while unauthenticated. While authenticated the session stays open exactly when it is inside the timeout, and then the countdown is the time left in whole seconds, rounded down. Expiry keeps the countdown value, and the last activity is never changed |
| Session.AfterActivity | src/App.jsx:45-49 | Activity records the time only while authenticated and never changes the flag or the countdown |
| Session.AfterLogin | src/components/Auth.jsx:9-13 | A login never changes the countdown |
| Session.AfterLogout | src/App.jsx:69-72 | Logout locks the session and resets the countdown to 600 |
| Session.View | src/App.jsx:91-93 | The login screen is shown exactly when the session is locked |
| Session.ShellShowsCountdown | src/App.jsx:91-93 | The routed shell is reachable only when authenticated, and the clock it shows reads back as the countdown |
| Session.LockedWithoutLogin | src/App.jsx:24 | From a locked state, any sequence of ticks, activity and logouts leaves the state unchanged |
| Session.UnconfiguredLocks | src/components/Auth.jsx:5-9 | With no password configured, no sequence of events opens the session |
| Session.LoginIffMatch | src/components/Auth.jsx:9-16 | A login opens the session exactly when the input equals the configured password and then records the time; a mismatch changes nothing |
| Session.CountdownInWindow | src/App.jsx:27-37 | A countdown computed from an activity no later than now lies between 0 and 600 |
| Session.TickMonotone | src/App.jsx:28-37 | With the last activity fixed, a later tick never shows more time left |
| Session.ActivityRestartsCountdown | src/App.jsx:45-49 | Activity followed by a tick at the same moment shows the full 600 seconds |
| Session.CountdownBounded | src/App.jsx:15-37 | For events in time order, the countdown never exceeds 600 |
| Session.SessionMonitor.constructor | src/App.jsx:13-15 | The session fields start as the initial state |
| Session.SessionMonitor.Tick | src/App.jsx:26-39 | The interval body changes the fields as the tick step does |
| Session.SessionMonitor.Activity | src/App.jsx:45-49 | The activity handler changes the fields as the activity step does |
| Session.SessionMonitor.Login | src/components/Auth.jsx:9-13 | The login callbacks change the fields as the login step does and report whether the password matched |
| Session.SessionMonitor.Logout | src/App.jsx:69-72 | The logout handler changes the fields as the logout step does |
| Session.LoginForm.constructor | src/components/Auth.jsx:3-4 | The password and the error start empty |
| Session.LoginForm.Type | src/components/Auth.jsx:30 | Typing stores the password text and leaves the error |
| Session.LoginForm.Submit | src/components/Auth.jsx:7-17 | The typed password is kept; the error is cleared on a match and becomes 'Incorrect password' otherwise; the session changes as the login step does |
| Navbar.SecondsField | src/components/Navbar.jsx:8-9 | The seconds field is exactly two digits and reads as the seconds modulo 60 |
| Navbar.FormatTime | src/components/Navbar.jsx:6-10 | The `m:ss` text reads back, as minutes times 60 plus seconds, as the number of seconds formatted |
| Navbar.FormatTimeExamples | src/components/Navbar.jsx:6-10 | 600 seconds shows as 10:00 and 0 as 0:00 |
| ServiceCard.JsRem | src/components/ServiceCard.jsx:17 | For a positive divisor, `%` gives a value that differs from the dividend by a multiple of the divisor: the Euclidean remainder for a non-negative dividend, and a value above minus the divisor and at most 0 for a negative one |
| ServiceCard.DurationParts | src/components/ServiceCard.jsx:13-26 | The label mentions hours exactly when the duration is at least 60 minutes, and mentions minutes exactly when it is under an hour or not a whole number of hours |
| DurationRoundTrip.FormatDurationRoundTrip | src/components/ServiceCard.jsx:13-26 | Reading a label back as hours times 60 plus minutes gives the duration formatted; the reader takes a minutes part after hours only between 1 and 59 |
| ServiceCard.CategoryOfIntegerId | src/components/ServiceCard.jsx:4-8 | Ids 1, 2 and 3 name Domestic, Commercial and Corporate; every other integer id shows as Unknown |
| ServiceDetailsModal.CategoryOfIntegerId | src/components/serviceDetailsModel.jsx:4-10 | Ids 1 to 5 name Domestic, Commercial, Corporate, Extended and Quick; every other integer id shows as Unknown |
| ServiceDetailsModal.ExtendsCardCategories | src/components/serviceDetailsModel.jsx:46 | The modal agrees with the card wherever the card knows the category, and names ids 4 and 5, which the card shows as Unknown |
| AddService.DescriptionLines | src/components/AddServiceForm.jsx:28 | The kept lines are exactly the lines of the description that are not blank |
| AddService.Validate | src/components/AddServiceForm.jsx:21-39 | The checks pass exactly when every required input is filled, a non-blank line exists and the duration parses to a positive integer. Otherwise the message is the first failing check's, in source order |
| AddService.BuildPayload | src/components/AddServiceForm.jsx:41-49 | The eight appends produce the payload: inputs as typed, the description as the JSON of the kept lines, the duration as the decimal text of the number read, the location lower-cased |
| AddService.NewService | src/components/AddServiceForm.jsx:68-79 | The added record has the server's id, the kept lines as a list, the duration as a number, the parsed category and `is_active` true, and no location |
| AddService.CategoryOfSelect | src/components/AddServiceForm.jsx:76 | A category chosen in the select is stored as that integer |
| AddService.AddServiceForm.constructor | src/components/AddServiceForm.jsx:4-14 | All inputs and messages start empty and the form is not submitted |
| AddService.AddServiceForm.Edit | src/components/AddServiceForm.jsx:126-216 | The change handlers store the typed text and leave the messages |
| AddService.AddServiceForm.Submit | src/components/AddServiceForm.jsx:16-91 | A failed check sends nothing and shows its message. Otherwise the payload is sent. On success the new record is added, the success message is shown and the form is marked submitted. On failure the server's error or 'Failed to create service' is shown |
| AddService.PayloadFields | src/components/AddServiceForm.jsx:41-49 | The form data holds the eight fields in order, with the description, duration and location converted |
| AddService.SentDurationReadsBack | src/components/AddServiceForm.jsx:35-46 | The duration sent reads back through `parseInt` as the accepted number and has no sign or leading zero |
| AddService.SentDescriptionReadsBack | src/components/AddServiceForm.jsx:28-43 | The description sent parses back as JSON to exactly the kept lines |
| AddService.DescriptionEmptyIffBlank | src/components/AddServiceForm.jsx:28-32 | The description is rejected as empty exactly when it is all white space and line breaks |
| AddService.DescriptionLinesConcat | src/components/AddServiceForm.jsx:28 | The kept lines keep their order: joining two descriptions with a line break concatenates their kept lines |
| Json.StringifyStrings | src/components/AddServiceForm.jsx:43 | The JSON text of a string array parses back to that array |
| Text.ParseIntOfNatPrefix | src/components/AddServiceForm.jsx:35 | `parseInt` reads a number's decimal text back, whatever non-digit text follows |
| Text.TrimEmptyIffSpaces | src/components/AddServiceForm.jsx:28 | A string trims to nothing exactly when it is all white space |
| Text.ContainsIffOccurs | src/components/AddProfessionalForm.jsx:74 | `includes` holds exactly when the needle occurs at some position |
| Text.Trim | src/components/AddServiceForm.jsx:28 | `trim()` gives the run of the text that follows the leading white space, with only white space after it, and the result neither starts nor ends with white space |
| Text.Lower | src/components/AddProfessionalForm.jsx:74 | `toLowerCase()` keeps the length and maps each character on its own, ASCII upper-case letters to lower case |
| Text.Split | src/components/AddServiceForm.jsx:28 | `split` gives at least one piece and no piece holds the separator |
| Text.JoinSplit | src/components/AddServiceForm.jsx:28 | Joining the pieces of `split` back on the same separator gives the original text |
| Text.ParseIntOfIntToString | src/components/AddProfessionalForm.jsx:110-111 | `parseInt` of an integer's decimal text, negative ones included, gives that integer back |
| Records.Spread | src/components/EditServiceForm.jsx:36 | The spread of two records has the keys of both; a key of the second takes its value there, and every other key keeps the first's value |
| Records.ToText | src/components/AddProfessionalForm.jsx:87-88 | `String(v)` leaves a string unchanged and writes an integer as text that `parseInt` reads back as that integer |
| Base.ServerMessage | src/components/AddServiceForm.jsx:63-65 | A non-ok response shows the server's `error` field, or the fallback when that is empty; a thrown request shows its own message |
| Base.FixedMessage | src/pages/Dashboard.jsx:83-87 | A non-ok response shows the fixed message and a thrown request shows its own message |
| Session.Step | src/App.jsx:23-72 | A login while authenticated and a logout while locked change nothing; a logout while authenticated locks the session and puts the countdown back to 600 |
| AddProfessional.FilteredServices | src/components/AddProfessionalForm.jsx:73-75 | The listed services are exactly those whose title contains the search text, ignoring case |
| AddProfessional.FilteredUsers | src/components/AddProfessionalForm.jsx:77-79 | The listed users are exactly those whose trimmed full name contains the search text, ignoring case |
| AddProfessional.ServiceLabel | src/components/AddProfessionalForm.jsx:133 | A picked service shows its title, or 'Unnamed Service' when it has none |
| AddProfessional.UserLabel | src/components/AddProfessionalForm.jsx:140 | A picked user shows the trimmed full name, or 'Unnamed User' when that is empty |
| AddProfessional.BuildPayload | src/components/AddProfessionalForm.jsx:86-88 | The form data holds each id only when it is set |
| AddProfessional.ParsedId | src/components/AddProfessionalForm.jsx:110-111 | An unset id is recorded as null, a set one as what decimal `parseInt` makes of its text |
| AddProfessional.NewProfessional | src/components/AddProfessionalForm.jsx:107-113 | The added record holds the server's id, the two parsed ids and the creation time, and nothing else |
| AddProfessional.ChangeField | src/components/AddProfessionalForm.jsx:196-199 | Editing the new-user form changes only the named field |
| AddProfessional.UserCompleteIffEveryField | src/components/AddProfessionalForm.jsx:149-153 | The new-user check requires every one of the five fields |
| AddProfessional.NewUserRecord | src/components/AddProfessionalForm.jsx:168-176 | The added user has the server's id, the names and contacts as typed, status 'active', and never the password |
| AddProfessional.AddProfessionalForm.constructor | src/components/AddProfessionalForm.jsx:4-23 | Nothing is selected, both lists are empty and every text and flag starts blank |
| AddProfessional.AddProfessionalForm.ServicesFetched | src/components/AddProfessionalForm.jsx:30-40 | An ok response replaces the service list; a failure shows 'Failed to fetch services' or the thrown message. Nothing else in the form state changes |
| AddProfessional.AddProfessionalForm.UsersFetched | src/components/AddProfessionalForm.jsx:42-52 | An ok response replaces the user list; a failure shows 'Failed to fetch users' or the thrown message. Nothing else in the form state changes |
| AddProfessional.AddProfessionalForm.TypeServiceSearch | src/components/AddProfessionalForm.jsx:324-328 | Typing a service search stores the text and clears the selected service; the outer box also opens the list. Nothing else in the form state changes |
| AddProfessional.AddProfessionalForm.TypeUserSearch | src/components/AddProfessionalForm.jsx:370-374 | Typing a user search stores the text and clears the selected user; the outer box also opens the list. Nothing else in the form state changes |
| AddProfessional.AddProfessionalForm.SelectService | src/components/AddProfessionalForm.jsx:131-135 | Picking a service selects its id, shows its label and closes the list. Nothing else in the form state changes |
| AddProfessional.AddProfessionalForm.SelectUser | src/components/AddProfessionalForm.jsx:138-142 | Picking a user selects its id, shows its label and closes the list. Nothing else in the form state changes |
| AddProfessional.AddProfessionalForm.ProfessionalCreated | src/components/AddProfessionalForm.jsx:115-120 | After creation the success message shows, both selections and searches are cleared and the form is submitted. Nothing else in the form state changes |
| AddProfessional.AddProfessionalForm.Submit | src/components/AddProfessionalForm.jsx:81-128 | The payload is always sent. On success the record is added and the form is reset. On failure the server's error or 'Failed to create professional' is shown and the selections are kept. Nothing else in the form state changes |
| AddProfessional.AddProfessionalForm.OpenAddUserForm | src/components/AddProfessionalForm.jsx:202-205 | The nested form opens and the user list closes. Nothing else in the form state changes |
| AddProfessional.AddProfessionalForm.CancelAddUserForm | src/components/AddProfessionalForm.jsx:304 | The nested form closes and the typed draft stays. Nothing else in the form state changes |
| AddProfessional.AddProfessionalForm.ChangeNewUser | src/components/AddProfessionalForm.jsx:196-199 | The draft changes as the field edit does. Nothing else in the form state changes |
| AddProfessional.AddProfessionalForm.UserCreated | src/components/AddProfessionalForm.jsx:178-189 | The new user is appended, selected and shown, the nested form closes and the draft is blank. Nothing else in the form state changes |
| AddProfessional.AddProfessionalForm.AddUser | src/components/AddProfessionalForm.jsx:145-193 | An incomplete draft sends nothing and shows 'All fields are required'. Otherwise the draft is sent. Success appends the new user, selects it under its trimmed name and clears the draft. Failure shows the server's error or 'Failed to create user' and keeps the draft. Nothing else in the form state changes |
| AddProfessional.SearchIgnoresCase | src/components/AddProfessionalForm.jsx:73-79 | A search text and its lower-cased form list the same services and users |
| AddProfessional.EmptySearchListsAll | src/components/AddProfessionalForm.jsx:73-79 | An empty search lists every service and every user |
| AddProfessional.FilterKeepsOrder | src/components/AddProfessionalForm.jsx:73-79 | The filters keep list order: they distribute over concatenation |
| AddProfessional.SelectedServiceStaysListed | src/components/AddProfessionalForm.jsx:131-135 | A service picked by its title stays listed under the search text the pick sets |
| AddProfessional.SelectedUserStaysListed | src/components/AddProfessionalForm.jsx:138-142 | A user picked by a non-empty name stays listed under the search text the pick sets |
| AddProfessional.CreatedUserListed | src/components/AddProfessionalForm.jsx:178-180 | The created user's full name is the trimmed typed name, and the user is listed under it |
| AddProfessional.PayloadIds | src/components/AddProfessionalForm.jsx:87-88 | Each id is posted exactly when it is set, the service's first |
| AddProfessional.RecordAgreesWithPayload | src/components/AddProfessionalForm.jsx:87-111 | For every id posted, the record holds what `parseInt` makes of the posted text |
| AddProfessional.PickedIdsRecorded | src/components/AddProfessionalForm.jsx:110-111 | Non-zero numeric ids are recorded as those numbers and a zero id as null |
| EditService.InitialDraft | src/components/EditServiceForm.jsx:4-12 | The draft has exactly the seven fields, each the service's value when truthy and '' otherwise |
| EditService.Updated | src/components/EditServiceForm.jsx:36 | The updated record has the properties of the service and of the draft |
| EditService.EditServiceForm.constructor | src/components/EditServiceForm.jsx:4-13 | The form opens on the initial draft with no error |
| EditService.EditServiceForm.Change | src/components/EditServiceForm.jsx:21-23 | The draft changes only in the named field |
| EditService.EditServiceForm.Submit | src/components/EditServiceForm.jsx:25-41 | The draft is sent to the service's path. On success the service updated with the draft is handed back and the modal closes. On failure 'Failed to update service' or the thrown message is shown and nothing is handed back |
| EditService.ChangeKeepsFields | src/components/EditServiceForm.jsx:21-23 | Editing an input keeps the draft at exactly its seven fields |
| EditService.UpdateKeepsOtherProperties | src/components/EditServiceForm.jsx:36 | The update takes the draft fields from the draft and keeps every other property of the service, its id included |
| EditService.SaveWithoutEdits | src/components/EditServiceForm.jsx:4-36 | Saving without edits keeps every truthy property and turns only the falsy draft fields into '' |
| EditProfessional.InitialDraft | src/components/EditProfessionalForm.jsx:4-12 | The status falls back to 'pending', the document type is 'PAN Card', no file is chosen, and the other fields fall back to '' |
| EditProfessional.AfterFirstComma | src/components/EditProfessionalForm.jsx:72 | The piece after the first comma holds no comma |
| EditProfessional.BuildPayload | src/components/EditProfessionalForm.jsx:64-74 | The appends produce the payload: six fields always, then the file's piece when a file is chosen |
| EditProfessional.EditProfessionalForm.constructor | src/components/EditProfessionalForm.jsx:4-16 | The form opens on the initial draft, with empty lists, no error, and a preview of the stored file or null |
| EditProfessional.EditProfessionalForm.Fetched | src/components/EditProfessionalForm.jsx:19-35 | Ok responses replace the lists and non-ok ones are skipped. A thrown request shows 'Failed to fetch services or users', and a throw on the first request skips the second. Nothing else in the form state changes |
| EditProfessional.EditProfessionalForm.Change | src/components/EditProfessionalForm.jsx:39-41 | The draft changes only in the named field. Nothing else in the form state changes |
| EditProfessional.EditProfessionalForm.PickFile | src/components/EditProfessionalForm.jsx:43-58 | An image of an allowed type becomes the draft's file and the preview. Any other type leaves the draft and sets 'Only JPEG, PNG, or JPG images are allowed'. No file changes nothing. Nothing else in the form state changes |
| EditProfessional.EditProfessionalForm.Submit | src/components/EditProfessionalForm.jsx:60-87 | The payload is sent to the professional's path. On success the server's answer, not the draft, is handed back and the modal closes. On failure the message is set and nothing is handed back. Nothing else in the form state changes |
| EditProfessional.PayloadFields | src/components/EditProfessionalForm.jsx:65-74 | The six fields are always sent in order, the file exactly when chosen, and a falsy bio or experience as '' |
| EditProfessional.OpeningPayload | src/components/EditProfessionalForm.jsx:4-70 | The opening draft sends no file, the document type 'PAN Card', and status 'pending' when the professional has none |
| EditProfessional.SentFileIsBase64 | src/components/EditProfessionalForm.jsx:72 | For a data URL with one comma, the part after the comma is the piece sent |
| EditProfessional.NoCommaSendsUndefined | src/components/EditProfessionalForm.jsx:72-73 | A data URL without a comma sends the text 'undefined' |
| EditProfessional.PickedFileIsSent | src/components/EditProfessionalForm.jsx:53-73 | A chosen image's base64 part is what the form data carries for the file |
| ListCache.Append | src/pages/Dashboard.jsx:120-122 | Adding puts the new record last and keeps the others |
| ListCache.ReplaceById | src/pages/Dashboard.jsx:124-128 | The update replaces every record with the updated record's id, keeping length and every other record |
| ListCache.RemoveById | src/pages/Dashboard.jsx:137 | The records kept are exactly those without the id, and the list is unchanged when none has it |
| ListCache.RemoveByIdConcat | src/pages/Dashboard.jsx:137 | Removing by id keeps the order of what remains |
| ListCache.RemoveAbsentId | src/pages/Dashboard.jsx:137 | Deleting an id that is not present leaves the list unchanged |
| ListCache.RemoveAfterAppend | src/pages/Dashboard.jsx:120-137 | Adding a record and deleting its id is the same as deleting that id alone |
| ListCache.RemoveAfterReplace | src/pages/Dashboard.jsx:124-137 | Updating a record and deleting its id is the same as deleting it alone |
| ListCache.ReplaceIdempotent | src/pages/Dashboard.jsx:124-128 | Applying the same update twice is applying it once |
| ListCache.Filter | src/pages/Dashboard.jsx:189 | A filter keeps exactly the elements that pass, never more than there were, and everything when all pass |
| ListCache.FilterConcat | src/pages/Dashboard.jsx:189 | Filtering keeps relative order |
| ListCache.Preview | src/pages/Dashboard.jsx:190-191 | A preview is the first min(3, n) items |
| ListCache.PreviewAfterAppend | src/pages/Dashboard.jsx:190-191 | Adding to a list of three or more leaves its preview as it was; a shorter list shows whole |
| ListCache.ViewAllIffPreviewShort | src/pages/Dashboard.jsx:273 | "View All" is offered exactly when the preview leaves something out |
| ListCache.PendingBookings | src/pages/Dashboard.jsx:189 | The pending bookings are exactly the bookings whose status is 'pending' |
| ListCache.ActivePreview | src/pages/Dashboard.jsx:189 | The active preview holds at most three bookings, all pending and from the list |
| ListCache.ActivePreviewOrder | src/pages/Dashboard.jsx:189 | Non-pending bookings in front do not change the active preview, and a pending one in front comes first |
| ListCache.BookingsViewAllIffPendingHidden | src/pages/Dashboard.jsx:239 | The bookings "View All" appears exactly when the active preview leaves out a pending booking |
| Dashboard.DashboardPage.constructor | src/pages/Dashboard.jsx:66-75 | All three lists and the error start empty |
| Dashboard.DashboardPage.BookingsFetched | src/pages/Dashboard.jsx:79-89 | An ok response replaces the bookings; a failure shows 'Failed to fetch bookings' or the thrown message |
| Dashboard.DashboardPage.ServicesFetched | src/pages/Dashboard.jsx:91-101 | An ok response replaces the services; a failure shows 'Failed to fetch services' or the thrown message |
| Dashboard.DashboardPage.ProfessionalsFetched | src/pages/Dashboard.jsx:103-113 | An ok response replaces the professionals; a failure shows 'Failed to fetch professionals' or the thrown message |
| Dashboard.DashboardPage.AddService | src/pages/Dashboard.jsx:120-122 | The service is appended and the other lists are unchanged. The program never calls this handler |
| Dashboard.DashboardPage.UpdateService | src/pages/Dashboard.jsx:124-128 | Services with the same `service_id` are replaced |
| Dashboard.DashboardPage.DeleteService | src/pages/Dashboard.jsx:130-141 | On an ok response the services with the id are removed. Otherwise the list is unchanged and 'Failed to delete service' or the thrown message is shown |
| Dashboard.DashboardPage.AddProfessional | src/pages/Dashboard.jsx:143-145 | The professional is appended and the other lists are unchanged. The program never calls this handler |
| Dashboard.DashboardPage.UpdateProfessional | src/pages/Dashboard.jsx:147-153 | Professionals with the same `professional_id` are replaced |
| Dashboard.DashboardPage.DeleteProfessional | src/pages/Dashboard.jsx:155-166 | On an ok response the professionals with the id are removed. Otherwise the list is unchanged and the error is set |
| Dashboard.DashboardPage.UpdateBooking | src/pages/Dashboard.jsx:168-174 | Bookings with the same `booking_id` are replaced |
| Dashboard.DashboardPage.DeleteBooking | src/pages/Dashboard.jsx:176-187 | On an ok response the bookings with the id are removed. Otherwise the list is unchanged and the error is set |
| Dashboard.DashboardPage.View | src/pages/Dashboard.jsx:189-191 | The page shows the active preview and the first three services and professionals. "View All" is shown for bookings when more than three are pending, and for services and professionals when there are more than three |
| AllBookings.AllBookingsPage.constructor | src/pages/AllBookings.jsx:7-9 | The list and the error start empty |
| AllBookings.AllBookingsPage.Fetched | src/pages/AllBookings.jsx:12-22 | An ok response replaces the bookings; a failure shows 'Failed to fetch bookings' or the thrown message |
| AllBookings.AllBookingsPage.UpdateBooking | src/pages/AllBookings.jsx:26-32 | Bookings with the same `booking_id` are replaced, keeping length and the others |
| AllBookings.AllBookingsPage.DeleteBooking | src/pages/AllBookings.jsx:34-45 | On an ok response the bookings with the id are removed in order. Otherwise the list is unchanged and the error is set |
| AllBookings.AllBookingsPage.Displayed | src/pages/AllBookings.jsx:48 | The page shows every booking, whatever its status |

## Left out

- Network requests are parameters (`Reply`), and clock readings are `now` or
  `createdAt` parameters. The base URL from the environment and the exact
  response codes are not modelled.
- These are not modelled:
  - the 2-second auto-close timers of the add forms;
  - the interval registration and the document activity listeners, which
    become the `Tick` and `Activity` methods;
  - `alert`, the click-outside handler of the pickers, and `console.log`.
- Modal visibility and the selected card on the dashboard and the
  all-bookings page are presentation state and are not modelled. Nor are the
  booking statistics chart, whose numbers are constants, and the circular
  progress geometry.
- The login component is remounted whenever the session locks. The
  `LoginForm` constructor stands for that remount.
- File reading is asynchronous browser I/O. `PickFile` takes the data URL the
  reader would produce and applies it at once, so the stale draft captured by
  the reader callback is not modelled.
- AddService.NewService: `service_price` is kept as the typed text rather than
  `parseFloat` of it, because floating point is not modelled.
- `toFixed(2)` price display on the cards and in the modal is left out for the
  same reason.
- AddService.CategoryValue: `parseInt` without a radix is modelled as decimal,
  so hexadecimal `0x` prefixes are not read. The select only offers 1, 2 and 3.
- AddProfessional.ParsedId: the ids are read as decimal. `parseInt` without a
  radix reads a string id with a `0x` prefix as hexadecimal ("0x1F" gives 31),
  but the model gives 0 for it. The ids are set from the `service_id` and
  `user_id` properties of the fetched records.
- ServiceCard.FormatDuration: durations are integers, and an absent one
  formats as `0 min`. Fractional or string-valued durations and JavaScript
  number precision are not modelled.
- AddService.SentDurationReadsBack: durations are unbounded integers. A
  JavaScript number is an exact integer only up to 2^53, and from 1e21 on
  `String` writes it in exponent form ("1e+21", which `parseInt` reads back as
  1). So the read-back is stated for exact integer arithmetic, not for such
  large durations.
- Records.ToText: integers are written in plain decimal at every size. The
  exponent form of large numbers and the 2^53 precision limit are not
  modelled.
- Text.Lower: lower-casing covers ASCII letters only, with no Unicode case
  mapping.
- AddProfessional.FilteredServices: a truthy title that is not a string
  (calling `toLowerCase` on it throws) is treated as its text.
- ListCache.HasId: ids are compared by value. JavaScript `===` differs for
  `NaN`, which is never equal to itself, and for arrays, which compare by
  reference.
- Date formatting (`toISOString`) is the `createdAt` parameter.
- HTML `required` attributes, which stop a submit in the browser before the
  handler runs, are not modelled. The handlers are modelled as if always
  reached.
