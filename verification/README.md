# eliteDecor client: a Dafny model of its page logic

eliteDecor is a React single-page client for a decoration-booking business:
customers browse services, book them and pay; admins manage services,
bookings and users; decorators update the status of their projects. Almost
all of it is markup around REST calls. This project models the decision and
transformation code inside twelve of its components, and proves what that
code guarantees:

- the admin route guard;
- the dashboard layout's role-driven menu, badge and loading gate;
- the sign-in page's return path, field rules and sign-in handler;
- the service page's booking modal and submit handler;
- the admin pages for bookings, users and services;
- the decorator's projects page;
- the public services list with its debounced search;
- the customer's bookings and payment-history pages;
- the payment-return page.

Each component is one module. Pure helpers are functions. React state
becomes the fields of a class, and event handlers become methods that
update them. Inputs from outside the component are parameters:

- the outcome of a network call;
- the answer to `window.confirm`;
- the current day, with the time zone that decides it;
- the firing of a timer.

Three shared modules hold what the pages have in common:

- Common: optional values, JavaScript truthiness and `||`, navigation and toast effects, the booking record, query-parameter lists;
- JsStrings: `trim`, `split`, `join` and `slice(-n)`;
- Seqs: `filter` with its partition and order lemmas.

Where a handler's code and its evident intent part ways, both are modelled.
The version as written carries a counterexample. The corrected version
carries the intended property (see "Findings").

## Model

| member | source | states |
|---|---|---|
| Common.OrElse | src/pages/Auth/Login.jsx:15 | `s \|\| fallback` on an optional string: the value when present and non-empty, else the fallback |
| Common.AppendIf | src/pages/admin/ManageBookings.jsx:22-23 | a conditional `params.append` adds exactly the one pair when its condition holds and nothing otherwise |
| Common.Names | src/pages/admin/ManageBookings.jsx:21-23 | the parameter names of a query, position by position |
| JsStrings.TrimStart | src/pages/admin/ManageServices.jsx:99 | strips exactly the leading JavaScript whitespace: the result is a suffix, starts with non-whitespace, and everything dropped is whitespace |
| JsStrings.TrimEnd | src/pages/admin/ManageServices.jsx:99 | the same at the end: a prefix, ends with non-whitespace, and only whitespace dropped |
| JsStrings.Trim | src/pages/admin/ManageServices.jsx:99 | `trim()` yields a string with no whitespace at either end, drawn from the input, and leaves an already trimmed string unchanged |
| JsStrings.TrimIsSlice | src/pages/admin/ManageServices.jsx:99 | `trim()` keeps one contiguous slice of the input with only whitespace outside it; with the result trimmed, exactly the surrounding whitespace goes |
| JsStrings.TrimSkipsLeadingSpace | src/pages/admin/ManageServices.jsx:99 | a leading space never survives `trim()` |
| JsStrings.Split | src/pages/admin/ManageServices.jsx:99 | `split(sep)` returns at least one piece and no piece contains the separator |
| JsStrings.SplitAtSeparator | src/pages/services/ServicesDetails.jsx:260 | splitting `a + sep + b` with a separator-free `a` gives `a` followed by the pieces of `b` |
| JsStrings.SplitWithoutSeparator | src/pages/admin/ManageServices.jsx:99 | a separator-free string splits into itself alone |
| JsStrings.SplitCons | src/pages/admin/ManageServices.jsx:99 | a leading non-separator character joins the first piece |
| JsStrings.JoinSplit | src/pages/admin/ManageServices.jsx:99 | joining the pieces with the separator rebuilds the string |
| JsStrings.SplitJoin | src/pages/admin/ManageServices.jsx:119 | splitting a join of separator-free pieces gives the pieces back |
| JsStrings.Utf16Length | src/pages/Auth/Login.jsx:77-80 | JavaScript's `length`: between one and two code units per character, and one per character exactly when none lies outside the Basic Multilingual Plane |
| JsStrings.TakeLast | src/pages/Dashboard/PaymentHistory.jsx:82 | `slice(-n)` is the suffix of length `min(len, n)` |
| Seqs.Filter | src/pages/decorator/AssignedProjects.jsx:79-84 | `filter` keeps exactly the elements satisfying the condition, all drawn from the input, none longer than it |
| Seqs.FilterAppend | src/pages/decorator/AssignedProjects.jsx:79-84 | filtering distributes over concatenation, so relative order is kept |
| Seqs.FilterPartition | src/pages/decorator/AssignedProjects.jsx:79-84 | a filter and the filter of the negated condition split a list: lengths and multisets add up |
| AdminRoute.Guard | src/Routes/AdminRoute.jsx:9-41 | exactly one of four outcomes, each with its iff: spinner while either flag loads; redirect to /login with replace and no `from` state for a guest; Access Denied with a link to "/" for any role other than "admin"; the children otherwise |
| AdminRoute.LoadingHidesEverything | src/Routes/AdminRoute.jsx:9-15 | while loading, the outcome depends on neither the user nor the role |
| DashboardLayout.MenuItems | src/layout/DashboardLayout.jsx:40-87 | 7 entries for "admin", 5 for "decorator", 3 for any other role; the user entries come first, then one divider only; after it an admin gets exactly Manage Services, Manage Bookings and Manage Users, a decorator exactly Assigned Projects; no two links share a path (React keys, line 211) |
| DashboardLayout.UserMenuHasNoManageLink | src/layout/DashboardLayout.jsx:40-54 | none of the three user entries links under "/dashboard/manage-" |
| DashboardLayout.MenuAccessByRole | src/layout/DashboardLayout.jsx:40-87 | the menu links to an admin page iff the role is "admin", and to "/decorator" iff the role is "decorator" |
| DashboardLayout.RoleBadge | src/layout/DashboardLayout.jsx:90-94 | badge-error iff admin, badge-warning iff decorator, badge-primary otherwise |
| DashboardLayout.RoleLabel | src/layout/DashboardLayout.jsx:97-101 | ADMIN iff admin, DECORATOR iff decorator, USER otherwise |
| DashboardLayout.DashboardTitle | src/layout/DashboardLayout.jsx:130-135 | the heading follows the same three-way choice |
| DashboardLayout.RoleChoicesAgree | src/layout/DashboardLayout.jsx:83-101 | badge, label, heading and menu always agree on the role: the ADMIN label goes with the admin menu, DECORATOR with the decorator menu, USER with the user entries alone |
| DashboardLayout.Render | src/layout/DashboardLayout.jsx:103-109 | nothing but the spinner while auth or role is loading; afterwards the role's menu, badge, label and heading |
| DashboardLayout.ResolveRole | src/layout/DashboardLayout.jsx:35 | a missing record, missing role or empty role resolves to "user"; the resolved role is never empty |
| DashboardLayout.RoleFetchStarts | src/layout/DashboardLayout.jsx:27-31 | the role fetch starts iff a user with a non-empty email is signed in |
| DashboardLayout.RoleState.constructor | src/layout/DashboardLayout.jsx:23-24 | role "user" and the loading flag set |
| DashboardLayout.RoleState.FetchUserRole | src/layout/DashboardLayout.jsx:33-37 | a resolved fetch sets the resolved role and clears the loading flag; a rejected one changes nothing, so the spinner stays |
| Login.ReturnTarget | src/pages/Auth/Login.jsx:15 | the `from` pathname when present and non-empty, else "/"; never empty |
| Login.AdminRedirectReturnsHome | src/Routes/AdminRoute.jsx:17-19 | the guard's redirect carries no `from`, so sign-in afterwards returns to "/" |
| Login.EmailError | src/pages/Auth/Login.jsx:56 | the email is rejected iff empty, with "Email is required" |
| Login.PasswordError | src/pages/Auth/Login.jsx:75-81 | accepted iff at least 6 UTF-16 code units; "Password is required" when empty, "Minimum 6 characters" when short; 6 characters always suffice |
| Login.AstralPasswordAccepted | src/pages/Auth/Login.jsx:77-80 | three emoji make six code units and meet the minimum length |
| Login.FormAccepted | src/pages/Auth/Login.jsx:46 | the handler runs iff the email is non-empty and the password has at least 6 code units |
| Login.HandleLogin | src/pages/Auth/Login.jsx:23-31 | success toasts and navigates to the return target with replace; failure toasts "Login failed" and does not navigate |
| ServiceDetails.View | src/pages/services/ServicesDetails.jsx:77-96 | spinner iff loading; "Service not found" iff loaded with an error or no service; otherwise the details of exactly that service |
| ServiceDetails.MinBookingDateIsToday | src/pages/services/ServicesDetails.jsx:260 | for an ISO timestamp `date + "T" + time` the date input's lower bound is `date` |
| ServiceDetails.BookingModal.constructor | src/pages/services/ServicesDetails.jsx:16-21 | modal closed, both fields empty, not submitting |
| ServiceDetails.BookingModal.Open | src/pages/services/ServicesDetails.jsx:182 | "Book Now" opens the modal |
| ServiceDetails.BookingModal.Edit | src/pages/services/ServicesDetails.jsx:255-278 | the inputs set the date and the location |
| ServiceDetails.BookingModal.HandleBookingSubmitAsWritten | src/pages/services/ServicesDetails.jsx:36-75 | the handler as written: user check first, then field check, neither posts; the posted booking copies the user's email and name and the service's id, name and cost, with status and payment status "pending"; a truthy response closes the modal and navigates to the bookings list; a rejected post leaves `submitting` set |
| ServiceDetails.BookingModal.HandleBookingSubmit | src/pages/services/ServicesDetails.jsx:36-75 | the same handler with `submitting` cleared after every post |
| ServiceDetails.BookingModal.Cancel | src/pages/services/ServicesDetails.jsx:311-313 | Cancel, enabled only while not submitting, closes the modal |
| ServiceDetails.RejectedPostLocksModal | src/pages/services/ServicesDetails.jsx:66-74 | counterexample: a rejected post leaves the modal open with both buttons disabled |
| ServiceDetails.RejectedPostLeavesModalUsable | src/pages/services/ServicesDetails.jsx:66-74 | with the corrected handler the same run leaves the modal usable |
| ManageBookings.BookingsQuery | src/pages/admin/ManageBookings.jsx:21-23 | `status` iff its filter is not "all", `paid` likewise, in that order and with their values |
| ManageBookings.FindByEmail | src/pages/admin/ManageBookings.jsx:77 | `find` returns the first decorator with that email, and nothing iff there is none |
| ManageBookings.AssignCellFor | src/pages/admin/ManageBookings.jsx:211-225 | the assign button iff no decorator is assigned, enabled iff paid; otherwise the "Assigned" mark |
| ManageBookings.SubmitDisabled | src/pages/admin/ManageBookings.jsx:295 | submit is enabled iff nothing is pending and the active-decorator list is non-empty |
| ManageBookings.AssignModal.constructor | src/pages/admin/ManageBookings.jsx:13-15 | modal closed, nothing selected |
| ManageBookings.AssignModal.HandleAssignClick | src/pages/admin/ManageBookings.jsx:60-67 | an unpaid booking gets the error toast and changes nothing; a paid one is selected and the modal opens; the modal only ever holds a paid booking |
| ManageBookings.AssignModal.SelectDecorator | src/pages/admin/ManageBookings.jsx:262 | the select sets the chosen email |
| ManageBookings.AssignModal.HandleAssignSubmit | src/pages/admin/ManageBookings.jsx:69-84 | no selection: toast and no mutation; otherwise the mutation names the selected paid booking and the list entry with the selected email, or a TypeError when no entry has it |
| ManageBookings.AssignModal.CloseAssignModal | src/pages/admin/ManageBookings.jsx:283-287 | Cancel and success close the modal and clear both selections |
| ManageUsers.UsersQuery | src/pages/admin/ManageUsers.jsx:19-21 | `role` iff the filter is not "all", `searchText` iff non-empty, in that order and with their values |
| ManageUsers.ToggledStatus | src/pages/admin/ManageUsers.jsx:63 | "active" becomes "inactive"; anything else, a missing status included, becomes "active" |
| ManageUsers.ToggleInvolution | src/pages/admin/ManageUsers.jsx:63 | on the two real statuses, toggling twice is the identity |
| ManageUsers.ActionWord | src/pages/admin/ManageUsers.jsx:64 | "enable" iff the new status is "active", else "disable" |
| ManageUsers.MakeDecoratorRequest | src/pages/admin/ManageUsers.jsx:56-60 | the promotion is sent iff confirmed, for that email |
| ManageUsers.ToggleStatusRequest | src/pages/admin/ManageUsers.jsx:62-69 | the question names the action; the toggled status is sent iff confirmed |
| ManageUsers.ToggleAsksWhatItDoes | src/pages/admin/ManageUsers.jsx:62-69 | a confirmed toggle disables an active decorator and enables any other, asking with the matching verb |
| ManageUsers.RowActionsFor | src/pages/admin/ManageUsers.jsx:208-235 | promote iff role "user", toggle iff role "decorator", never both, nothing for admins |
| ManageUsers.UserSearch.constructor | src/pages/admin/ManageUsers.jsx:12-13 | both search fields empty |
| ManageUsers.UserSearch.Type | src/pages/admin/ManageUsers.jsx:108 | typing changes the input only, never the applied search |
| ManageUsers.UserSearch.Submit | src/pages/admin/ManageUsers.jsx:71-74 | submitting applies the input |
| ManageUsers.UserSearch.Query | src/pages/admin/ManageUsers.jsx:19-21 | the query filters by text iff the applied search is non-empty |
| ManageServices.TrimEach | src/pages/admin/ManageServices.jsx:99 | every piece trimmed, position by position |
| ManageServices.DropEmpty | src/pages/admin/ManageServices.jsx:99 | `filter(Boolean)` keeps only non-empty pieces of the input, and every non-empty piece |
| ManageServices.DropEmptyIsFilter | src/pages/admin/ManageServices.jsx:99 | dropping the empty pieces is the general filter with the non-empty condition |
| ManageServices.DropEmptyAppend | src/pages/admin/ManageServices.jsx:99 | dropping empty pieces distributes over concatenation, so the features keep their order and multiplicity |
| ManageServices.ParseFeatures | src/pages/admin/ManageServices.jsx:99 | every parsed feature is non-empty, trimmed and comma-free |
| ManageServices.ParseSkipsLeadingSpace | src/pages/admin/ManageServices.jsx:99 | a space before the text does not change the parse |
| ManageServices.ParseAtComma | src/pages/admin/ManageServices.jsx:99 | a proper feature before a comma parses on its own |
| ManageServices.ParseShort | src/pages/admin/ManageServices.jsx:99 | the empty text parses to no features, one proper feature to itself |
| ManageServices.JoinStep | src/pages/admin/ManageServices.jsx:119 | joining with ", " puts a comma and a space between features |
| ManageServices.ParseJoinStep | src/pages/admin/ManageServices.jsx:99 | a proper feature in front of a list that round-trips keeps the round trip |
| ManageServices.ParseJoinEmpty | src/pages/admin/ManageServices.jsx:99 | joining no features gives text that parses to no features |
| ManageServices.ParseJoinSingle | src/pages/admin/ManageServices.jsx:99 | one proper feature, joined, parses back to itself |
| ManageServices.ParseJoin | src/pages/admin/ManageServices.jsx:99 | parsing inverts joining with ", " on proper features |
| ManageServices.FeaturesRoundTrip | src/pages/admin/ManageServices.jsx:119 | the features text the edit form gets parses back to the same list on save |
| ManageServices.ParseIdempotent | src/pages/admin/ManageServices.jsx:99 | a second edit-and-save leaves the features as the first one did |
| ManageServices.CategoryAccepted | src/pages/admin/ManageServices.jsx:292-304 | the required select accepts exactly wedding, home, office, seminar and meeting |
| ManageServices.DeleteRequest | src/pages/admin/ManageServices.jsx:124-128 | the delete is sent iff confirmed, for that id |
| ManageServices.ServiceForm.constructor | src/pages/admin/ManageServices.jsx:13-24 | a blank form in a closed modal |
| ManageServices.ServiceForm.ResetForm | src/pages/admin/ManageServices.jsx:80-91 | all seven fields empty and nothing being edited |
| ManageServices.ServiceForm.OpenForCreate | src/pages/admin/ManageServices.jsx:148-152 | "Add Service" opens a blank form |
| ManageServices.ServiceForm.OpenAsIs | src/pages/admin/ManageServices.jsx:224-225 | the empty list's button opens the modal without a reset |
| ManageServices.ServiceForm.HandleEdit | src/pages/admin/ManageServices.jsx:110-122 | the service is being edited and its fields are in the form, "" for a missing image, the joined text for the features |
| ManageServices.ServiceForm.SubmittedData | src/pages/admin/ManageServices.jsx:96-101 | the sent data carries the parsed features, all proper, and the user's email as creator |
| ManageServices.ServiceForm.SelectCategory | src/pages/admin/ManageServices.jsx:292-304 | the select sets one of its options, and the form's category is acceptable iff it is not the placeholder |
| ManageServices.ServiceForm.HandleSubmit | src/pages/admin/ManageServices.jsx:93-108 | an update of the edited service's id iff editing, otherwise a create, never both; the data sent has one of the five categories, as the select's `required` (line 296) lets no other through |
| ManageServices.ServiceForm.CloseAndReset | src/pages/admin/ManageServices.jsx:55-60 | success and Cancel close the modal and blank the form |
| AssignedProjects.StatusesDistinct | src/pages/decorator/AssignedProjects.jsx:17-24 | six distinct statuses from "assigned" to "completed" |
| AssignedProjects.DisplayStatus | src/pages/decorator/AssignedProjects.jsx:139 | the project's status when present and non-empty, else "assigned" |
| AssignedProjects.StatusBadge | src/pages/decorator/AssignedProjects.jsx:133-138 | success iff completed, warning iff setup in progress, info otherwise |
| AssignedProjects.TodaysProjects | src/pages/decorator/AssignedProjects.jsx:79-81 | exactly the projects whose day is today |
| AssignedProjects.OtherProjects | src/pages/decorator/AssignedProjects.jsx:82-84 | exactly the projects whose day is not today |
| AssignedProjects.TodayOtherPartition | src/pages/decorator/AssignedProjects.jsx:78-84 | every project lands in exactly one list; lengths and multisets add up |
| AssignedProjects.TodayOtherKeepOrder | src/pages/decorator/AssignedProjects.jsx:78-84 | both lists keep the projects' relative order |
| AssignedProjects.StatusModal.constructor | src/pages/decorator/AssignedProjects.jsx:13-15 | modal closed, nothing selected, no status |
| AssignedProjects.StatusModal.HandleUpdateStatus | src/pages/decorator/AssignedProjects.jsx:55-59 | the project is selected, its displayed status preselected, the modal open |
| AssignedProjects.StatusModal.ChangeStatus | src/pages/decorator/AssignedProjects.jsx:244-255 | the select sets any of the six statuses |
| AssignedProjects.StatusModal.HandleStatusSubmit | src/pages/decorator/AssignedProjects.jsx:61-67 | the selected status is sent for the selected project |
| AssignedProjects.StatusModal.Close | src/pages/decorator/AssignedProjects.jsx:261-265 | Cancel and success close the modal and clear the selection and the status |
| AssignedProjects.AnyStatusIsSent | src/pages/decorator/AssignedProjects.jsx:244-255 | whatever the current status, any listed status can be sent, a move back included |
| AssignedProjects.UntouchedSelectResendsStatus | src/pages/decorator/AssignedProjects.jsx:55-67 | submitting untouched sends the displayed status back |
| Services.ServicesQuery | src/pages/services/services.jsx:33-36 | `search`, `category` and `sort` each present iff non-empty, with their values, in that order: the search first, the sort last |
| Services.ShowClearButton | src/pages/services/services.jsx:167 | the clear button is shown iff search, category or sort is non-empty |
| Services.ClearButtonIffFiltered | src/pages/services/services.jsx:167 | the button is shown exactly when the list query filters anything |
| Services.FirstIndex | src/pages/services/services.jsx:49-51 | the position of a value's first occurrence |
| Services.FirstIndexSnoc | src/pages/services/services.jsx:49-51 | appending leaves earlier first occurrences in place |
| Services.DistinctSnoc | src/pages/services/services.jsx:49-51 | a value seen before adds nothing to the distinct list, a new one goes at its end, and the order of first occurrence is kept |
| Services.Dedupe | src/pages/services/services.jsx:49-51 | `[...new Set(xs)]`: no duplicates, the same values, in order of first occurrence |
| Services.Categories | src/pages/services/services.jsx:50 | each service's category, position by position |
| Services.UniqueCategories | src/pages/services/services.jsx:49-51 | every service's category once, and only those, in order of first appearance |
| Services.ServiceFilters.constructor | src/pages/services/services.jsx:11-22 | all fields empty, and the mount effect's timer armed for "" |
| Services.ServiceFilters.OnSearchInputChange | src/pages/services/services.jsx:17-22 | a new input cancels the pending timer and arms one for itself; the applied search does not change |
| Services.ServiceFilters.TimerFires | src/pages/services/services.jsx:18-20 | the timer copies the input into the search |
| Services.ServiceFilters.SelectCategory | src/pages/services/services.jsx:138 | the select sets the category |
| Services.ServiceFilters.SelectSort | src/pages/services/services.jsx:156-161 | the sort is one of "", "price_asc", "price_desc" |
| Services.ServiceFilters.ClearFilters | src/pages/services/services.jsx:57-62 | all four fields become ""; the clear button disappears |
| Services.ServiceFilters.Settle | src/pages/services/services.jsx:17-22 | once the timer has fired, the search has caught up with the input |
| Services.ServiceFilters.Query | src/pages/services/services.jsx:33-36 | an applied non-empty search is the first parameter, and the query is empty exactly when the "Clear Filters" button is hidden |
| Services.Burst | src/pages/services/services.jsx:17-22 | after a burst of inputs only the last reaches the search, and none does while the burst lasts |
| MyBookings.StatusBadge | src/pages/Dashboard/MyBookings.jsx:42-49 | warning iff pending, success iff confirmed, error iff cancelled, ghost otherwise |
| MyBookings.PendingCount | src/pages/Dashboard/MyBookings.jsx:78 | the pending counter is at most the total, and zero iff no booking is pending |
| MyBookings.CompletedCount | src/pages/Dashboard/MyBookings.jsx:84 | the completed counter is at most the total, and zero iff no project is completed |
| MyBookings.PendingAndRestMakeTotal | src/pages/Dashboard/MyBookings.jsx:73-79 | pending and non-pending bookings add up to the total |
| MyBookings.CountsAdd | src/pages/Dashboard/MyBookings.jsx:78-84 | both counters add up over a split of the list |
| MyBookings.PayNowShown | src/pages/Dashboard/MyBookings.jsx:173 | "Pay Now" iff unpaid and pending |
| MyBookings.CancelShown | src/pages/Dashboard/MyBookings.jsx:179 | "Cancel" iff pending |
| MyBookings.CancelIgnoresPayment | src/pages/Dashboard/MyBookings.jsx:173-179 | Pay Now implies Cancel, and Cancel does not depend on payment |
| MyBookings.CancelRequest | src/pages/Dashboard/MyBookings.jsx:36-40 | the cancel is sent iff confirmed, for that booking |
| MyBookings.FetchEnabled | src/pages/Dashboard/MyBookings.jsx:19 | bookings are fetched iff the user has a non-empty email |
| MyBookings.CardsFor | src/pages/Dashboard/MyBookings.jsx:102 | one card per booking, in list order |
| MyBookings.View | src/pages/Dashboard/MyBookings.jsx:51-100 | spinner iff loading, the empty panel iff no bookings, else one card per booking with its id and badge, Pay Now iff unpaid and pending, and Cancel iff pending |
| PaymentSuccess.Decide | src/pages/payment/PaymentSuccess.jsx:16-23 | a verify request iff both ids are truthy, carrying both; otherwise back to the bookings list |
| PaymentSuccess.PaymentReturn.PanelAsWritten | src/pages/payment/PaymentSuccess.jsx:41-83 | the spinner iff verifying, then always the success panel |
| PaymentSuccess.PaymentReturn.Shown | src/pages/payment/PaymentSuccess.jsx:41-83 | the corrected card: spinner iff verifying, failure iff verification failed |
| PaymentSuccess.PaymentReturn.constructor | src/pages/payment/PaymentSuccess.jsx:10 | `verifying` starts true, with nothing sent |
| PaymentSuccess.PaymentReturn.RunEffect | src/pages/payment/PaymentSuccess.jsx:15-36 | one navigation and no request, or exactly one request with both ids |
| PaymentSuccess.PaymentReturn.OnVerifyResolved | src/pages/payment/PaymentSuccess.jsx:24-30 | success toast, `verifying` cleared, one redirect scheduled |
| PaymentSuccess.PaymentReturn.OnVerifyRejectedAsWritten | src/pages/payment/PaymentSuccess.jsx:31-35 | error toast, `verifying` cleared, no redirect |
| PaymentSuccess.PaymentReturn.OnVerifyRejected | src/pages/payment/PaymentSuccess.jsx:31-35 | the corrected catch: the same, and the card reports the failure; success is shown only after a confirmation |
| PaymentSuccess.PaymentReturn.OnRedirectTimer | src/pages/payment/PaymentSuccess.jsx:27-29 | the scheduled redirect goes to the bookings list |
| PaymentSuccess.FailedVerificationShowsSuccess | src/pages/payment/PaymentSuccess.jsx:31-35 | counterexample: a rejected verification shows "Payment Successful!" beside the failure toast |
| PaymentSuccess.FailedVerificationShowsFailure | src/pages/payment/PaymentSuccess.jsx:31-35 | the corrected page reports that failure |
| PaymentSuccess.MissingIdsRedirect | src/pages/payment/PaymentSuccess.jsx:16-19 | a missing id sends the customer back and no request |
| PaymentSuccess.SuccessfulVerification | src/pages/payment/PaymentSuccess.jsx:22-30 | a confirmed payment: one request with both ids, the success panel, then the redirect |
| PaymentHistory.AmountOrZero | src/pages/Dashboard/PaymentHistory.jsx:139 | a missing amount counts as 0 |
| PaymentHistory.ReduceIsSum | src/pages/Dashboard/PaymentHistory.jsx:138-140 | the `reduce` fold adds the sum of the amounts to its start value |
| PaymentHistory.SumAppend | src/pages/Dashboard/PaymentHistory.jsx:138-140 | the total over two halves is the sum of their totals |
| PaymentHistory.NonNegativeSum | src/pages/Dashboard/PaymentHistory.jsx:138-140 | non-negative amounts give a non-negative total |
| PaymentHistory.TotalPaid | src/pages/Dashboard/PaymentHistory.jsx:138-140 | the total paid is the sum of the amounts, non-negative for non-negative amounts |
| PaymentHistory.IdSuffix | src/pages/Dashboard/PaymentHistory.jsx:82-88 | nothing for a missing id, else its suffix of length `min(len, n)` |
| PaymentHistory.StatusText | src/pages/Dashboard/PaymentHistory.jsx:115 | the status when present and non-empty, else "Completed" |
| PaymentHistory.RowsFrom | src/pages/Dashboard/PaymentHistory.jsx:73-75 | rows numbered on from a start value, in list order |
| PaymentHistory.Rows | src/pages/Dashboard/PaymentHistory.jsx:73-119 | one row per payment numbered 1 to n, with the last 6 characters of the booking id, the last 12 of the transaction id, and "Completed" for a missing status |
| PaymentHistory.View | src/pages/Dashboard/PaymentHistory.jsx:17-154 | spinner iff loading, the placeholder iff the list is empty, else the table with a summary of count, total and the first record's date |

## Left out

- Network, caching and the backend: the axios calls, react-query fetching and invalidation, and every server-side rule are left out. Call outcomes are parameters. The server-side rules include assignment validation, forward-only project status and cancel-only-when-unpaid.
- Rendering: markup, CSS beyond the badge and label mappings, icons, animation and toast display are left out. Toasts and navigations are values.
- Browser form validation: `required`, `min` and `type` on inputs block a submit before the handlers run. The model takes handler inputs as given, except for three selects. `ManageServices.ServiceForm.SelectCategory` takes only the category options, and `ManageServices.ServiceForm.HandleSubmit` requires `ManageServices.CategoryAccepted`, as `required` refuses the placeholder. The status and sort selects take only their options.
- JsStrings.TakeLast: `slice(-n)` counts UTF-16 code units, while this counts characters (Unicode scalar values). For an id with characters outside the Basic Multilingual Plane the suffix differs, and a JavaScript slice can split a surrogate pair that a Dafny string cannot hold. Ids are ASCII in practice. Lengths are counted in code units only where the source compares a length, through `JsStrings.Utf16Length` in `Login.PasswordError`.
- Clock and time zone: `new Date()`, `toDateString` and `toISOString` are left out. The projects page takes the day function and today as parameters. The booking page's lower bound is proved for an ISO timestamp string.
- Timers: `setTimeout` is modelled as a pending value or a count of timers to fire, not by elapsed time.
- Numbers: `parseFloat` of the cost, amounts, `toLocaleString` and the taka sign are left out. Costs and amounts are integers; an empty cost field is `None` where the source sends `NaN`. A non-numeric amount that JavaScript would concatenate in the total is not modelled.
- Query strings: the percent-encoding of `URLSearchParams` is left out. A query is its list of name/value pairs.
- MyBookings.StatusBadge: the source looks the status up in a plain object, so an inherited key such as "constructor" would yield a function rather than "badge-ghost". Statuses are taken to be ordinary strings.
- Services.Categories: a service without `service_category` would add `undefined` to the category set. Categories are strings here.
- PaymentHistory.View: the dates shown are left out. `toLocaleDateString` formatting is not modelled; the summary keeps the first record's raw `createdAt`.
- DashboardLayout.RoleState.FetchUserRole: the model records that a rejected role fetch leaves the spinner up for good. The unhandled promise rejection itself is not modelled.
- Files outside these twelve components are not part of this model: the other pages, the route table, the auth provider and the hooks behind `useAuth`, `useRole` and `useAxios`.
- "Pay Now" in MyBookings has no click handler, so only its visibility is modelled.

## Findings

| source | as written | input that shows it | evidently intended | confidence | as-written member | corrected member |
|---|---|---|---|---|---|---|
| src/pages/services/ServicesDetails.jsx:66-74 | the awaited `POST /bookings` is not in a try/finally, so a rejected post skips `setSubmitting(false)` | a signed-in user, both fields filled, and the post rejected (network error or non-2xx) | `submitting` cleared after every outcome, so the modal's buttons are usable again | not executed | ServiceDetails.RejectedPostLocksModal | ServiceDetails.BookingModal.HandleBookingSubmit |
| src/pages/payment/PaymentSuccess.jsx:31-35 | the catch clears `verifying`, and the view then shows "Payment Successful!" and "Your booking has been confirmed and paid" | both ids present and `POST /verify-payment` rejected | after a failed verification the card reports the failure instead of success | not executed | PaymentSuccess.FailedVerificationShowsSuccess | PaymentSuccess.PaymentReturn.OnVerifyRejected |
