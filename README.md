# Zakayo Holdings dashboard — a verified model

Zakayo Holdings is a React dashboard for a group of four subsidiaries: Agrovet, Lubricants, Sembe, and Wine & Spirit. An Owner sees the whole group. A Manager or a Staff member sees only their own subsidiary.

This project models, in Dafny, the logic around that access scope:

- **The session.** `login` looks a seed user up by email and checks a fixed password; `logout` clears the user. `canAccess` decides which subsidiaries the user may see.
- **The four list views:** Orders, Customers, Invoices and Delivery Notes. Each filters its seed records by a case-insensitive search, an optional status, and the three-way subsidiary rule that every view writes out inline. Each also shows small aggregate figures.
- **Creating invoices and delivery notes.**
  - The two forms validate their input, and the invoice form computes subtotal, VAT and total.
  - The two create handlers append a new record in place. Its id is one above the largest, and its number is a zero-padded `INV-year-NNN` / `DN-year-NNN`. It becomes the previewed one.
- **The shell.**
  - The sidebar menu gains a User Management entry for an Owner.
  - The sidebar computes `availableSubsidiaries`, which it does not render. It gives an Owner alone a selector listing every subsidiary, and maps the selector's value to and from the scope.
  - The application pins a non-Owner's scope to their subsidiary and dispatches each tab to its view.
  - User Management is open to Owners only.
- **Smaller pieces:**
  - the notification bell (unread count and mark-as-read);
  - the fixed global search;
  - the CSV export string;
  - the WhatsApp share link with its digits-only phone number;
  - the seed data and the fixed dashboard figures.

## Layout

- **Shared building blocks:** `base.dfy` (module `Base`) and `text.dfy` (module `Text`).
  - `Base` holds `Option` and `Selection` (the "all"-or-one filters), a generic `Filter` with its lemmas, and `SumOf`.
  - `Text` holds the string functions: ASCII `toLowerCase`, `includes`, `String(n)`, `parseInt`, `padStart`, `join` and `split`.
- **One module per source file:** `Access`, `SeedData`, `Orders`, `Customers`, `Invoices`, `DeliveryNotes`, `InvoiceForm`, `DeliveryNoteForm`, `UserManagement`, `Sidebar`, `MainApp`, `Notifications`, `WhatsApp`, `DataExport` and `GlobalSearch`.
- **`Numbering`** holds the document-number format that Invoices and Delivery Notes share.
- **Pure code becomes functions and lemmas.**
- **Code that changes state becomes classes:**
  - the session (`Access.AuthSession`);
  - the invoice and delivery-note lists with their selection (`Invoices.InvoiceStore`, `DeliveryNotes.DeliveryNoteStore`);
  - the two forms (`InvoiceForm.InvoiceFormModel`, `DeliveryNoteForm.DeliveryNoteFormModel`);
  - the application shell (`MainApp.AppShell`);
  - the notification panel (`Notifications.NotificationPanel`).
- **The list views' scope.** In the list views, the scope rule is `Access.ViewRule`: a predicate over the optional role, the optional home subsidiary, the selected scope and a record's subsidiary id. Each view's `ListedIff` lemma shows that the view's filter is exactly its search, its status filter and this rule, joined by "and".
- **Parameters instead of I/O.** The calendar year, today's date, the email check of the form library and `encodeURIComponent` are parameters. So is the user restored from the browser's storage.

## Model

| member | source | states |
|---|---|---|
| Access.CanAccessLoggedOut | src/contexts/AuthContext.tsx:54-55 | with nobody logged in, `canAccess` refuses every subsidiary |
| Access.CanAccessOwner | src/contexts/AuthContext.tsx:56 | an Owner may access every subsidiary id |
| Access.CanAccessNonOwner | src/contexts/AuthContext.tsx:57 | a Manager or Staff member may access a subsidiary iff it is their own; without one, nothing |
| Access.ViewRuleWithinCanAccess | src/components/Orders.tsx:95-100 | whatever the inlined view rule lists is something `canAccess` allows |
| Access.ViewRuleAllIsCanAccess | src/components/Orders.tsx:95-100 | under the "all" scope the inlined rule and `canAccess` agree in both directions |
| Access.ViewRuleIgnoresScopeForNonOwner | src/components/Orders.tsx:96-97 | for a non-Owner the selected scope makes no difference, and a record is in scope iff its subsidiary is the user's |
| Access.ViewRuleLoggedOut | src/components/Orders.tsx:96-97 | with nobody logged in no record is in scope |
| Access.ViewRuleOwner | src/components/Orders.tsx:98-100 | an Owner sees everything under "all", and exactly subsidiary s under s |
| Access.FindByEmail | src/contexts/AuthContext.tsx:42 | `users.find`: the result is the first index with that email; none iff no user has it |
| Access.FindByEmailUnique | src/contexts/AuthContext.tsx:42 | with distinct emails the user found is the only one with that email |
| Access.AuthSession.constructor | src/contexts/AuthContext.tsx:27-38 | the session starts with the seed users and the user restored from storage |
| Access.AuthSession.Login | src/contexts/AuthContext.tsx:40-48 | succeeds iff some user has the email and the password is "password123"; it then sets the first such user; on failure the session is unchanged |
| Access.AuthSession.Logout | src/contexts/AuthContext.tsx:50-52 | afterwards nobody is logged in |
| SeedData.SubsidiaryIds | src/data/mockData.ts:69-98 | the four subsidiaries have ids 1 to 4, pairwise distinct, and those are the only subsidiary ids |
| SeedData.SingleOwner | src/data/mockData.ts:19-67 | the first seed user is the only Owner and has no subsidiary |
| SeedData.StaffHaveSubsidiaries | src/data/mockData.ts:19-67 | every Manager and Staff member belongs to an existing subsidiary |
| SeedData.DistinctEmails | src/data/mockData.ts:19-67 | the seed emails are pairwise distinct |
| SeedData.SeedLoginFinds | src/data/mockData.ts:19-67 | looking up a seed user's email finds that user and no other |
| SeedData.GetDashboardStats | src/data/mockData.ts:101-114 | in both branches, total orders = pending + delivered, and total invoices = paid + pending + overdue |
| SeedData.DashboardStatsPerSubsidiary | src/data/mockData.ts:101-114 | every truthy subsidiary id gets the same figures, each at most the all-subsidiaries figure |
| SeedData.DashboardStatsZeroIsAll | src/data/mockData.ts:101-103 | the falsy id 0 gets the all-subsidiaries figures |
| Orders.ListedIff | src/components/Orders.tsx:88-103 | an order is listed iff it is a seed order matching the search, the status filter and the scope rule |
| Orders.FilteredIsSubsequence | src/components/Orders.tsx:88 | the listed orders keep the seed order |
| Orders.EmptySearchMatches | src/components/Orders.tsx:89-91 | the empty search term matches every order |
| Orders.NonOwnerIgnoresScope | src/components/Orders.tsx:96-97 | for a non-Owner or nobody, the list does not depend on the selected scope and holds only home-subsidiary orders |
| Orders.OwnerAllSeesEverything | src/components/Orders.tsx:93-100 | an Owner with "all", no search and no status filter sees every order |
| Orders.OwnerOnlySeesSelected | src/components/Orders.tsx:98-100 | an Owner who selects s sees only orders of s |
| Orders.StatusCountsPartition | src/components/Orders.tsx:151-179 | the Pending, Delivered and Cancelled counts add up to the number shown, so neither card exceeds it |
| Orders.NonOwnerSeesHome | src/components/Orders.tsx:96-97 | with no search and no status filter, a non-Owner sees exactly the orders of their subsidiary |
| Orders.ManagerSeesOwnSubsidiary | src/components/Orders.tsx:24-103 | the seed Manager of subsidiary 1 sees exactly the first seed order, whatever the scope |
| Customers.ListedIff | src/components/Customers.tsx:74-87 | a customer is listed iff it matches the search and the scope rule; there is no status filter |
| Customers.FilteredIsSubsequence | src/components/Customers.tsx:74 | the listed customers keep the seed order |
| Customers.PhoneMatchIsRaw | src/components/Customers.tsx:77 | a phone that contains the term as typed makes the customer match |
| Customers.NameEmailIgnoreCase | src/components/Customers.tsx:75-76 | terms differing only in case match name and email alike |
| Customers.NonOwnerIgnoresScope | src/components/Customers.tsx:80-81 | for a non-Owner the list does not depend on the scope and holds only home-subsidiary customers |
| Customers.OwnerScope | src/components/Customers.tsx:82-84 | an Owner with "all" sees every customer matching the search; with s only customers of s |
| Customers.ActiveAtMostVisible | src/components/Customers.tsx:118-132 | Active plus Inactive customers are those shown, so the Active card never exceeds the count shown |
| Customers.TotalOrdersOfView | src/components/Customers.tsx:146 | the Total Orders figure of the view plus that of the hidden customers is the overall figure; with non-negative counts, the view's figure is at most the overall one |
| Customers.SeedTotals | src/components/Customers.tsx:21-70 | the seed customers hold 41 orders, and three of them are Active |
| Numbering.SplitDocumentNumber | src/components/Invoices.tsx:188-190 | a document number splits at its dashes into the prefix, the year and the zero-padded sequence part |
| Numbering.SequenceOfNumber | src/components/Invoices.tsx:188-190 | reading a document number back gives the sequence number it was built from |
| Numbering.DocumentNumberInjective | src/components/DeliveryNotes.tsx:184-186 | different sequence numbers give different document numbers, whatever the years |
| Numbering.NumberIn2024 | src/components/Invoices.tsx:188-190 | in 2024 the documents 1 to 9 are numbered PREFIX-2024-001 to PREFIX-2024-009 |
| Invoices.ListedIff | src/components/Invoices.tsx:127-143 | an invoice is listed iff its number or customer matches the search, the status filter matches, and the scope rule holds for its parsed subsidiary |
| Invoices.FilteredIsSubsequence | src/components/Invoices.tsx:127 | the listed invoices keep the list order |
| Invoices.ScopeOfListed | src/components/Invoices.tsx:135-140 | a non-Owner's list ignores the scope and holds only home-subsidiary invoices; an invoice with a NaN subsidiary shows only for an Owner under "all" |
| Invoices.MaxId | src/components/Invoices.tsx:187 | `Math.max` of the ids is at least every id and is one of them |
| Invoices.ItemsOf | src/components/Invoices.tsx:194-199 | one created item per form row, each being that row's item |
| Invoices.ItemsTotalOfForm | src/components/Invoices.tsx:194-199 | the created items' totals add up to the form's subtotal |
| Invoices.CreatedFromFormAddsUp | src/components/Invoices.tsx:194-203 | an invoice built from a submitted form has subtotal = sum of item totals and total = subtotal + tax |
| Invoices.NumbersDistinct | src/components/Invoices.tsx:188-190 | a list numbered in order has pairwise distinct invoice numbers |
| Invoices.SeedIds | src/components/Invoices.tsx:48-115 | the seed invoices have the distinct ids 1, 2 and 3 |
| Invoices.SeedNumber | src/components/Invoices.tsx:48-115 | a seed number INV-2024-00k reads back as k |
| Invoices.SeedNumbers | src/components/Invoices.tsx:48-115 | the seed invoices are numbered 1, 2, 3 in list order |
| Invoices.NewInvoiceContents | src/components/Invoices.tsx:186-207 | the new invoice has an id above every existing id; its number is the next INV-year-NNN and reads back as length + 1; its items are the form rows with total = quantity × unit price; its status is Draft; its subsidiary is `parseInt` of the form's; its other fields are copied |
| Invoices.AppendKeepsNumbering | src/components/Invoices.tsx:211 | appending such a record keeps ids distinct and the list numbered in order |
| Invoices.InvoiceStore.constructor | src/components/Invoices.tsx:48-115 | the store starts with the seed invoices, nothing selected and the preview closed, and is valid |
| Invoices.InvoiceStore.Preview | src/components/Invoices.tsx:175-178 | previewing selects that invoice and opens the preview, leaving the list unchanged |
| Invoices.InvoiceStore.Create | src/components/Invoices.tsx:180-219 | exactly the new invoice is appended at the end, earlier records unchanged; the new one is selected with the preview open; distinct ids and in-order numbering are kept |
| Invoices.CreatedSubsidiaryFromSelect | src/components/Invoices.tsx:206 | a subsidiary picked in the form's select comes back from `parseInt` as that id |
| DeliveryNotes.ListedIff | src/components/DeliveryNotes.tsx:122-139 | a note is listed iff its delivery number, customer or order number matches the search, the status filter matches, and the scope rule holds |
| DeliveryNotes.FilteredIsSubsequence | src/components/DeliveryNotes.tsx:122 | the listed notes keep the list order |
| DeliveryNotes.ScopeOfListed | src/components/DeliveryNotes.tsx:131-136 | a non-Owner's list ignores the scope and holds only home-subsidiary notes; a note with a NaN subsidiary shows only for an Owner under "all" |
| DeliveryNotes.MaxId | src/components/DeliveryNotes.tsx:183 | `Math.max` of the ids is at least every id and is one of them |
| DeliveryNotes.ItemsOf | src/components/DeliveryNotes.tsx:191-195 | one created item per form row, each being that row's item |
| DeliveryNotes.NewNoteContents | src/components/DeliveryNotes.tsx:182-201 | the new note has an id above every existing id; its number is the next DN-year-NNN and reads back as length + 1; its items are the form rows with nothing delivered; its status is Pending; its subsidiary is `parseInt` of the form's; its other fields are copied |
| DeliveryNotes.ItemsFigureOfForm | src/components/DeliveryNotes.tsx:483-486 | the Items figure of rows built from a valid form is at least the number of rows |
| DeliveryNotes.NewNoteFromFormIsPartial | src/components/DeliveryNotes.tsx:600-607 | every item of a freshly created note shows Partial, and its Items figure is at least its number of rows |
| DeliveryNotes.SeedItemsComplete | src/components/DeliveryNotes.tsx:46-109 | every seed item shows Complete, the In Transit note's included |
| DeliveryNotes.SeedItemsFigures | src/components/DeliveryNotes.tsx:483-486 | the seed notes' Items figures are 10, 25 and 50 |
| DeliveryNotes.NumbersDistinct | src/components/DeliveryNotes.tsx:184-186 | a list numbered in order has pairwise distinct delivery numbers |
| DeliveryNotes.SeedIds | src/components/DeliveryNotes.tsx:46-109 | the seed notes have the distinct ids 1, 2 and 3 |
| DeliveryNotes.SeedNumber | src/components/DeliveryNotes.tsx:46-109 | a seed number DN-2024-00k reads back as k |
| DeliveryNotes.SeedNumbers | src/components/DeliveryNotes.tsx:46-109 | the seed notes are numbered 1, 2, 3 in list order |
| DeliveryNotes.AppendKeepsNumbering | src/components/DeliveryNotes.tsx:205 | appending such a note keeps ids distinct and the list numbered in order |
| DeliveryNotes.DeliveryNoteStore.constructor | src/components/DeliveryNotes.tsx:46-109 | the store starts with the seed notes, nothing selected and the preview closed, and is valid |
| DeliveryNotes.DeliveryNoteStore.Preview | src/components/DeliveryNotes.tsx:171-174 | previewing selects that note and opens the preview, leaving the list unchanged |
| DeliveryNotes.DeliveryNoteStore.Create | src/components/DeliveryNotes.tsx:176-213 | exactly the new note is appended at the end, earlier notes unchanged; the new one is selected with the preview open; distinct ids and in-order numbering are kept |
| InvoiceForm.RowErrorsEmpty | src/components/CreateInvoiceForm.tsx:41-49 | the item rows give no error iff every row has a description, quantity ≥ 1 and unit price ≥ 1 |
| InvoiceForm.ValidateEmptyIff | src/components/CreateInvoiceForm.tsx:34-51 | the error list is empty iff the required fields are filled in, the email is well-formed, and there is at least one valid row |
| InvoiceForm.SubtotalAppend | src/components/CreateInvoiceForm.tsx:93-96 | adding a row adds quantity × unit price to the subtotal |
| InvoiceForm.SubtotalRemove | src/components/CreateInvoiceForm.tsx:93-96 | removing a row takes its amount off the subtotal |
| InvoiceForm.SubtotalOfValidItems | src/components/CreateInvoiceForm.tsx:45-46 | the subtotal of accepted rows is at least their number |
| InvoiceForm.TotalByRate | src/components/CreateInvoiceForm.tsx:97-98 | at 0% VAT the total is the subtotal; at 18% the tax is 0.18 × subtotal and the total is 1.18 × subtotal |
| InvoiceForm.AppendBlankKeepsTotals | src/components/CreateInvoiceForm.tsx:246 | appending the blank row leaves the subtotal and the total unchanged |
| InvoiceForm.DefaultSubsidiaryFieldIff | src/components/CreateInvoiceForm.tsx:74 | the default subsidiary field is empty iff the user has no subsidiary, and otherwise parses back to it |
| InvoiceForm.DefaultFormRejected | src/components/CreateInvoiceForm.tsx:70-81 | the fresh form fails validation, among other errors because its row's unit price is 0, and has subtotal 0 |
| InvoiceForm.LineItems | src/components/CreateInvoiceForm.tsx:41-49 | the validated rows as numbers: same length, same rows in order |
| InvoiceForm.Submit | src/components/CreateInvoiceForm.tsx:99-112 | a payload is produced iff validation reports no error |
| InvoiceForm.SubmittedPayload | src/components/CreateInvoiceForm.tsx:99-109 | the payload carries the entered values, with the subsidiary still a string; total = subtotal + tax, the subtotal is at least the number of rows, and 0% VAT gives total = subtotal |
| InvoiceForm.InvoiceFormModel.constructor | src/components/CreateInvoiceForm.tsx:70-89 | the form starts at its default values with VAT 18, its subsidiary select enabled iff the user is an Owner |
| InvoiceForm.InvoiceFormModel.Edit | src/components/CreateInvoiceForm.tsx:138-330 | typing replaces the values and keeps the number of rows and the VAT; the subsidiary changes only for an Owner, since the select is disabled otherwise (line 187), so a non-Owner's stays the default |
| InvoiceForm.InvoiceFormModel.AppendItem | src/components/CreateInvoiceForm.tsx:246 | exactly one blank row is appended; the subtotal is unchanged |
| InvoiceForm.InvoiceFormModel.RemoveItem | src/components/CreateInvoiceForm.tsx:325-326 | row k is removed unless it is the only row; the subtotal drops by its amount |
| InvoiceForm.InvoiceFormModel.SetVat | src/components/CreateInvoiceForm.tsx:351-359 | the VAT becomes 0 or 18 as chosen; the values are unchanged |
| InvoiceForm.InvoiceFormModel.SubmitForm | src/components/CreateInvoiceForm.tsx:99-112 | the payload is `Submit` of the values, carrying the default subsidiary for a non-Owner; on success the form resets to its defaults, otherwise nothing changes; the VAT survives |
| DeliveryNoteForm.RowErrorsEmpty | src/components/CreateDeliveryNoteForm.tsx:43-50 | the item rows give no error iff every row has a description and quantity ≥ 1 |
| DeliveryNoteForm.ValidateEmptyIff | src/components/CreateDeliveryNoteForm.tsx:34-52 | the error list is empty iff all eight text fields are filled in and there is at least one valid row |
| DeliveryNoteForm.NaNQuantityReported | src/components/CreateDeliveryNoteForm.tsx:47 | a row whose quantity is not a number makes the form invalid |
| DeliveryNoteForm.DefaultFormShape | src/components/CreateDeliveryNoteForm.tsx:71-82 | the fresh form has one row of quantity 1; its subsidiary is empty iff the user has none and otherwise parses back to it; it fails validation |
| DeliveryNoteForm.LineItems | src/components/CreateDeliveryNoteForm.tsx:43-50 | the validated rows: same length, same rows in order |
| DeliveryNoteForm.Submit | src/components/CreateDeliveryNoteForm.tsx:89-98 | a payload is produced iff validation reports no error |
| DeliveryNoteForm.SubmitPassesThrough | src/components/CreateDeliveryNoteForm.tsx:89-95 | the payload is the entered values unconverted, the subsidiary still text, every row with a description and quantity ≥ 1 |
| DeliveryNoteForm.DeliveryNoteFormModel.constructor | src/components/CreateDeliveryNoteForm.tsx:71-82 | the form starts at its default values, its subsidiary select enabled iff the user is an Owner |
| DeliveryNoteForm.DeliveryNoteFormModel.Edit | src/components/CreateDeliveryNoteForm.tsx:124-316 | typing replaces the values and keeps the number of rows; the subsidiary changes only for an Owner, since the select is disabled otherwise (line 190), so a non-Owner's stays the default |
| DeliveryNoteForm.DeliveryNoteFormModel.AppendItem | src/components/CreateDeliveryNoteForm.tsx:262 | exactly one blank row of quantity 1 is appended |
| DeliveryNoteForm.DeliveryNoteFormModel.RemoveItem | src/components/CreateDeliveryNoteForm.tsx:317-318 | row k is removed unless it is the only row, so the list never empties |
| DeliveryNoteForm.DeliveryNoteFormModel.SubmitForm | src/components/CreateDeliveryNoteForm.tsx:89-98 | the payload is `Submit` of the values, carrying the default subsidiary for a non-Owner; on success the form resets to its defaults, otherwise nothing changes |
| UserManagement.ViewIff | src/components/UserManagement.tsx:15-31 | only an Owner gets a list; in it, a user is listed iff they match the name/email search and the role filter |
| UserManagement.ListedIsSubsequence | src/components/UserManagement.tsx:26 | the listed users keep the order of the user list |
| UserManagement.EmptySearchMatches | src/components/UserManagement.tsx:27-28 | the empty search term matches every user |
| UserManagement.RoleFilter | src/components/UserManagement.tsx:29 | with no search, role "all" lists every user and role r exactly the users of role r |
| UserManagement.RoleBadgesDistinct | src/components/UserManagement.tsx:33-40 | the three roles get three different badges, none of them the default |
| UserManagement.UnknownRoleBadge | src/components/UserManagement.tsx:38 | any text that names no role gets the default badge |
| Sidebar.BaseMenuIds | src/components/Sidebar.tsx:37-44 | the six base entries have distinct ids, none of them "users" |
| Sidebar.MenuItems | src/components/Sidebar.tsx:37-48 | a non-Owner gets the six base entries; an Owner gets seven, with User Management at index 1 and the rest shifted in order; the entry is present iff the user is an Owner |
| Sidebar.AvailableIsCanAccessFilter | src/components/Sidebar.tsx:50-52 | in both branches the computed (and unrendered) `availableSubsidiaries` are exactly those `canAccess` admits, in order; an Owner's are all |
| Sidebar.NonOwnerSeesHome | src/components/Sidebar.tsx:50-52 | with distinct ids, a non-Owner's computed `availableSubsidiaries` is exactly their own subsidiary |
| Sidebar.IdOptions | src/components/Sidebar.tsx:84-86 | one option per subsidiary, in list order, valued by its id |
| Sidebar.SelectorOptions | src/components/Sidebar.tsx:73-86 | a non-Owner gets no selector; an Owner gets "all" followed by every subsidiary's id, whatever `canAccess` says |
| Sidebar.SelectorOptionsRoundTrip | src/components/Sidebar.tsx:73-86 | with positive ids, an Owner's rendered options are exactly the option values, and each survives being chosen and shown again |
| Sidebar.ScopeOfSelect | src/components/Sidebar.tsx:80 | "all" gives no scope, and any id's numeral gives that id |
| Sidebar.SelectRoundTrip | src/components/Sidebar.tsx:79-86 | choosing an option and showing the resulting scope gives the option back; an absent or positive scope survives being shown and chosen; 0 shows as "all" |
| MainApp.RenderContentDispatch | src/components/MainApp.tsx:32-53 | each view is reached from its own tab id, the dashboard with the current scope; an unknown id gives the dashboard |
| MainApp.MenuOpensDistinctViews | src/components/MainApp.tsx:32-53 | every menu entry is a known tab, and different entries open different views |
| MainApp.EffectScope | src/components/MainApp.tsx:23-27 | the effect leaves an Owner's scope alone and pins a non-Owner with a subsidiary to it; running it twice is running it once |
| MainApp.FirstDashboard | src/components/MainApp.tsx:19-35 | on the render after the mount effect a seed Owner sees the all-subsidiaries figures and any other seed user their own subsidiary's |
| MainApp.AppShell.constructor | src/components/MainApp.tsx:17-19 | the shell starts on the dashboard with no scope and the sidebar closed |
| MainApp.AppShell.SyncScope | src/components/MainApp.tsx:23-27 | the scope becomes the effect's result; nothing else changes |
| MainApp.AppShell.SelectTab | src/components/MainApp.tsx:18 | only the active tab changes |
| MainApp.AppShell.SelectSubsidiary | src/components/MainApp.tsx:19 | only the scope changes |
| MainApp.AppShell.ToggleSidebar | src/components/MainApp.tsx:29 | only the sidebar flag flips |
| MainApp.AppShell.CloseSidebar | src/components/MainApp.tsx:30 | only the sidebar closes |
| MainApp.AppShell.Content | src/components/MainApp.tsx:32-53 | the dashboard gets the current scope; any other view is the one the active tab names |
| Notifications.UnreadCount | src/components/NotificationPanel.tsx:51 | the unread count is at most the number of notifications |
| Notifications.UnreadWithIdAtMostOne | src/components/NotificationPanel.tsx:24-49 | with distinct ids, at most one unread notification carries a given id |
| Notifications.MarkReadEffect | src/components/NotificationPanel.tsx:69-73 | marking keeps length and order, changes only the read flag, and exactly the notifications with that id become read |
| Notifications.MarkReadIdempotent | src/components/NotificationPanel.tsx:69-73 | marking the same id twice is marking it once |
| Notifications.MarkReadCommutes | src/components/NotificationPanel.tsx:69-73 | marking two ids in either order gives the same list |
| Notifications.MarkReadUnreadCount | src/components/NotificationPanel.tsx:51-73 | marking lowers the unread count by exactly the number of unread notifications with that id, so it never rises |
| Notifications.BadgeIffDismissible | src/components/NotificationPanel.tsx:80-115 | the badge shows iff some notification shows its dismiss button |
| Notifications.DismissLowersCount | src/components/NotificationPanel.tsx:115-119 | dismissing an unread notification lowers the count, by exactly one when ids are distinct |
| Notifications.SeedUnread | src/components/NotificationPanel.tsx:24-51 | the panel starts with two unread and the badge; dismissing "1" leaves one; marking "3" changes nothing |
| Notifications.IconMapping | src/components/NotificationPanel.tsx:53-67 | success and warning have their own icons; every other type looks like info; icon and colour always agree |
| Notifications.NotificationPanel.constructor | src/components/NotificationPanel.tsx:24-49 | the panel starts with the three seed notifications |
| Notifications.NotificationPanel.Unread | src/components/NotificationPanel.tsx:51-80 | the count is positive iff some notification has its dismiss button |
| Notifications.NotificationPanel.MarkAsRead | src/components/NotificationPanel.tsx:69-73 | the list becomes the marked list, and the unread count drops by the number of unread notifications with that id |
| WhatsApp.FormatPhone | src/lib/pdfUtils.ts:43 | the formatted number holds only digits and is no longer than the input |
| WhatsApp.FormatPhoneIsTheDigits | src/lib/pdfUtils.ts:43 | the formatted number is a subsequence of the input holding each digit as often as the input does, and nothing else |
| WhatsApp.FormatPhoneIdempotent | src/lib/pdfUtils.ts:43 | a digits-only number is unchanged, so formatting twice is formatting once |
| WhatsApp.FormatPhoneAppend | src/lib/pdfUtils.ts:43 | the digits of a concatenation are the concatenated digits |
| WhatsApp.FormatTanzanianNumber | src/lib/pdfUtils.ts:42-43 | "+255 712 345 678" becomes "255712345678" |
| WhatsApp.WhatsAppUrlParts | src/lib/pdfUtils.ts:46-48 | the link starts with https://wa.me/; up to its first `?` it is the formatted number; the rest is `text=` and the encoded message |
| DataExport.CsvContent | src/components/DataExport.tsx:49 | the content always starts with the CSV data-URI prefix |
| DataExport.EmptyExport | src/components/DataExport.tsx:49-51 | without data the content is the prefix and one line break |
| DataExport.CsvLines | src/components/DataExport.tsx:50-51 | without line breaks in the data, the body splits into the header and one line per record in order, with no trailing line; no data gives an empty header and an empty body |
| DataExport.CsvCells | src/components/DataExport.tsx:50-51 | without commas in the data, each line splits into its record's values and the header into the first record's keys |
| DataExport.CommaShiftsColumns | src/components/DataExport.tsx:51 | a comma inside a value is not escaped, so it adds a cell under a one-cell header |
| GlobalSearch.ResultsIff | src/components/GlobalSearch.tsx:21-27 | the results are exactly the entries whose name contains the query ignoring case, in their order |
| GlobalSearch.EmptyQueryMatchesAll | src/components/GlobalSearch.tsx:25-27 | the empty query gives all three entries |
| GlobalSearch.NoResultsIff | src/components/GlobalSearch.tsx:47-68 | "No results" shows iff something is typed and no entry matches; nothing shows before typing |
| GlobalSearch.MissingLetter | src/components/GlobalSearch.tsx:25-27 | an entry whose name lacks a letter of the query in both cases does not match |
| Text.Lower | src/components/Orders.tsx:89-91 | `toLowerCase` keeps the length, lower-cases each ASCII letter and leaves no upper-case letter |
| Text.LowerIdempotent | src/components/Customers.tsx:75-76 | lower-casing twice is lower-casing once |
| Text.ContainsAt | src/components/Orders.tsx:89-91 | `includes` holds iff the term occurs at some position |
| Text.ParseInt | src/components/Invoices.tsx:206 | `parseInt` is NaN iff the text does not start with a digit, or starts with `0x`/`0X` not followed by a hex digit |
| Text.ParseIntPrefixes | src/components/Invoices.tsx:206 | `parseInt` reads `0x1A` and `0X1a` as 26, `0x` and `0xg` as NaN, and `012` as decimal 12 |
| Text.ParseIntOfNumeral | src/components/DeliveryNotes.tsx:200 | `parseInt` reads a numeral back as its number |
| Text.ParseIntIgnoresSuffix | src/components/Invoices.tsx:206 | `parseInt` ignores whatever follows the leading digits, unless they are `0` followed by `x` or `X` |
| Text.IntString | src/components/CreateInvoiceForm.tsx:74 | `toString` of an integer is all digits iff the integer is non-negative |
| Text.PadStart | src/components/Invoices.tsx:188-190 | `padStart` reaches the width, ends with the input and fills with the pad character |
| Text.ZeroPaddedNumeral | src/components/Invoices.tsx:188-190 | a zero-padded numeral is all digits, at least as wide as asked, and has the number's value |
| Text.SplitThenJoin | src/lib/pdfUtils.ts:46-48 | splitting at a character and joining with it gives the text back |

## Left out

- Browser storage of the session is not modelled. The user it held at start-up is the constructor parameter of `Access.AuthSession`.
- Clock and calendar are parameters. The calendar year of a new document number is a parameter of `Create`, and so are the default issue, due and delivery dates of the forms.
- Email validity is a parameter: the form library's email check is the `isEmail` parameter, and its regular expression is not modelled.
- `encodeURIComponent` is a parameter of `WhatsApp.WhatsAppUrl`. `encodeURI` of the CSV data URI is not modelled.
- `window.open`, the download link, PDF generation (html2canvas/jsPDF), toasts, timers and `console.log` are foreign calls or presentation.
- Not modelled:
  - the Reports, Settings, Header and Dashboard layouts, and QuickActions;
  - status colours, icon components and CSS classes, except the role badges and the notification icon mapping;
  - the open state of dialogs, modals and the search dialog.
- Currency totals are not modelled: the Orders and Customers value cards (`toLocaleString`, `toFixed`) and the money formatting of the previews. Money in the invoice path is Dafny `real`, which is exact, while the source computes with floating point and rounds when it displays.
- Text.Lower: `toLowerCase` is restricted to ASCII. Non-ASCII letters are left as they are.
- Text.ParseInt: models `parseInt` (decimal, and hexadecimal after `0x`) on text without a sign or leading whitespace. A leading `-`, `+` or blank is read as NaN, whereas the source accepts them.
- The status and subsidiary filters of the list views are parsed scopes. Each view keeps its subsidiary filter as the text "all" or an id's numeral and applies `parseInt` to it. The model takes that value already parsed, as `Selection<int>`. The same holds for the status filters.
- Sidebar.ScopeOfSelect: defined only on the select's own option values ("all" and id numerals). `Number()` of any other text is not modelled.
- Invoices.InvoiceStore.Create: the selected invoice is kept as its index in the list rather than the record itself. The same holds for DeliveryNotes.DeliveryNoteStore.Create.
- Invoices.InvoiceStore.constructor: the in-place array is a `seq` field that `Create` reassigns. The same holds for the delivery notes store. Aliasing of the module-level array between mounts is not modelled.
- DataExport.CsvContent: every value is taken as text already. JavaScript's string conversion of numbers, `null` and nested objects inside `join` is not modelled, and records are lists of key/value pairs in their key order.
- MainApp.AppShell.SyncScope: the effect runs when the method is called, and is modelled for the render after the mount effect; the very first render, with no scope yet, is the constructor's state. Index.tsx mounts the shell only when somebody is logged in.
- Only the concrete examples stated above are proved about the seed data, the search entries and the menus; other concrete instances are left to the general lemmas.
- The fixed `getDashboardStats` figures are modelled, but not how the Dashboard lays them out.
