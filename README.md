# Broadway Sellers — a verified model of the seller portal's logic

Broadway Sellers is a seller-onboarding portal. Its server side is a set of
thin request handlers over a relational store. Its client side is a set of
pages holding form and list state. This project models the logic of both in
Dafny and proves what each piece promises:

- **Validators** (`application_validation.dfy`, `product_validation.dfy`,
  `patterns.dfy`). The GSTIN, PAN, pincode and IFSC patterns are written as
  fixed sequences of character classes. The application, product, bank and
  address schemas are written as predicates and parse functions.
- **CSV bulk upload** (`csv_upload.dfy`). The dialog's parser splits the
  file into lines and cells and reads each column by header name with its
  default. It collects a per-row error list. Only error-free rows are
  uploaded. The downloadable template is proved to parse into three clean
  products.
- **Seller store** (`store.dfy`). Every table is a field of one `Store`
  object. The request handlers are its methods. Each method takes the
  caller's session and the current time as parameters. It states the reply
  and the new value of every table. The database constraints (unique user
  ids and emails, one profile and one application per user, at most one
  default address per user and type) are kept as the object's invariant. The pure route logic
  the handlers use lives beside it:
  - `checklist.dfy`: the six-item onboarding checklist, set-by-key and the
    completion latch;
  - `product_routes.dfy`: draft defaults, the owner listing and the bulk
    insert loop;
  - `address_routes.dfy`: the pincode/phone checks, clear-then-set default
    and listing order;
  - `application_routes.dfy`: find-or-create user, the initial timeline,
    the own-application view and the admin listing;
  - `settings_routes.dfy`: RTO Shield flags, notification preferences and
    the latest API key.
- **Pages** (`status_page.dfy`, `home_page.dfy`, `support_page.dfy`,
  `apply_page.dfy`, `finance_page.dfy`, `settings_page.dfy`,
  `admin_page.dfy`, `catalog_page.dfy`, `addresses_page.dfy`). These hold:
  - the status train;
  - checklist progress;
  - ticket labels and SLA badges;
  - the five-file attachment cap;
  - settlement totals, account masking and the CSV export;
  - settings toggles;
  - admin filters, counts and action gating;
  - the catalog's own form, filter and stat cards;
  - the addresses page's digit-only inputs and form handling.

  A page whose handlers update state in place is a class with those
  fields. Its handlers are methods, and a server round trip becomes an `ok`
  parameter.

`common.dfy` holds shared helpers: `Option`, sessions, JavaScript's
`trim`, `split`/`join` with their round trips, the prefix semantics of
`parseFloat`/`parseInt`, filtering and a newest-first sort. `records.dfy`
holds the store's rows, with the JSON text columns (timeline, checklist
items, features, bank details) as typed values.

### Behaviour worth noting

The model follows the code, which behaves as follows:

- **No price ≤ MRP check on product create.** `POST /api/products` and the
  bulk handler store a price above the MRP (`ProductRoutes.DraftDefaults`),
  and so does the catalog page's own form
  (`CatalogPage.PriceAboveMrpPassesPage`). Only the shared `productSchema`
  and the CSV dialog reject it.
- **The latch fires on every single create.** The product, bank and address
  handlers latch their checklist item on each creation, which is harmless
  because the latch is idempotent (`Checklist.LatchIdempotent`). The bulk
  handler latches only when the caller had no products before.
- **Any checklist status.** `PATCH /api/checklist` stores any status string
  and can reopen a completed item (`Checklist.SetItemReopens`).
- **At most one default address, not exactly one.** A user may have no
  default of a type; at most one per (user, type) is the invariant proved
  (`AddressRoutes.AddAddressKeepsOneDefault`).
- **Unvalidated bank details.** `POST /api/finance/bank` does not check the
  details against `bankDetailsSchema` (`Store.Store.CreateBank`).
- **A repeated application writes nothing.** A seller profile's `userId` is
  unique (the seed upserts profiles by it, `prisma/seed.ts:36-37`; the
  Prisma schema itself is not part of this model), so a second submission by a user who already has a profile fails
  (500) at the profile insert, before any row is written
  (`Store.ResubmitWithSessionFails`, `Store.ResubmitSameEmailFails`). The
  profile and application inserts are not one transaction: when only the
  application insert fails, the profile row stays.

## Model

| member | source | states |
|---|---|---|
| ApplicationValidation.GstinShape | lib/validations/application.ts:3 | A GSTIN is accepted iff it is 15 characters: 2 digits, 5 capitals, 4 digits, a capital, a capital or digit, 'Z', a capital or digit |
| ApplicationValidation.PanShape | lib/validations/application.ts:4 | A PAN is accepted iff it is 10 characters: 5 capitals, 4 digits, a capital |
| ApplicationValidation.PincodeShape | lib/validations/application.ts:5 | A pincode is accepted iff it is exactly six ASCII digits |
| ApplicationValidation.GstinEmbedsPan | lib/validations/application.ts:3-4 | Characters 2..11 of every accepted GSTIN form an accepted PAN |
| ApplicationValidation.AcceptedGstFormIsWellFormed | lib/validations/application.ts:29-60 | An accepted form with GST available carries a well-formed GSTIN, PAN and pincode, a legal name of at least 2 characters, and a non-empty address line 1, city and state |
| ApplicationValidation.NoGstFormNeedsOnlyBasics | lib/validations/application.ts:7-60 | Without GST and with the optional checked fields left out, a form is accepted iff the basic fields pass (name, phone and brand lengths, category, stage); absent fields never fail a regex |
| ApplicationValidation.MissingGstDetailRejects | lib/validations/application.ts:41-60 | With GST available, leaving any one of the seven GST details absent or empty rejects the form |
| Patterns.MatchesDigits | lib/validations/application.ts:5 | The pattern `\d{n}` accepts exactly the strings of n ASCII digits |
| Patterns.MatchesConcat | lib/validations/application.ts:3 | A concatenated pattern matches exactly the concatenation of a match of each part |
| ProductValidation.ParseProduct | lib/validations/product.ts:3-37 | The product schema succeeds iff every field check and the mrp ≥ price refinement hold, and it hands on the submitted form |
| ProductValidation.PriceAgainstMrp | lib/validations/product.ts:31-37 | A price above the MRP is rejected; a price equal to it passes when the fields pass |
| ProductValidation.ParsedProductBounds | lib/validations/product.ts:4-22 | A parsed product has 0 ≤ price ≤ MRP, tax rate in [0,100] defaulting to 18, integer stock ≥ 0 defaulting to 0, positive weight when present, 1 to 8 images, origin defaulting to India |
| ProductValidation.IfscShape | lib/validations/product.ts:44 | An IFSC is accepted iff it is 11 characters: 4 capitals, the digit 0, then 6 capitals or digits |
| ProductValidation.AcceptedBankDetails | lib/validations/product.ts:41-46 | Accepted bank details have an 11-character IFSC with '0' fifth, an account number of at least 9 characters, and holder and bank names of at least 2 |
| ProductValidation.ParseAddress | lib/validations/product.ts:50-61 | The address schema succeeds iff every field check holds |
| ProductValidation.ParsedAddressFacts | lib/validations/product.ts:50-61 | A parsed address is of type pickup or return, has a six-digit pincode and a line 1 of at least 5 characters, and is non-default unless set |
| Records.TextOrNull | app/api/products/route.ts:41-46 | `s \|\| null` is null exactly for the empty string and otherwise the string itself |
| Records.NumberOr | app/api/products/route.ts:49-51 | `x \|\| d` on a number gives d exactly when x is 0 |
| CsvUpload.NonBlankLines | app/app/catalog/csv-upload.tsx:69 | Whitespace-only lines are dropped and every other line is kept |
| CsvUpload.Cell | app/app/catalog/csv-upload.tsx:83-88 | A missing column, a cell past the end of the line or a blank cell gives the fallback; a non-blank cell under the first column of that name gives its trimmed text |
| CsvUpload.ReadRow | app/app/catalog/csv-upload.tsx:83-126 | A row read from its cells carries no errors before the checks |
| CsvUpload.FailedChecks | app/app/catalog/csv-upload.tsx:90-111 | The reported errors are exactly the checks that fail (their order is stated by FailedChecksInOrder) |
| CsvUpload.FailedChecksInOrder | app/app/catalog/csv-upload.tsx:90-111 | The failures of two check lists run one after the other are those of the first followed by those of the second, so errors come in check order |
| CsvUpload.RowErrorsExact | app/app/catalog/csv-upload.tsx:90-111 | Each of the nine checks is reported iff it fails on the row |
| CsvUpload.FailureInvalidates | app/app/catalog/csv-upload.tsx:90-111 | A row on which any check fails is not valid |
| CsvUpload.CheckedValidity | app/app/catalog/csv-upload.tsx:127 | `errors` is absent iff the row is valid; when present it is non-empty and lists exactly the failing checks; no other field changes |
| CsvUpload.MissingColumnsDefault | app/app/catalog/csv-upload.tsx:83-126 | A missing column defaults: "" for text, 0 for price, MRP and stock, 18 for tax rate, India for origin, no weight |
| CsvUpload.BlankCellsDefault | app/app/catalog/csv-upload.tsx:83-126 | A blank or missing cell takes its column's default ("" for title and SKU, 0 for price, MRP and stock, 18 for tax rate, India for origin, no weight); a non-blank one is read trimmed |
| CsvUpload.NumericDefaults | app/app/catalog/csv-upload.tsx:87-103 | The default texts "0" and "18" read as the numbers 0 and 18 |
| CsvUpload.ParseRows | app/app/catalog/csv-upload.tsx:78-129 | One parsed product per data line, in file order |
| CsvUpload.ParseCsvText | app/app/catalog/csv-upload.tsx:68-133 | Parsing succeeds iff at least two non-blank lines remain, and yields one product per data line |
| CsvUpload.BuildProducts | app/app/catalog/csv-upload.tsx:78-129 | The parser's loop builds exactly the per-line products of the data lines |
| CsvUpload.ValidProducts | app/app/catalog/csv-upload.tsx:136 | The upload set holds the error-free rows and only those |
| CsvUpload.CountsPartition | app/app/catalog/csv-upload.tsx:167-168 | validCount + errorCount equals the number of parsed rows |
| CsvUpload.AllValidSentWhole | app/app/catalog/csv-upload.tsx:136 | A file whose rows all pass is uploaded whole |
| CsvUpload.CsvUploadDialog.constructor | app/app/catalog/csv-upload.tsx:31 | The dialog starts with no parsed products |
| CsvUpload.CsvUploadDialog.ValidCount | app/app/catalog/csv-upload.tsx:167 | The valid count never exceeds the number of parsed rows |
| CsvUpload.CsvUploadDialog.ParseCsv | app/app/catalog/csv-upload.tsx:68-133 | A file with fewer than two non-blank lines is refused and leaves the previous result; otherwise the result is replaced by the parse |
| CsvUpload.CsvUploadDialog.HandleUpload | app/app/catalog/csv-upload.tsx:135-165 | Nothing is sent when no row is valid; otherwise exactly the valid rows are sent, and the list is cleared only on success |
| CsvUpload.JoinRows | app/app/catalog/csv-upload.tsx:40 | Each template row becomes one comma-joined line |
| CsvUpload.HeaderRoundTrip | app/app/catalog/csv-upload.tsx:75 | A header of plain names joined by commas is read back as those names |
| CsvUpload.PlainFileParses | app/app/catalog/csv-upload.tsx:68-133 | A file of the template's header and plain rows with in-range numbers parses to one error-free product per data row |
| CsvUpload.TemplateIsShaped | app/app/catalog/csv-upload.tsx:36-39 | The template's four rows have 13 plain cells and in-range numbers |
| CsvUpload.TemplateParses | app/app/catalog/csv-upload.tsx:34-40 | Parsing the downloadable template yields 3 products, none with errors |
| Checklist.KeysOf | app/api/checklist/route.ts:64 | The keys of the items, position by position |
| Checklist.InitialItems | app/api/checklist/route.ts:16-31 | A new checklist has the six keys in order, each pending with no completion time |
| Checklist.KeysDistinct | app/api/checklist/route.ts:21-28 | The six keys are pairwise different |
| Checklist.SetItem | app/api/checklist/route.ts:63-68 | Setting an item fails iff no item has the key |
| Checklist.SetItemEffect | app/api/checklist/route.ts:63-74 | Only the first item with the key changes: it gets the status, and a completion time iff the status is "completed"; length, order, keys and other items are unchanged |
| Checklist.SetItemReopens | app/api/checklist/route.ts:70-74 | Setting "pending" clears the completion time, so a completed item can be reopened |
| Checklist.Latch | app/api/products/route.ts:63-78 | The latch keeps the list's length |
| Checklist.LatchEffect | app/api/products/route.ts:63-78 | The latch completes the keyed item at `now` when it is pending; a completed item, a missing key and every other item are untouched |
| Checklist.LatchKeepsCompleted | app/api/finance/bank/route.ts:62-73 | A completed item is never changed by the latch |
| Checklist.LatchIdempotent | app/api/addresses/route.ts:91-106 | Latching twice equals latching once, whatever the second time |
| Checklist.FirstProductOnFreshChecklist | app/api/products/route.ts:63-78 | On a fresh checklist the first product completes add_product at `now` and leaves the other five pending |
| Checklist.LatchFor | app/api/products/route.ts:63-78 | Only the owner's checklist is latched; a user without one gets none |
| ProductRoutes.DraftDefaults | app/api/products/route.ts:37-57 | A created product is the caller's draft; tax rate 0 becomes 18, empty origin becomes India, empty description/barcode/HSN and zero weight become null; price and MRP are stored unchecked |
| ProductRoutes.OwnerListing | app/api/products/route.ts:13-16 | The listing is sorted newest first and is a permutation of the caller's products |
| ProductRoutes.OwnerListingExact | app/api/products/route.ts:13-16 | Every listed product is the caller's, and every product of the caller is listed |
| ProductRoutes.BulkStepKeeps | app/api/products/bulk/route.ts:29-71 | One turn keeps the loop invariant: each input is created or reported, rows only grow, created rows are the caller's drafts, the caller's SKUs stay distinct |
| ProductRoutes.BulkRunInvariant | app/api/products/bulk/route.ts:27-72 | After the loop, count + errors = inputs, the created rows are appended drafts of the caller, and distinct SKUs stay distinct |
| ProductRoutes.BulkSkipsExistingSku | app/api/products/bulk/route.ts:29-43 | An input whose SKU the caller already had is never created |
| ProductRoutes.BulkRowsGrow | app/api/products/bulk/route.ts:27-72 | The loop never changes or removes an existing row |
| ProductRoutes.FirstUploadDetected | app/api/products/bulk/route.ts:83-87 | The caller's product count equals the number just created iff the caller had none before |
| ProductRoutes.ProductsOfAppend | app/api/products/bulk/route.ts:83-85 | The caller's products of two concatenated tables are the concatenation of each table's |
| AddressRoutes.AddressErrorExact | app/api/addresses/route.ts:41-54 | A body passes iff the pincode is 6 digits and the phone 10; a bad pincode is reported first |
| AddressRoutes.AddAddressEffect | app/api/addresses/route.ts:56-81 | The new row is appended; the only other change, for a default, clears the caller's defaults of that type; other users and types are untouched |
| AddressRoutes.NewDefaultIsOnlyDefault | app/api/addresses/route.ts:56-81 | After creating a default, no earlier address of that user and type is default |
| AddressRoutes.AddAddressKeepsOneDefault | app/api/addresses/route.ts:56-81 | At most one default per (user, type) before implies the same after |
| AddressRoutes.DefaultsFirstOrder | app/api/addresses/route.ts:15-18 | Moving defaults to the front of a newest-first list orders it by isDefault then createdAt, both descending, and loses nothing |
| AddressRoutes.AddressListingOrder | app/api/addresses/route.ts:13-21 | The listing is a permutation of the caller's addresses, defaults first, then newest first |
| ApplicationRoutes.SubmittingUser | app/api/applications/route.ts:13-15 | With a session the user is found by session id, otherwise by email; found iff such a user exists |
| ApplicationRoutes.EmailLookupSnoc | app/api/applications/route.ts:15-25 | After a user with the email is created, looking the email up again finds the earlier user if any, else the new one |
| ApplicationRoutes.NewApplicationShape | app/api/applications/route.ts:54-67 | A new application is "submitted", unreviewed, with one timeline entry: "submitted", "Application submitted", at `now` |
| ApplicationRoutes.Thread | app/api/applications/route.ts:100-102 | The messages are exactly the application's own, newest first |
| ApplicationRoutes.OwnApplication | app/api/applications/route.ts:96-108 | The view is absent iff the caller has no application; otherwise it is the caller's, with its thread and its profile, the profile absent iff no profile has the application's profileId |
| ApplicationRoutes.AdminRowOf | app/api/admin/applications/route.ts:14-21 | A row carries its application, that application's profile and its owner's email; the profile is absent iff no profile has the application's profileId, the email iff the owner is missing |
| ApplicationRoutes.AdminListingSpec | app/api/admin/applications/route.ts:9-27 | Only an admin gets an answer (else 401); an admin gets every application, newest first, each with its profile and owner's email, each absent exactly when no matching row exists |
| SettingsRoutes.RtoShieldOf | app/api/settings/route.ts:21-26 | The flags are the stored rtoShield when it is present and truthy, and the all-on default otherwise |
| SettingsRoutes.NoFeaturesReadsDefault | app/api/settings/route.ts:21-26 | With null or empty features every flag reads as on |
| SettingsRoutes.SetRtoShield | app/api/settings/rto-shield/route.ts:22-28 | The stored rtoShield is the body |
| SettingsRoutes.SetRtoShieldKeepsOthers | app/api/settings/rto-shield/route.ts:22-28 | rtoShield is replaced wholesale and every other feature key is kept; from null or empty features only rtoShield remains |
| SettingsRoutes.SetRtoShieldIdempotent | app/api/settings/rto-shield/route.ts:22-28 | Sending the same body twice leaves what sending it once left |
| SettingsRoutes.ReadAfterWrite | app/api/settings/route.ts:21-26 | Reading after a PATCH gives the body sent, or the default when the body is falsy |
| SettingsRoutes.ApiKeysOf | app/api/settings/route.ts:46-49 | The caller's keys, all of them, newest first |
| SettingsRoutes.LatestApiKey | app/api/settings/route.ts:46-59 | The key answered is one of the caller's newest keys, and the strictly newest one when there is one; null when the caller has none; present whenever the caller has keys and none is empty; never empty |
| SettingsRoutes.NewestFirst | app/api/settings/route.ts:46-49 | The first of the caller's keys, newest first, is a newest key of the caller, and the strictly newest one when there is one |
| Store.NextIdGrows | app/api/applications/route.ts:18-67 | Handing out further ids keeps the user, profile and application constraints |
| Store.AddUserKeepsValid | app/api/applications/route.ts:17-25 | A user with a fresh id and an unused email keeps ids and emails unique |
| Store.AddProfileKeepsValid | app/api/applications/route.ts:27-51 | A profile for a user who has none keeps one profile per user |
| Store.AddApplicationKeepsValid | app/api/applications/route.ts:54-67 | An application for a user who has none keeps one application per user |
| Store.FileUserFails | app/api/applications/route.ts:13-25 | Without a session filing the user never fails; with one it fails iff the session's user is missing and the email is taken |
| Store.SubmitOkEffect | app/api/applications/route.ts:13-79 | A successful submission appends one "submitted" application with a one-entry timeline, for the session's user or a user with the email, with the profile just written |
| Store.ResubmitWithSessionFails | app/api/applications/route.ts:27-85 | Once a session user's submission succeeds, every later one under that session fails with 500 and leaves every table as it was |
| Store.ResubmitSameEmailFails | app/api/applications/route.ts:27-85 | Without a session, a second submission with the same email fails with 500 and leaves every table as it was |
| Store.AnonUserFoundAgain | app/api/applications/route.ts:15-25 | After an anonymous submission the email finds the user it was filed under |
| Store.Store.GetChecklist | app/api/checklist/route.ts:5-43 | 401 without a session; otherwise the caller's checklist, created with the six pending items only when missing |
| Store.Store.PatchChecklist | app/api/checklist/route.ts:45-91 | 401, 404 for a missing checklist or key, each changing nothing; otherwise only the caller's checklist becomes SetItem's result |
| Store.Store.GetProducts | app/api/products/route.ts:6-26 | 401 without a session; otherwise the caller's products, newest first |
| Store.Store.CreateProduct | app/api/products/route.ts:28-88 | 401 changes nothing; otherwise appends the caller's draft, records product_drafted and latches add_product; nothing else changes |
| Store.Store.BulkInsert | app/api/products/bulk/route.ts:27-72 | The insert loop produces what BulkRun computes, and only the product table and next id change |
| Store.Store.BulkCreate | app/api/products/bulk/route.ts:6-119 | 401 and 400 change nothing; otherwise the count is the rows created, count + errors = inputs, the event is recorded only when something was created, add_product is latched iff this was the caller's first product |
| Store.Store.GetAddresses | app/api/addresses/route.ts:6-29 | 401 without a session; otherwise the caller's addresses, defaults first then newest first |
| Store.Store.CreateAddress | app/api/addresses/route.ts:31-116 | 401 or 400 (pincode before phone) change nothing; otherwise clear-then-set default, append, record address_added, latch add_address |
| Store.Store.GetBank | app/api/finance/bank/route.ts:6-29 | 401 without a session; otherwise one of the caller's payout methods, or null iff the caller has none |
| Store.Store.CreateBank | app/api/finance/bank/route.ts:31-83 | 401 changes nothing; otherwise always appends a verified bank method with the four fields unchecked, records finance_added, latches add_finance |
| Store.Store.RegisterUser | app/api/applications/route.ts:13-25 | Finding or creating the submitting user is what FileUser specifies |
| Store.Store.InsertApplication | app/api/applications/route.ts:27-85 | What FileApplication specifies: 500 with nothing written when the user has a profile; otherwise the profile, then 500 when the user has an application, else the application and its event |
| Store.Store.SubmitApplication | app/api/applications/route.ts:7-87 | The whole submission is what Submit specifies, keeping the store's constraints |
| Store.Store.GetApplication | app/api/applications/route.ts:89-118 | 401 without a session; 404 when the caller has no application; otherwise the caller's own with its thread |
| Store.Store.AdminListApplications | app/api/admin/applications/route.ts:5-35 | The answer is the role-guarded admin listing and nothing changes |
| Store.Store.GetSettings | app/api/settings/route.ts:5-68 | 401; 404 without an account before anything is created; otherwise the flags, the preferences (created all on only when missing) and the newest key |
| Store.Store.PatchRtoShield | app/api/settings/rto-shield/route.ts:5-38 | 401 and 404 change nothing; otherwise only the account's rtoShield is replaced by the body |
| Store.Store.PatchNotifications | app/api/settings/notifications/route.ts:5-39 | 401 changes nothing; otherwise the caller's preferences become the body, whether or not they existed |
| StatusPage.StepOf | app/status/page.tsx:328-343 | The step is in 1..4: 2 iff in_review, 3 iff clarification needed or submitted, 4 iff approved or rejected, 1 otherwise |
| StatusPage.Train | app/status/page.tsx:132-156 | Four steps numbered 1..4; step n is complete iff the current step ≥ n and current iff it equals n |
| StatusPage.OneCurrentStep | app/status/page.tsx:132-156 | Exactly one step is current; it and every step before it are complete, none after it |
| StatusPage.StepTitles | app/status/page.tsx:147-153 | Step 3 is "Clarifications" iff clarification is needed; step 4 is Approved, Rejected or Pending according to the status |
| StatusPage.DescriptionsDistinct | app/status/page.tsx:345-362 | Each of the six statuses has a description different from every other status's |
| StatusPage.ActionsFor | app/status/page.tsx:245-258 | Provide Clarifications shows iff clarification is needed, the dashboard link iff approved |
| HomePage.CompletedCount | app/app/home/page.tsx:113-114 | The completed count never exceeds the number of items |
| HomePage.AllCompletedCount | app/app/home/page.tsx:116 | The count equals the total iff every item is completed |
| HomePage.Progress | app/app/home/page.tsx:115 | Progress lies in [0,100], is 0 for an empty list and iff nothing is completed, and is 100 iff a non-empty list is complete |
| HomePage.CardOf | app/app/home/page.tsx:305-349 | The action link shows iff not completed; the date shows iff completed with a completion time |
| HomePage.Cards | app/app/home/page.tsx:300-302 | Only items with a configured key are rendered |
| HomePage.ConfiguredItemsShown | app/app/home/page.tsx:24-67 | Every item with a configured key gets its card |
| HomePage.CardsFromConfiguredItems | app/app/home/page.tsx:300-302 | Every card is the card of a configured item |
| HomePage.FreshChecklistView | app/app/home/page.tsx:112-116 | On a fresh checklist progress is 0 and it is not complete |
| SupportPage.StatusVariant | app/app/support/page.tsx:105-116 | open gives default, in_progress secondary, everything else outline |
| SupportPage.ReplaceFirstUnderscore | app/app/support/page.tsx:119 | Only the first underscore becomes a space |
| SupportPage.CapitalizeFrom | app/app/support/page.tsx:119 | A character is upper-cased iff it is a word character after a non-word one |
| SupportPage.CapitalizeWords | app/app/support/page.tsx:119 | Exactly the characters starting a word are upper-cased |
| SupportPage.StatusLabel | app/app/support/page.tsx:118-120 | The label replaces the first underscore with a space and then capitalises each word start |
| SupportPage.SlaStatus | app/app/support/page.tsx:122-133 | Closed tickets get no badge; otherwise breach iff over 24 hours, warning iff over 0.8 × 24 hours but not over 24, none otherwise |
| SupportPage.SlaMonotone | app/app/support/page.tsx:122-133 | A breach stays a breach, and a warning keeps a badge, as time passes |
| SupportPage.TicketNumber | app/app/support/page.tsx:265 | The ticket number is the first 8 characters of the id, or all of a shorter id |
| SupportPage.CanSubmit | app/app/support/page.tsx:67-70 | The form is sent iff neither subject nor message is blank |
| ApplyPage.WithoutSpec | app/apply/page.tsx:92-94 | Removing index i drops exactly that element and keeps the others in order; an out-of-range index keeps all |
| ApplyPage.ApplyForm.constructor | app/apply/page.tsx:21-23 | The form starts with no files, not loading, GST available |
| ApplyPage.ApplyForm.HandleFileChange | app/apply/page.tsx:83-90 | A pick is accepted iff the total stays ≤ 5; then the files are appended in order, else nothing changes; the cap is kept |
| ApplyPage.ApplyForm.RemoveFile | app/apply/page.tsx:92-94 | The file at the index leaves the list; an out-of-range index changes nothing; the cap is kept |
| ApplyPage.ApplyForm.SubmitDisabled | app/apply/page.tsx:434 | The submit button is disabled exactly while loading or while GST is not available |
| ApplyPage.ApplyForm.SetGstAvailable | app/apply/page.tsx:218-224 | The checkbox sets gstAvailable, keeps the files and loading, and the button is then disabled iff loading or unchecked; the cap is kept |
| ApplyPage.ApplyForm.StartSubmit | app/apply/page.tsx:38-39 | Submitting switches loading on, so the button is disabled; files and the GST flag stay |
| ApplyPage.ApplyForm.FinishSubmit | app/apply/page.tsx:78-80 | The finally switches loading off, so the button is disabled again exactly when GST is not available |
| FinancePage.CompletedPayouts | app/app/finance/page.tsx:147 | The completed count never exceeds the number of settlements |
| FinancePage.EarningsSplit | app/app/finance/page.tsx:145-146 | Total earnings are the pending payouts plus the amounts of all other settlements |
| FinancePage.EarningsNonNegative | app/app/finance/page.tsx:145 | Non-negative amounts give non-negative total earnings |
| FinancePage.PendingWithinEarnings | app/app/finance/page.tsx:145-146 | With non-negative amounts, 0 ≤ pending payouts ≤ total earnings |
| FinancePage.CompletedAndPendingApart | app/app/finance/page.tsx:146-147 | Completed and pending settlements are disjoint: their counts add up to at most the total |
| FinancePage.LastFour | app/app/finance/page.tsx:279 | `slice(-4)`: the last four characters, or all of a shorter number |
| FinancePage.MaskRevealsOnlyLastFour | app/app/finance/page.tsx:279 | Two account numbers display the same iff they end in the same four characters |
| FinancePage.SettlementRow | app/app/finance/page.tsx:109-121 | Each settlement row has as many cells as the 9-column header |
| FinancePage.ExportRows | app/app/finance/page.tsx:107-122 | The export is the header followed by exactly one row per settlement, in order |
| FinancePage.LineRoundTrip | app/app/finance/page.tsx:123 | A row of plain cells joins into one line that splits back into the row |
| FinancePage.RowPlain | app/app/finance/page.tsx:111-121 | The cells of a row are plain when its id, status and dates are |
| FinancePage.ExportRoundTrip | app/app/finance/page.tsx:107-123 | Split back into lines and cells, the export gives the header and then each settlement's row |
| FinancePage.UpperText | app/app/finance/page.tsx:231 | Each character is upper-cased |
| FinancePage.UpperTextIdempotent | app/app/finance/page.tsx:231 | Upper-cased text has no lower-case letter and upper-casing it again changes nothing |
| FinancePage.UpperKeepsIfsc | app/app/finance/page.tsx:231 | Upper-casing never alters an accepted IFSC |
| FinancePage.FinanceView.constructor | app/app/finance/page.tsx:38-47 | The page starts with no bank details, no settlements, the dialog closed and an empty form, so Add Bank Details is offered |
| FinancePage.FinanceView.AddBankOffered | app/app/finance/page.tsx:191-197 | Add Bank Details is offered exactly while no bank details are held; a fresh view offers it |
| FinancePage.FinanceView.FetchFinanceData | app/app/finance/page.tsx:60-81 | Each ok answer replaces the bank details or settlements and a failed one keeps them; afterwards Add Bank Details is offered iff no details are held |
| FinancePage.FinanceView.TypeIfsc | app/app/finance/page.tsx:231 | Typing stores the IFSC upper-cased and changes no other field |
| FinancePage.FinanceView.HandleSubmitResponse | app/app/finance/page.tsx:93-100 | On success the dialog closes and the form is cleared; otherwise nothing changes |
| SettingsPage.FlipRto | app/app/settings/page.tsx:68-74 | Exactly the named RTO Shield flag is negated |
| SettingsPage.FlipNotification | app/app/settings/page.tsx:97-103 | Exactly the named notification flag is negated |
| SettingsPage.RtoFlagsByKey | app/app/settings/page.tsx:65-74 | RTO flags that agree on every key are equal |
| SettingsPage.NotificationsByKey | app/app/settings/page.tsx:94-103 | Preferences that agree on every key are equal |
| SettingsPage.FlipRtoTwice | app/app/settings/page.tsx:68-74 | Toggling the same RTO key twice restores the flags |
| SettingsPage.FlipNotificationTwice | app/app/settings/page.tsx:97-103 | Toggling the same notification key twice restores the preferences |
| SettingsPage.SettingsView.constructor | app/app/settings/page.tsx:161-163 | The page starts with no settings loaded |
| SettingsPage.SettingsView.FetchSettings | app/app/settings/page.tsx:51-63 | An ok answer is adopted as the loaded settings; a failed one leaves the view as it was |
| SettingsPage.SettingsView.HandleRtoShieldToggle | app/app/settings/page.tsx:65-92 | With nothing loaded nothing is sent or changed; otherwise the flipped flags are sent and adopted only when the server answers ok, leaving notifications and key |
| SettingsPage.SettingsView.HandleNotificationToggle | app/app/settings/page.tsx:94-121 | The same for the notification flags, leaving the RTO flags and key |
| SettingsPage.SettingsView.GenerateApiKey | app/app/settings/page.tsx:123-138 | On success only the key is replaced; otherwise nothing changes |
| AdminPage.Filtered | app/admin/page.tsx:109-111 | Every listed application matches the filter ('all' matches everything), and every matching one is listed |
| AdminPage.FilterAllListsEverything | app/admin/page.tsx:109-111 | The 'all' filter lists every application in order |
| AdminPage.PendingReviewCount | app/admin/page.tsx:147 | The Pending Review card never exceeds the total |
| AdminPage.ApprovedCount | app/admin/page.tsx:155 | The Approved card never exceeds the total |
| AdminPage.ClarificationCount | app/admin/page.tsx:163 | The Needs Clarification card never exceeds the total |
| AdminPage.CardsMatchFilters | app/admin/page.tsx:147-163 | Pending Review counts the submitted plus in_review filters; the other two cards count their one status |
| AdminPage.CardsWithinTotal | app/admin/page.tsx:147-163 | The three status cards count disjoint groups and together never exceed the total |
| AdminPage.CanSend | app/admin/page.tsx:276-374 | Approve can be sent whenever no request is in flight; reject and clarify additionally need a non-blank message |
| AdminPage.AdminConsole.constructor | app/admin/page.tsx:41-48 | The console starts with no selection, no action, an empty message, filter 'all' |
| AdminPage.AdminConsole.FetchApplications | app/admin/page.tsx:64-78 | An ok answer replaces the application list and a failed one keeps it; nothing else changes |
| AdminPage.AdminConsole.OpenAction | app/admin/page.tsx:237-247 | Offered only before a decision; selects the row and the action |
| AdminPage.ActionsOffered | app/admin/page.tsx:237 | The review actions are shown only on applications that are neither approved nor rejected |
| AdminPage.ActionsOfferedBeforeDecision | app/admin/page.tsx:237 | Applications counted as pending review or needing clarification, and clarified ones, show the actions; approved and rejected ones do not |
| AdminPage.AdminConsole.HandleAction | app/admin/page.tsx:79-107 | Does nothing without a selected row and action; otherwise sends them with the message, and on success clears selection, action and message |
| AdminPage.BadgeFor | app/admin/page.tsx:398-416 | A badge exists iff the status is one of the six; destructive iff clarification needed or rejected, default iff in review or approved |
| CatalogPage.ParseCatalogForm | app/app/catalog/page.tsx:24-38 | The page's form passes iff its field checks hold |
| CatalogPage.CatalogFormBounds | app/app/catalog/page.tsx:25-35 | A passed form has a title of at least 3 characters, tax rate in [0,100] defaulting to 18, integer stock ≥ 0 defaulting to 0, origin defaulting to India |
| CatalogPage.PriceAboveMrpPassesPage | app/app/catalog/page.tsx:24-38 | A price above the MRP passes the page's form although the shared product schema rejects it |
| CatalogPage.Filtered | app/app/catalog/page.tsx:174-176 | Every listed product matches the filter ('all' matches everything), and every matching one is listed |
| CatalogPage.FilterAllListsEverything | app/app/catalog/page.tsx:174-176 | The 'all' filter lists every product in order |
| CatalogPage.ReadyCount | app/app/catalog/page.tsx:211 | The Ready card never exceeds the total |
| CatalogPage.DraftCount | app/app/catalog/page.tsx:219 | The Draft card never exceeds the total |
| CatalogPage.ReadyDraftWithinTotal | app/app/catalog/page.tsx:204-219 | Ready + Draft ≤ Total Products, with equality when every product is one or the other |
| CatalogPage.InventoryAppend | app/app/catalog/page.tsx:227 | Total Inventory of a concatenation is the sum of the parts' |
| CatalogPage.InventoryNonNegative | app/app/catalog/page.tsx:227 | Non-negative stock gives non-negative Total Inventory |
| CatalogPage.PublishOffered | app/app/catalog/page.tsx:437-439 | Publish is shown only on draft products |
| CatalogPage.PublishButtonsMatchDrafts | app/app/catalog/page.tsx:437-439 | The Publish buttons are exactly as many as the Drafts card counts, and no ready product has one |
| CatalogPage.SaveRequestFor | app/app/catalog/page.tsx:107-108 | PATCH to the product's id iff editing, POST otherwise |
| CatalogPage.CatalogView.constructor | app/app/catalog/page.tsx:60-61 | The page starts with no product being edited and the dialog closed |
| CatalogPage.CatalogView.FetchProducts | app/app/catalog/page.tsx:90-103 | An ok answer replaces the product list and a failed one keeps it; nothing else changes |
| CatalogPage.CatalogView.HandleEdit | app/app/catalog/page.tsx:130-140 | The product becomes the one edited and the dialog opens |
| CatalogPage.CatalogView.OpenAdd | app/app/catalog/page.tsx:252-258 | Add Product ends editing and opens the dialog, so the save is a POST |
| CatalogPage.CatalogView.Cancel | app/app/catalog/page.tsx:364 | Cancel closes the dialog and ends editing |
| CatalogPage.CatalogView.OnSubmit | app/app/catalog/page.tsx:105-128 | The save goes by PATCH when editing, else POST; on success editing ends and the dialog closes, otherwise nothing changes |
| AddressesPage.KeepDigits | app/app/addresses/page.tsx:257 | The result is all digits, at most n long, and the first digits of the input |
| AddressesPage.KeepDigitsOfDigits | app/app/addresses/page.tsx:257 | Digits-only text short enough passes unchanged |
| AddressesPage.KeepDigitsIdempotent | app/app/addresses/page.tsx:321 | Sanitising twice equals sanitising once |
| AddressesPage.KeepDigitsMeetsCheck | app/app/addresses/page.tsx:89-99 | A sanitised input passes the `^\d{n}$` check iff the typed text held at least n digits |
| AddressesPage.PickupList | app/app/addresses/page.tsx:198 | The pickup list holds exactly the pickup addresses |
| AddressesPage.ReturnList | app/app/addresses/page.tsx:199 | The return list holds exactly the return addresses |
| AddressesPage.ListsByType | app/app/addresses/page.tsx:198-199 | An address is listed as pickup iff of type pickup, as return iff of type return; other types in neither |
| AddressesPage.SetDefaultOffered | app/app/addresses/page.tsx:397-400 | Set as Default is shown only on addresses that are not the default |
| AddressesPage.SetDefaultOfferedOnAllButOne | app/app/addresses/page.tsx:397-400 | With at most one default per (user, type), of any two same-type addresses of a seller at least one shows Set as Default |
| AddressesPage.NewDefaultHidesOnlyItsButton | app/app/addresses/page.tsx:397-400 | After a new default is created, it hides Set as Default and every earlier same-type address of the seller shows it |
| AddressesPage.EmptyForm | app/app/addresses/page.tsx:173-184 | The reset form is of type pickup, non-default, with every text empty |
| AddressesPage.FormOf | app/app/addresses/page.tsx:126-137 | Editing copies the address, line1 into addressLine1, null line2 and landmark as "" |
| AddressesPage.EditRoundTrip | app/app/addresses/page.tsx:124-138 | Saving an unedited copy rebuilds the same row, when line2 and landmark are not stored as "" |
| AddressesPage.AddressesView.constructor | app/app/addresses/page.tsx:46-47 | The page starts with the dialog closed, nothing edited and the empty form |
| AddressesPage.AddressesView.FetchAddresses | app/app/addresses/page.tsx:72-84 | An ok answer replaces the address list and a failed one keeps it; nothing else changes |
| AddressesPage.AddressesView.TypePhone | app/app/addresses/page.tsx:257 | The phone field keeps the first ten digits typed, and nothing else changes |
| AddressesPage.AddressesView.TypePincode | app/app/addresses/page.tsx:321 | The pincode field keeps the first six digits typed, and nothing else changes |
| AddressesPage.AddressesView.HandleEdit | app/app/addresses/page.tsx:124-139 | The address becomes the one edited, is copied into the form and the dialog opens |
| AddressesPage.AddressesView.ResetForm | app/app/addresses/page.tsx:171-185 | Editing ends and the form becomes the empty form |
| AddressesPage.AddressesView.HandleSubmit | app/app/addresses/page.tsx:86-122 | Refused with the server's checks (pincode, then phone) and no request; otherwise PATCH when editing else POST, and on success the dialog closes and the form resets |
| AddressesPage.SanitisedFormChecks | app/app/addresses/page.tsx:89-99 | A form filled through the digit-only inputs passes iff at least 6 pincode digits and 10 phone digits were typed |

## Left out

- ApplicationValidation.NoGstFormNeedsOnlyBasics: the schema's email and website format checks (`z.string().email()`, `.url()`) are not modelled, so the modelled schema accepts any email and website text. Both formats are defined by the validation library, not by this repository.
- Floating point: prices, MRP, tax rates and weights are `real`, and JavaScript's `NaN` is `None`. `parseFloat`/`parseInt` accept a sign, digits and a decimal point, without exponents or `Infinity`. Settlement amounts and fees are integers.
- Unicode: `toUpperCase` is modelled on the ASCII letters, and `\w`, `\d` and `\D` on ASCII. `trim` knows the common JavaScript white-space characters only.
- Date formatting in the settlement export is the parameter `formatDate`. `toLocaleString` and relative times are not modelled.
- SupportPage.StatusLabel: stated for every input by its two steps. Concrete labels such as "in_progress" becoming "In Progress" are not proved as separate facts.
- The store's failures are not modelled except for three cases: the `faults` positions of a bulk upload, and the email and one-application uniqueness violations of a submission. Other 500 paths of the handlers are left out.
- Concurrency and transactions: each handler runs alone and in full. The races between clear-then-set default and the checklist read-modify-write are not modelled.
- Identity: the session is a parameter (user id and role), and the clock is the parameter `now`. Ids come from one counter.
- Analytics: `trackEvent` is modelled only as an append of (event name, user) to an event log; its payload is dropped. The confirmation email is not modelled.
- JSON columns are typed values; parsing and serialising them is not modelled. Prisma's treatment of `undefined` fields is not modelled, and an absent text field is "".
- The admin approve/reject/clarify handler is not part of this model. Neither are the product and address PATCH, DELETE, publish and set-default handlers, the settlements, support, upload, insights, API-key and demo/login handlers, or the seed script. The pages only call them; a page's request is its output.
- The pages' toasts, loading spinners, sign-in redirects and JSX rendering are not modelled. A server answer is the parameter `ok`.
- The refetch each page starts after a successful save (`fetchProducts`, `fetchAddresses`, `fetchApplications`, `fetchFinanceData`) is not chained into the save handlers: the load steps are separate methods a caller runs with the server's answer.
- SettingsPage.SettingsView.GenerateApiKey: requires settings to be loaded, because the page renders nothing, and so no Generate button, while they are not (the `if (!settings) return null` guard, app/app/settings/page.tsx:161-163).
- Store.Store.GetSettings: the returned flags are the raw JSON value of `features.rtoShield`, not decoded into three booleans.
- The insights page and the application review page are not modelled. They show data without logic of their own.
