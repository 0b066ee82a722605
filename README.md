# Ejaraat rental ledger, modelled in Dafny

Ejaraat is a Django application in which a landlord records properties,
rents them to tenants, tracks whether rent has been paid, archives finished
rentals as history rows, and receives a live feed of recent activities and
overdue notices. This project models the core of that ledger and proves
properties of it:

- `wrappers.dfy` (module `Wrappers`): `Option` and `Result`.
- `seqs.dfy` (module `Seqs`): order-preserving filter, reverse, take, key sets
  and key lookup over sequences. These are the query building blocks.
- `models.dfy` (module `Models`): the records of `core/models.py` and the rules
  that live on them. These are currency defaulting on save, the currency
  label, the payment-period label, the 30-day expiring-contract test, the form
  defaults of a new rental (status "paid"), and the delegation to
  `get_next_payment`.
- `dashboard.dfy` (module `Dashboard`): `get_expiring_contracts` and
  `get_upcoming_payments` of `core/utils.py`.
- `signals.dfy` (module `Signals`): the post-save rules of `core/signals.py` as
  functions. They decide which activity rows a property or rental save
  appends, and which capped, newest-first list a new activity row pushes to
  its user's channel group.
- `store.dfy` (module `Store`): the class `Ledger`. It holds the tables
  (properties, tenants, rentals, rent history, activities, notifications) and
  an outbox of channel messages. Its methods are the primitive writes: save
  (insert or update, then the post-save receiver), create, and delete with
  the database cascades. `Valid()` keeps keys unique and below the next key,
  and makes every rental point at a stored property and tenant.
- `services.dfy` (module `Services`): `clear_notification_service`.
- `views.dfy` (module `Views`): the state changes of `rent_property`,
  `edit_rental`, `mark_as_paid`, `empty_property` and `delete_property`, and
  the queries of `home` and `search_all_properties`. Each handler receives
  the already validated form fields and returns a value or an error.

Conventions of the model:

- Dates are whole days (`int`); the code only uses day differences.
- The `-timestamp` ordering of activities and notifications is reverse
  insertion order.
- Primary keys come from one counter `nextId` shared by all tables.
- `get_next_payment` is imported from `core/utils.py`; its body is outside
  this model and is the parameter `NextPaymentFn`.
- The clock is a `today` parameter. `str.title()` is a `title` parameter.
- The database's case folding for `icontains` is a `fold` parameter.
- Translated labels are the plain strings themselves.
- Sending a channel message is appending a `Push(group, kind, payload)` to
  `Ledger.outbox`.

Notes on what the code does, which the model follows:

- The pushed lists are capped at 5 rows, not 10 (`core/signals.py:51`,
  `core/signals.py:65`).
- The message kinds are `send_notifications` and `send_recent_activities`.
- An overdue rental save creates an "overdue" activity row and pushes it.
  It creates no `Notifications` row.
- The end date of a history row is always today, because both arms of the
  conditional at `core/views.py:385-389` give today.
- The overdue push query has no `order_by`. The model's `Meta.ordering =
  ["-timestamp"]` still makes it newest first, as the other query is.
- `search_all_properties` does not filter by owner in either branch.

## Model

| member | source | states |
|---|---|---|
| Models.CurrencyOnSave | core/models.py:73-86 | saving a property changes no field except its currency |
| Models.CurrencyOnSaveDefaults | core/models.py:78-85 | after a save the currency is always set. A set currency is kept. An unset (None or empty) one comes from the map US→USD, EU→EUR, SD→SDG, EG→EGP, and any other country gets USD |
| Models.CurrencyOnSaveIdempotent | core/models.py:84-86 | saving an already saved property stores the same record again |
| Models.TranslatedCurrency | core/models.py:60-71 | a known code gets its label from the table; any other value, None included, is returned unchanged |
| Models.TranslatedCurrencyIsStored | core/models.py:65-71 | with untranslated labels, the label is the stored currency itself |
| Models.PaymentPeriod | core/models.py:156-169 | the label of a billing interval is always one of "day", "week", "month" and "year" |
| Models.PaymentPeriodLabels | core/models.py:156-169 | the label is one of day/week/month/year: "week" iff the interval is 7, "month" iff 30, "year" iff 365, "day" for every other interval (1 included) |
| Models.PaymentPeriodRoundTrip | core/models.py:117-122 | for the four payment choices, the period label gives back the interval |
| Models.ExpiringContract | core/models.py:171-180 | returns a day count exactly when today >= end - 30. The count is end - today, is at most 30, and is negative once the contract has ended |
| Models.ApplyForm | core/models.py:143-150 | a form save keeps the rental's key, tenant and property. An omitted status keeps the stored status; a supplied one replaces it |
| Models.NewRental | core/models.py:150 | a new rental links the given tenant and property. Its status is "paid" unless the form supplies one |
| Dashboard.Select | core/utils.py:1-20 | the nested comprehension returns exactly the rentals that belong to one of the properties and pass the filter, and is no longer than the full listing |
| Dashboard.SelectIsFilteredListing | core/utils.py:4-9 | filtering per property equals filtering the whole listing (property order, then rental order), so the result is an ordered subsequence of it |
| Dashboard.ListingLength | core/utils.py:5-7 | for distinct properties, the listing holds each of their rentals once and is never longer than the rental table |
| Dashboard.ExpiringContracts | core/utils.py:1-9 | a rental is returned iff it belongs to one of the properties and today >= its end - 30; the list is no longer than the full listing |
| Dashboard.ExpiringContractsSpec | core/utils.py:1-9 | a rental is listed iff it belongs to one of the properties and today >= its end - 30. Order is kept, and for distinct properties the list is no longer than the rental table |
| Dashboard.UpcomingPayments | core/utils.py:12-20 | a rental is returned iff it belongs to one of the properties and its next payment is present, non-zero and at most 7; the list is no longer than the full listing |
| Dashboard.UpcomingPaymentsSpec | core/utils.py:12-20 | a rental is listed iff it belongs to one of the properties and its next payment is present, non-zero and at most 7. Order is kept, and for distinct properties the list is no longer than the rental table |
| Dashboard.DueTodayIsNotUpcoming | core/utils.py:19 | a payment due in 0 days is dropped by the truthiness test |
| Dashboard.PastDueIsUpcoming | core/utils.py:19 | a negative next-payment count passes the filter |
| Signals.PropertyActivities | core/signals.py:9-16 | a created property appends exactly one "add" row; an update appends none |
| Signals.RentalActivities | core/signals.py:19-39 | a created rental appends exactly one "rent" row whatever its status. An update appends "payment" iff paid, "overdue" iff overdue, and nothing iff unpaid or pending. There is at most one row per save |
| Signals.UpdateActivitiesCount | core/signals.py:27-33 | a run of updates appends at most one row per save. The rule is not idempotent: n saves of a paid rental append n "payment" rows |
| Signals.ActivityRows | core/signals.py:12-16 | the appended rows carry consecutive keys, the owner, the property and the kinds in order |
| Signals.ActivityPush | core/signals.py:42-73 | a row that was not created pushes nothing. A created one pushes one message to `user_<id>`: `send_notifications` iff the row is overdue, otherwise `send_recent_activities`. The payload holds at most 5 of that user's rows from the same feed (overdue, or not overdue) |
| Signals.PushHoldsNewest | core/signals.py:47-66 | the payload is the min(5, n) most recent rows of the feed, newest first |
| Signals.PushLeadsWithNewRow | core/signals.py:44-73 | the row just created heads the list it pushes |
| Store.CascadeKeepsReferences | core/models.py:137-141 | deleting a property together with its rentals leaves every remaining rental pointing at a stored property and tenant |
| Store.Ledger.OwnerOf | core/signals.py:23-38 | `instance.property.user`: the owner of a stored property with that key, and with distinct keys the owner of every row with that key |
| Store.Ledger.ActivityPostSave | core/signals.py:42-73 | the outbox grows by exactly the message `ActivityPush` chooses |
| Store.Ledger.CreateActivity | core/signals.py:12-16 | appends one activity row with the next key and sends the push for it |
| Store.Ledger.PropertyPostSave | core/signals.py:9-16 | appends the rows of `PropertyActivities` for the owner; an update sends nothing |
| Store.Ledger.RentalPostSave | core/signals.py:19-39 | appends the rows of `RentalActivities`, attributed to the property's owner, with one push per row |
| Store.Ledger.SaveProperty | core/models.py:73-86 | inserts a property with a new key or updates the stored one, with the currency defaulted, then runs the Property receiver. Validity is kept |
| Store.Ledger.WriteProperty | core/models.py:73-86 | the table write of a property save: insert under the next key iff the key is not stored, otherwise replace in place |
| Store.Ledger.SaveTenant | core/models.py:89-103 | inserts a tenant under the next key iff its key is not stored, otherwise replaces it in place |
| Store.Ledger.SaveRental | core/signals.py:19-39 | inserts or updates a rental, then appends the receiver's rows for the property's owner. Validity is kept |
| Store.Ledger.WriteRental | core/models.py:108-150 | the table write of a rental save: insert under the next key iff new, otherwise replace in place |
| Store.Ledger.CreateHistory | core/models.py:255-274 | appends the history row under the next key |
| Store.Ledger.DeleteRental | core/views.py:393 | removes exactly the rental with that key and keeps the rest in order |
| Store.Ledger.DeleteProperty | core/views.py:166-167 | removes the property and, by cascade, its rentals, history, activity rows and notifications. Everything else is kept in order and the ledger stays valid |
| Services.MarkAllRead | core/services.py:8 | every notification of the user is read afterwards. Other users' rows are unchanged, and only `is_read` changes on any row |
| Services.UnreadNotifications | core/services.py:9 | holds exactly the user's unread notifications, newest first: read backwards it is an ordered subsequence of the table (the `-timestamp` ordering of `core/models.py:324`) |
| Services.NothingUnreadAfterClear | core/services.py:8-9 | after the bulk update the unread query is empty |
| Services.MarkAllReadIdempotent | core/services.py:8 | a second clear leaves the table as the first left it |
| Services.ClearNotificationService | core/services.py:5-14 | the table becomes the bulk update of the old table, and the unread list it renders is empty |
| Views.GetOrCreateTenantAsWritten | core/views.py:199-203 | as written, the lookup succeeds iff exactly one stored row holds the pair, and then returns that row and never creates one. No match is an integrity error, because `landlord` is not supplied; two or more matches give `MultipleObjectsReturned` |
| Views.AsWrittenRejectsNewTenant | core/views.py:199-203 | as written, `get_or_create` for a pair not yet stored fails with an integrity error |
| Views.AsWrittenRejectsFirstRental | core/views.py:199-203 | as written, the first rental of an empty ledger is refused |
| Views.GetOrCreateTenant | core/views.py:199-203 | one stored row matching (name, phone) is reused unchanged. None means a new row owned by the landlord. Several is an error |
| Views.GetOrCreateTenantKeepsPairUnique | core/views.py:199-203 | after a successful lookup exactly one row holds the pair, and a row is created iff none held it before |
| Views.HistoryRow | core/views.py:378-391 | the history row copies property, tenant, price, damage deposit, start date and contract from the rental. Its payment type is the period label, and its end date is today |
| Views.Home | core/views.py:43-60 | available and rented are exactly the user's vacant and rented properties. Recent holds at most 10 of the user's non-overdue activities. Notifications are exactly the user's unread ones. Expiring and upcoming are the two filters over the rented properties |
| Views.HomeRecentAreNewest | core/views.py:51-55 | the recent activities are the min(10, n) newest ones, newest first |
| Views.IsInfixAt | core/views.py:314 | `icontains` containment holds iff the folded query occurs at some index of the folded field |
| Views.SearchAllProperties | core/views.py:310-322 | a non-empty query keeps exactly the properties whose name or country contains it, ignoring case. An empty or missing one returns every property. There is no owner filter, and order is kept |
| Views.RentProperty | core/views.py:190-214 | an unknown property is not found. A phone without "+" is refused, as is a failed lookup, and on any error nothing changes. On success the property is marked rented, the tenant is reused or created, and one rental linking both is appended, followed by one "rent" activity for the owner and one push |
| Views.RentWith | core/views.py:199-209 | stores the looked-up tenant, marks the property rented and appends the new rental |
| Views.KeepTenant | core/views.py:199-203 | a created tenant is inserted under the next key; a found one is already stored |
| Views.RentTo | core/views.py:204-209 | marks the property rented, then appends the rental and its "rent" activity |
| Views.EditRental | core/views.py:245-274 | an unknown rental is not found, and a phone without "+" is refused before anything changes. Otherwise the tenant's name and phone and the rental's form fields are overwritten, and the receiver's rows for the new status are appended. Properties, history and notifications are unchanged |
| Views.Amend | core/views.py:257-262 | overwrites the tenant's name and phone, then the rental's form fields, appending the receiver's rows for the new status |
| Views.MarkAsPaid | core/views.py:341-355 | an unknown rental is not found and nothing changes. Otherwise only the status becomes "paid", one "payment" row for the owner is appended every time, and the user's upcoming payments are returned |
| Views.MarkedRentalStaysUpcoming | core/views.py:343-350 | the upcoming test never reads the status, so the list returned after marking a rental paid holds it iff the list before did |
| Views.SetPaid | core/views.py:343-345 | sets the status of the stored rental to "paid" and saves it, appending one "payment" row |
| Views.EmptyProperty | core/views.py:370-395 | an unknown rental is not found and nothing changes. Otherwise the property becomes vacant, one history row for the rental is appended, the rental is deleted, and nothing else changes |
| Views.Vacate | core/views.py:375-393 | the writes of `empty_property`: vacant property, one history row, rental gone, no activity |
| Views.Archive | core/views.py:378-393 | one history row ending today, then the rental is deleted |
| Views.SetRented | core/views.py:207-208 | sets `is_rented` on the stored property and saves it, which appends no activity |
| Views.DeleteProperty | core/views.py:166-172 | an unknown property is not found and nothing changes. Otherwise the property and every row that cascades from it are removed, no rental refers to it any more, tenants and the outbox are unchanged, and the user's remaining properties are returned |

## Left out

- `get_next_payment` is imported from `core/utils.py`; its body is outside this model and is the parameter `NextPaymentFn`.
- `get_monthly_revenue` and `get_payment_status_chart` (`core/views.py:61-63`) are not part of this model, and neither is the monthly revenue and status chart they compute for the home page.
- The commented-out `reset_payment_status` and `expected_income` (`core/models.py:189-252`) are dead code.
- HTTP, `login_required`, redirects, templates and HTML rendering are not modelled. Each handler returns its data or an error.
- Form validation and the `RentPropertyForm` widgets (`core/forms.py`) are not modelled. Handlers receive validated fields.
- `RentPropertyForm` as declared (`core/forms.py:13-21`) excludes only "property" and "owner", so it would also carry a `tenant` field. It does not accept the `property=`, `tenant=` and `action=` arguments that `core/views.py:193` and `core/views.py:249-251` pass, and it has no `tenant_name` or `tenant_phone_number` fields for `core/views.py:195-196` and `core/views.py:253-254` to read. The model follows the views: the tenant comes from the lookup, or stays the rental's own, and never from the form. `RentalForm` holds the rental's own fields, and the name and phone are separate parameters of the handlers.
- The `int(self.payment)` parse is not modelled. The rental stores the interval as an integer.
- Image and contract uploads are not modelled: the tenant's `id_image`, and the storage behind `contract.url`. The contract is carried as its stored path.
- The Django signal registration is not modelled. Each receiver runs right after the save it listens to. Both receivers are named `create_rent_history`, and a weakly referenced first receiver may be dropped once the name is rebound; the model keeps both.
- The Channels consumer, `group_send` transport and concurrency are not modelled. A push is a message appended to the outbox.
- Timestamps and `created_at` are not modelled. Newest-first is reverse insertion order, and "available" properties are listed in table order.
- Views.Home: the rented properties are not ordered by `property_rentals__end_date`, and the duplicate rows that join can produce are not modelled. Membership is stated, not order.
- Views.MarkAsPaid: the returned list is computed over the user's rented properties in table order, each once. The query at `core/views.py:347-349` orders them by `property_rentals__end_date`, which is a join. That join can order the properties differently. It also lists a property twice when it has two rentals, which is possible because `rent_property` never checks `is_rented`. Membership of the returned list is exact; its order and repetitions are not modelled.
- Views.SearchAllProperties: `.distinct()` is not modelled. The query does not join, so no property can appear twice.
- Views.RentProperty: states the number of pushed messages, not their contents. `Signals.ActivityPush` states what each one holds.
- Views.EditRental: states the number of pushed messages, not their contents, for the same reason.
- Views.Amend: states the number of pushed messages, not their contents, for the same reason.
- Views.RentWith: states the number of pushed messages, not their contents, for the same reason.
- Views.RentTo: states the number of pushed messages, not their contents, for the same reason.
- Views.SetPaid: states the number of pushed messages, not their contents, for the same reason.
- Views.MarkAsPaid: states the number of pushed messages, not their contents, for the same reason.
- Store.Ledger.SaveRental: states the number of pushed messages, not their contents, for the same reason.
- Store.Ledger.RentalPostSave: states the number of pushed messages, not their contents, for the same reason.
- Store.Ledger.PropertyPostSave: states the number of pushed messages, not their contents, for the same reason.
- Store.Ledger.SaveProperty: states the number of pushed messages, not their contents, for the same reason.
- Views.RentProperty: the title-casing of the tenant name is the parameter `title`, not Python's `str.title()`.
- Babel number formatting, gettext catalogues, settings, URLs, admin and static files are not modelled.
- The import-time default end date (`core/models.py:149`) is not modelled. Dates are passed explicitly.
- Deleting tenants or users, and the `SET_NULL` on a history row's tenant, are not modelled. No core operation deletes a tenant.

## Findings

| source | as written | input that shows it | evidently intended | confidence | as-written member | corrected member |
|---|---|---|---|---|---|---|
| core/views.py:199-203 with core/models.py:94 | `Tenant.objects.get_or_create(name=..., phone_number=..., defaults={"id_image": ...})` never supplies `landlord`, a NOT NULL foreign key, so creating a tenant raises an integrity error. `rent_property` catches it and shows it as a form error, so no property can be rented to a new tenant | an empty ledger and any rent request with phone "+249912345678" | the new tenant is created with `landlord = request.user` | not executed | Views.GetOrCreateTenantAsWritten (shown by Views.AsWrittenRejectsNewTenant and Views.AsWrittenRejectsFirstRental) | Views.GetOrCreateTenant (proved by Views.GetOrCreateTenantKeepsPairUnique), which Views.RentProperty uses |
