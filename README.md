# Theater ticketing: a Dafny model of its business rules

The theater application is a Django site. Theaters stage performances. A
showing pairs one theater with one performance. Tickets belong to a showing
and may be sold to a client, who pays from a money balance kept in the
application. This project models the part of the application that carries
rules, as opposed to web plumbing:

- `wrappers.dfy`, module `Wrappers`: the `Option` and `Result` shapes.
- `render.dfy`, module `Render`: how Python's `str()` writes the two values
  that appear inside display strings. These are a two-place decimal such as
  `4.01` and a time of day such as `11:36:59`. Each rendering has a parser and
  a round-trip proof.
- `models.dfy`, module `Models`: the records (`theaters_app/models.py`).
  - The five field validators, with "now" passed as a parameter.
  - The five entities, what validating each one demands (its validators,
    its non-blank text columns, and the `numeric(10, 2)` bound on money and
    price), and the text each `__str__` produces.
  - The rule that a (theater, performance) pair is scheduled at most once,
    beside the primary key on the showing's id.
- `forms.dfy`, module `Forms`: the add-funds form (`theaters_app/forms.py`).
  - Django's `DecimalField(max_digits, decimal_places)` limits, counted the
    way `DecimalValidator` counts digits.
  - `AddFundsForm.is_valid`'s own refusal of zero and negative amounts.
- `views.dfy`, module `Views`: the request handlers that change or select
  data (`theaters_app/views.py`).
  - The REST API's access decision.
  - Buying a ticket.
  - Crediting funds on the profile page.
  - The free-ticket list of a performance page.

The database is the class `Views.Store`. It has maps of theaters,
performances, clients and tickets, the sequence of showings, and the sequence
of ticket ids in the order ticket queries return them. `Ticket`'s
`Meta.ordering` sorts by place under the database's collation; the model
leaves that order unconstrained and only requires each ticket to appear once.

The handlers that change rows are methods of `Store`. Each method's new state
is given by a pure function of the old rows (`Purchase`, `Fund`). The lemmas
about those functions state what the handlers promise. Every method also keeps
the store's invariant:

- every theater, performance, client and ticket is stored under its own id;
- balances and prices are non-negative and fit their `numeric(10, 2)` columns;
- showing ids are unique, and so are showing (theater, performance) pairs;
- every showing's theater and performance are stored rows (the foreign keys);
- the ticket order lists each ticket exactly once.

Representation:

- An instant is an integer number of microseconds since 1970-01-01 UTC.
- A date is a number of days since that day.
- A stored decimal (`decimal_places=2`) is an integer number of hundredths.
- An amount typed into the form is a `Decimal(coefficient, exponent)`, as
  Python's `Decimal` writes it. The digit limits depend on how the number is
  written, so `1.999` has four digits.
- `MONEY_MAX_DIGITS` and `MONEY_DECIMAL_PLACES` are defined in
  `theaters_app/config.py`, which is not part of this model. They are taken
  as 10 and 2, the precision of the `Client.money` column the amount is added
  to.

## Model

| member | source | states |
|---|---|---|
| Models.DateOf | theaters_app/models.py:44-46 | the UTC date of an instant is the day whose 24 hours contain it |
| Models.CheckCreated | theaters_app/models.py:14-19 | passes exactly when the timestamp is not after now; otherwise fails with "Date and time is bigger than current!" |
| Models.CheckModified | theaters_app/models.py:22-27 | the same boundary and message as check_created |
| Models.CheckPositive | theaters_app/models.py:30-34 | passes exactly when the number is not negative, so 0 passes |
| Models.CheckLimits | theaters_app/models.py:37-41 | passes exactly on the closed interval [0, 5] (in hundredths, [0, 500]) |
| Models.CheckDate | theaters_app/models.py:44-48 | passes exactly when now is before the end of the given date, i.e. the date is today or later |
| Models.CheckDateAcceptsToday | theaters_app/models.py:44-48 | today's date passes, and yesterday's fails with "Date is less than current!" |
| Models.ValidatorExamples | tests/test_models.py:104-117 | for any clock reading from 2007-01-02T00:00:00 up to, but excluding, 3000-01-01T01:01:01.000001 (the weakest range for which every case holds): 2007 stamps pass and 3000 stamps fail; the date 3000-01-01 passes and 2007-01-01 fails; 1 and 4 pass; -1 fails both number checks |
| Models.ValidityPersists | theaters_app/models.py:14-41 | a theater, client, ticket or showing that validates at one instant still validates at any later one |
| Models.PerformanceValidityExpires | theaters_app/models.py:44-48 | a performance that validates now stops validating from the first instant after its date |
| Models.TheaterValid | theaters_app/models.py:77-87 | a valid theater has a rating in [0, 5], a non-blank title and address, and no future creation stamp |
| Models.PerformanceValid | theaters_app/models.py:105-108 | a valid performance's date has not yet ended, and its title and description are not blank |
| Models.ShowingValid | theaters_app/models.py:126-128 | a showing validates exactly when its creation stamp, if any, is not in the future |
| Models.ClientValid | theaters_app/models.py:141-148 | a valid client's balance is non-negative and below 10^8 (its numeric(10, 2) column), and its modification stamp is not in the future |
| Models.TicketValid | theaters_app/models.py:184-193 | a valid ticket's price is non-negative and below 10^8 (its numeric(10, 2) column), and its place is not blank |
| Models.TheaterText | theaters_app/models.py:95-96 | a theater's text opens with its quoted title and a comma, and ends with its rating as two-place text |
| Models.PerformanceText | theaters_app/models.py:116-117 | a performance's text opens with its quoted title and ", ", and the rest of it is exactly the description, so the description is recovered from the text |
| Models.ShowingText | theaters_app/models.py:130-131 | for a showing of theater t and performance p: the text opens with t's text and ends with p's, with the three characters " - " between |
| Models.ClientText | theaters_app/models.py:175-176 | a client's text opens with the username, followed by a space, and ends with the last name |
| Models.TicketText | theaters_app/models.py:210-211 | a ticket's text opens with "None, " when it has no showing, or with its showing's text and ", " when it has one; it ends with ", " and the place |
| Models.TheaterTextShape | theaters_app/models.py:95-96 | a theater's text opens with its quoted title and a comma, and its rating is read back exactly from the text's tail |
| Models.ClientTextUsername | theaters_app/models.py:175-176 | a client's text starts with the username followed by a space, so a username without spaces is its first word |
| Models.FirstWordOf | theaters_app/models.py:175-176 | the first word of "u rest" is u whenever u has no space |
| Models.TicketTextUnscheduled | theaters_app/models.py:210-211 | a ticket without a showing displays as "None, " then its price; its time is read back exactly from the eight characters after "р., " |
| Models.TheaterExample | tests/test_models.py:151-153 | the theater rated 4.01 and its performance display exactly as the tests expect |
| Models.ShowingExample | tests/test_models.py:189-197 | the test's showing of that performance at that theater displays as the two texts joined by " - " |
| Models.TicketExample | tests/test_models.py:154 | an unscheduled ticket for 100 at 11:36:59 in place 12 displays as "None, 100.00р., 11:36:59, 12" |
| Models.HasPair | theaters_app/models.py:135-137 | true exactly when some stored showing has the same theater and performance |
| Models.HasId | theaters_app/models.py:51-52 | true exactly when some stored showing has the given id |
| Models.AddShowing | theaters_app/models.py:126-137 | saving fails exactly when the id or the (theater, performance) pair is already taken, or the theater or performance is not stored; a later error is reported only when the earlier keys are free; otherwise the showing is appended and nothing else changes |
| Models.EmptyDatabaseRefusesShowing | theaters_app/models.py:126-128 | on an empty database every showing is refused for a missing theater or performance |
| Models.AddShowingKeepsIntegrity | theaters_app/models.py:126-137 | a successful save keeps showing ids unique, every (theater, performance) pair unique, and every showing's theater and performance stored |
| Forms.IsValid | theaters_app/forms.py:25-56 | an accepted amount is the submitted one and is strictly positive; a missing field is refused as required and a non-number as invalid; zero is refused, but never as "negative"; a negative amount is refused, but never as "not specified" |
| Forms.AcceptedAmountRange | theaters_app/forms.py:28-31 | every accepted amount has at most two decimal places and is a whole number of hundredths from 1 to 10^10 - 1 |
| Forms.AmountsWithinLimitsAccepted | theaters_app/forms.py:28-56 | conversely, every positive amount with at most two decimal places below 10^10 hundredths is accepted, however it is written |
| Forms.IsValidAcceptsExactly | theaters_app/forms.py:25-56 | is_valid accepts an input if and only if it is a positive number with at most two decimal places whose value is below 10^8 |
| Forms.Message | theaters_app/forms.py:45-54 | is_valid records a message of its own exactly for the "not specified" and "not positive" refusals, and it is one of the two texts of the source |
| Forms.RefusalMessages | theaters_app/forms.py:41-54 | a message of is_valid's own appears exactly when the field accepted a zero or negative number: "an error occured, money field was not specified!" for zero, "you can only add positive amount of money!" for a negative amount |
| Forms.DigitsAndDecimals | theaters_app/forms.py:28-31 | the decimal places counted are minus the exponent when it is negative, else none; at least one digit is counted, and never fewer digits than decimal places |
| Forms.LimitError | theaters_app/forms.py:28-31 | the only errors are the three digit limits; more than two decimal places always breaks one; a number that passes has at most ten digits |
| Forms.ExtraDecimalPlacesRejected | theaters_app/forms.py:28-31 | an amount with more than two digits after the point is refused by a digit limit |
| Forms.LargeAmountsRejected | theaters_app/forms.py:28-31 | a whole amount of 10^10 or more is refused for too many digits |
| Forms.FormExamples | tests/test_forms.py:13-34 | eleven nines and 1.999 are refused for their digits; -1 and 0 are refused by is_valid; 100 is accepted |
| Forms.DigitCount | theaters_app/forms.py:28-31 | the digit count of a coefficient bounds it: 10^(k-1) <= n < 10^k, for k > 1 |
| Views.HasPermission | theaters_app/views.py:243-265 | no method is allowed without authentication; GET, OPTIONS and HEAD are allowed to every authenticated user; POST, PUT and DELETE exactly to a superuser; any other method to nobody |
| Views.SuperuserMayDoMore | theaters_app/views.py:260-265 | whatever a plain user may do, a superuser may |
| Views.PermissionExamples | tests/test_api.py:98-110 | a user may read but not create, replace or delete; a superuser may do all four; PATCH is refused even to a superuser |
| Views.Purchase | theaters_app/views.py:223-240 | a purchase keeps the set of client and ticket rows; anything but a completed purchase leaves every row as it was; "not found" is answered exactly for an unknown ticket |
| Views.PurchaseSucceeds | theaters_app/views.py:223-230 | a purchase happens exactly on a POST by a known client whose balance covers the price of an existing ticket; the ticket then belongs to the buyer and the buyer's balance drops by exactly the price, with nothing else in the two rows changed |
| Views.PurchaseRefusedChangesNothing | theaters_app/views.py:223-240 | when the method is not POST, the balance is short, or the ticket or buyer is unknown, no row changes; the buy page reports whether the caller owns the ticket |
| Views.PurchaseTouchesOnlyTicketAndBuyer | theaters_app/views.py:223-229 | no row other than the ticket and the buyer changes, and no row is added or removed |
| Views.PurchaseKeepsLedgerValid | theaters_app/views.py:225-227 | with non-negative prices, balances stay non-negative and rows stay under their ids |
| Views.PurchaseReassignsOwnedTicket | theaters_app/views.py:223-229 | a ticket owned by another client is sold to the buyer anyway, and the previous owner is not refunded |
| Views.PurchaseOfOwnTicketDebitsAgain | theaters_app/views.py:225-229 | buying a ticket one already owns debits the price again and leaves the tickets unchanged |
| Views.Fund | theaters_app/views.py:75-95 | funding never touches tickets or adds or removes clients; the caller without a client row is answered exactly when the id is unknown; unless the page shows the form's own verdict, nothing changes |
| Views.FundCredits | theaters_app/views.py:78-83 | a valid funding POST raises the balance by exactly the amount entered, which is positive, when the new balance fits its numeric(10, 2) column; otherwise the save is refused and nothing changes; every other row and field is unchanged |
| Views.FundRefusedChangesNothing | theaters_app/views.py:78-85 | a GET, or a POST whose form is invalid, changes no row; the page carries the form's verdict |
| Views.FundKeepsLedgerValid | theaters_app/views.py:78-83 | funding keeps every balance non-negative |
| Views.FundExamples | tests/test_add_funds.py:22-34 | on a zero balance, posting -1 leaves it at 0, and posting 1 makes it 1.00 |
| Views.ShowingsOf | theaters_app/views.py:168 | the selection is no longer than the stored showings, and each showing selected is of the performance |
| Views.FreeAt | theaters_app/views.py:172-173 | the tickets listed for a showing are no more than the tickets, each belongs to that showing and has no client |
| Views.FreeTickets | theaters_app/views.py:170-173 | every ticket accumulated has no client |
| Views.ShowingsOfMembers | theaters_app/views.py:168 | a showing is selected exactly when it is stored and is of the performance |
| Views.FreeAtMembers | theaters_app/views.py:172-173 | a ticket is listed for a showing exactly when it is stored, belongs to that showing and has no client |
| Views.FreeTicketsMembers | theaters_app/views.py:171-173 | a ticket is in the accumulated list exactly when it is stored, has no client, and belongs to one of the walked showings |
| Views.FreeTicketsOfPerformance | theaters_app/views.py:168-173 | the performance page lists exactly the stored tickets without a client that belong to some showing of the performance |
| Views.FreeTicketsGrouped | theaters_app/views.py:170-173 | the list is grouped by showing: the tickets of earlier showings come before those of later ones |
| Views.FreeAtNoRepeats | theaters_app/views.py:172-173 | when the ticket query returns each ticket once, one showing's free tickets repeat nothing |
| Views.FreeTicketsNoRepeats | theaters_app/views.py:170-173 | when showing ids are distinct, the accumulated list repeats nothing |
| Views.ShowingsOfUniqueIds | theaters_app/views.py:168 | the showings selected for a performance keep their ids distinct |
| Views.PerformanceListsEachTicketOnce | theaters_app/views.py:168-173 | with unique showing ids and each ticket returned once, the performance page lists no ticket twice |
| Views.Store.SaveShowing | theaters_app/models.py:126-137 | a showing is stored unless its id or its pair is taken or its theater or performance is not stored; the store's invariant, including unique ids and pairs and stored references, is kept |
| Views.Store.Buy | theaters_app/views.py:211-240 | the outcome and the new client and ticket rows are those of the purchase; the other tables are unchanged and the store's invariant is kept |
| Views.Store.Profile | theaters_app/views.py:64-95 | the outcome and the new rows are those of funding; the other tables are unchanged and the invariant is kept |
| Views.Store.PerformanceView | theaters_app/views.py:167-180 | an unknown performance is "not found"; otherwise the loop returns the free tickets of the performance's showings, walked in stored order, and lists no ticket twice |

## Left out

- The Django ORM is not modelled: `save()`, `get_object_or_404` and query execution. The database is the `Store` object, and a missing row is an error outcome.
- Template rendering, redirects and the `login_required` redirect are left out. A handler returns an outcome value, and the signed-in user's client is passed as its id.
- The two separate `save()` calls of a purchase, and concurrent purchases, are left out. A purchase is one state change; a crash between the saves is not modelled.
- The real clock and UUID generation are left out. "Now" and ids are parameters.
- Pagination of the list pages is left out (library behaviour).
- The registration form is left out. Its checks come from Django's user-creation form.
- Serializers, admin, URL routing, the app configuration and the viewset and test factories are left out (framework wiring).
- The list of tickets the profile page shows is left out. It is display only; the funding logic does not read it.
- Parsing the posted text into a number is left out. The form's input is already a `Decimal`, or "missing", or "not a number".
- Models.TicketText: the model prints a price as the two-place column returns it when the row is read back, so `100` prints as `100.00`. A ticket object built in memory with the integer `100` keeps that integer after it is saved and prints `100`.
- Models.TheaterText: the rating is printed the same way, as the two-place column returns it. A theater built in memory with the default rating `5`, or with an integer such as `4`, prints `rating - 5` or `rating - 4`; the model prints `5.00` or `4.00`.
- Models.TicketExample: for that reason the example proves `None, 100.00р., 11:36:59, 12`. The test at tests/test_models.py:154 prints the in-memory object just created and expects `None, 100р., 11:36:59, 12`.
- Views.Fund: a balance that overflows its column is refused by the database and the request fails (`SaveRefused`). The error page itself is not modelled.
- Models.TheaterValid: the rating column's own `max_digits=3` check is not repeated, because every value in [0, 5] with two places already fits it.
- Fractions of a second in a ticket's time are not modelled. Times are whole seconds, as the forms and the tests write them.
- Models.TheaterExample: the float `4.01` in the test is modelled as 401 hundredths, the value the two-place column stores.
