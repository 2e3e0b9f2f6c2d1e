# Vehicle rental: a verified model of the business rules

The vehicle-rental system is a FastAPI backend over SQL tables, with a React
front end. This project models the part of it where the rules live:

- the backend's data layer, in `backend/crud.py`: partial updates, reservation conflicts and availability, vehicle return, converting a reservation, membership points and spending, revenue, overdue rentals, filters and search;
- the HTTP handlers that guard it, in `backend/main.py`: duplicate checks, availability, the return endpoint's fee defaults and spending increment, the payments report, list bounds;
- the request schemas' defaults and limits, in `backend/schemas.py`;
- the React pages that compute with money and dates. RentalDetail covers amount paid, balance and its label, overdue test, late-fee suggestion, duration and the return dialog. RentalForm covers day count, total and vehicle choice. Dashboard covers revenue, counts and recent lists;
- the customer list's search box, pagination and delete (`Customers.tsx`);
- the seven form pages' validators, input handling and error mapping;
- the navigation frame's active-link test and sidebar toggle (`Layout.tsx`).

How the model is laid out:

- There is one module per source file. The helpers are in `Base`, for sequences and ceiling division, and in `Text`, for JavaScript's `trim`, `toLowerCase` (on ASCII letters), `includes`, the email pattern and `parseInt` without a radix. `FormKit` holds the input coercions and the error dictionary that every form shares.
- The backend store is one class, `Crud.Store`. It holds a table of records for each entity as a `seq` field, and its methods change them in place. The queries are functions and predicates over those sequences, in `CrudQueries`.
- Each page is a class. Its fields are the component's state, and its methods are the handlers and effects. Each validator is a method that fills the error dictionary entry by entry. It is proved against a per-field specification function, and the methods' contracts and lemmas relate the two.
- Money is whole cents. `CentsToNumber` turns cents into the dollar figures the client works with. Instants are whole milliseconds and calendar days are day numbers. The late fee, which is days × rate × 0.5, is a `real`.
- The current time, `Date` parsing, the replies of server calls and the user's answer to a confirmation dialog cannot be seen from inside the program. They are parameters.
- JavaScript form state is a map from field to a dynamically typed value, because the forms really store strings in number fields. The Findings below rest on that.

## Model

| member | source | states |
|---|---|---|
| Schemas.NewProfileInfo | backend/schemas.py:50-56 | a profile created without values has tier "Standard", level "Bronze", zero points, zero lifetime rentals, zero spending and no last activity |
| Schemas.MakePreference | backend/schemas.py:77-82 | a preference is accepted iff its vehicle type has at most 30 characters and its score, when given, lies in 1..10; an over-long type is refused naming vehicle_type |
| Schemas.NewVehicleInfo | backend/schemas.py:152-163 | a vehicle sent with only its required fields is available, has mileage 0, Gasoline, Automatic, 5 seats and no location, and keeps the fields it was given |
| Schemas.NewVehicleInfoValid | backend/schemas.py:152-163 | the vehicle defaults satisfy the schema's length limits whenever the required strings do |
| Schemas.NewReservationInfo | backend/schemas.py:239-248 | a reservation sent without a status is "Active" with no special requests and no estimate, and keeps the ids and window it was given |
| Schemas.NewRentalInfo | backend/schemas.py:270-289 | a rental sent with only its required fields has a 200.00 security deposit, status "Active", zero discount, late and damage fees and no return data |
| Schemas.NewPaymentInfo | backend/schemas.py:320-326 | a payment sent without a status is "Completed" with no transaction id |
| Schemas.MakePagination | backend/schemas.py:495-497 | pagination is accepted iff page >= 1 and 1 <= per_page <= 100 (defaults 1 and 10), and the accepted values are the ones given |
| Schemas.Patched | backend/crud.py:32-34 | a field the request left unset keeps its old value; a set field takes the sent value |
| CrudQueries.DayOfBounds | backend/crud.py:312-313 | an instant falls on day d exactly when it lies in [midnight of d, midnight of d+1) |
| CrudQueries.OverlapClausesIffOverlap | backend/crud.py:238-242 | for well-formed windows the three-clause conflict test holds iff the half-open windows overlap (rs < e and re > s) |
| CrudQueries.BackToBackNoConflict | backend/crud.py:238-242 | windows that only touch (existing end = new start, or new end = existing start) do not conflict |
| CrudQueries.CheckVehicleAvailability | backend/crud.py:233-245 | the vehicle is available iff no reservation for that vehicle, Active or Confirmed, conflicts with the window |
| CrudQueries.NonHoldingReservationIrrelevant | backend/crud.py:236-237 | a reservation for another vehicle, or one neither Active nor Confirmed, never changes the answer |
| CrudQueries.OverlappingHoldBlocks | backend/crud.py:233-245 | an Active or Confirmed reservation of the same vehicle whose window overlaps makes the vehicle unavailable |
| CrudQueries.OverdueRentals | backend/crud.py:150-157 | the result is the subsequence of exactly the Active, not returned rentals whose end lies before now |
| CrudQueries.RevenueZeroWithoutMatch | backend/crud.py:211-219 | revenue is 0 when no rental is Completed with its start in the range |
| CrudQueries.RevenueAppend | backend/crud.py:211-219 | revenue over two lists of rentals is the sum of their revenues |
| CrudQueries.RevenueIgnoresUncompleted | backend/crud.py:216 | a rental that is not Completed adds nothing to revenue |
| CrudQueries.RevenueCountsCompleted | backend/crud.py:212-216 | a Completed rental starting within the inclusive range adds exactly its total_amount |
| CrudQueries.FilterRentals | backend/crud.py:159-177 | at most limit rentals are returned, each a stored rental passing every given filter |
| CrudQueries.NoRentalFiltersPagesAll | backend/crud.py:177 | with no filter given the result is the offset/limit page of all rentals, newest first |
| CrudQueries.FalsyRentalFiltersIgnored | backend/crud.py:162-167 | a zero customer or vehicle id and an empty status are falsy and filter nothing |
| CrudQueries.FilterVehicles | backend/crud.py:92-116 | at most limit vehicles are returned, each a stored vehicle passing every given filter |
| CrudQueries.UnavailableFilterApplies | backend/crud.py:106-107 | asking for availability false returns only unavailable vehicles (the test is "is not None", not truthiness) |
| CrudQueries.SearchCustomers | backend/crud.py:65-73 | at most limit customers are returned, each one whose first name, last name, email or phone contains the term ignoring case; on the first page, when the matches fit, all of them in table order |
| CrudQueries.FirstNameMatchFound | backend/crud.py:68 | a customer whose first name contains the term is always a match |
| CrudQueries.PaymentsByDateRange | backend/crud.py:309-317 | the result is the subsequence of exactly the Completed payments whose day lies in the inclusive range |
| CrudQueries.LastDayPaymentIncluded | backend/crud.py:312-313 | a Completed payment made at any moment of the last day of the range is included |
| Crud.ApplyCustomerUpdate | backend/crud.py:31-37 | each field the update carries is overwritten with the sent value and every other field is unchanged |
| Crud.EmptyCustomerUpdateIsIdentity | backend/crud.py:31-37 | an update that carries no field leaves the customer unchanged |
| Crud.CustomerUpdateIdempotent | backend/crud.py:31-37 | applying the same update twice equals applying it once |
| Crud.CustomerUpdatePreservesValidity | backend/schemas.py:19-26 | a valid customer stays within the schema's length limits under an update that respects them |
| Crud.ApplyVehicleUpdate | backend/crud.py:31-37 | each field the vehicle update carries is overwritten and every other field is unchanged |
| Crud.VehicleUpdatePreservesValidity | backend/schemas.py:168-179 | a valid vehicle stays valid under an update that respects the update schema's limits |
| Crud.ApplyReservationUpdate | backend/crud.py:31-37 | each carried field is overwritten, every other field is unchanged, and the customer can never change (the update schema has no such field) |
| Crud.ReplaceCustomerUniqueIff | backend/models.py:15-18 | writing a customer at a position keeps emails and driver licences unique exactly when no other customer holds either |
| Crud.AppendCustomerUniqueIff | backend/models.py:15-18 | appending a customer keeps them unique exactly when no customer holds its email or licence |
| Crud.ReplaceVehiclePlateUniqueIff | backend/models.py:169 | writing a vehicle at a position keeps plates unique exactly when no other vehicle carries its plate |
| Crud.AppendVehiclePlateUniqueIff | backend/models.py:169 | appending a vehicle keeps plates unique exactly when no vehicle carries its plate |
| Crud.ReturnedRental | backend/crud.py:192-198 | the returned rental is Completed, returned at the given instant (now by default), carries the closing mileage, fuel and fees (0.00 by default), and nothing else changes; the prior status is not consulted |
| Crud.ReturnedRentalSettled | backend/crud.py:190-219 | a returned rental is never overdue and counts towards the revenue of every range containing its start |
| Crud.ReturnedVehicle | backend/crud.py:201-205 | the vehicle becomes available, takes the closing mileage only when that is present and non-zero, and nothing else changes |
| Crud.WithAvailability | backend/crud.py:125-131 | only the availability flag changes, to the requested value |
| Crud.AddPoints | backend/crud.py:368-369 | points_balance grows by the points added, last activity becomes today, nothing else changes |
| Crud.AddSpending | backend/crud.py:379-381 | lifetime_spending grows by the amount, lifetime_rentals by exactly 1, last activity becomes today, nothing else changes |
| Crud.SpendAllTotals | backend/crud.py:374-384 | a run of spending updates adds the sum of the amounts to lifetime spending and their number to lifetime rentals, and leaves the points balance alone |
| Crud.PointsAndSpendingCommute | backend/crud.py:363-384 | a points update and a spending update on the same day commute |
| Crud.ConvertedReservationReleasesHold | backend/crud.py:255 | marking a reservation Converted never makes an available vehicle unavailable |
| Crud.Store.constructor | backend/crud.py:390-398 | the store starts with every table empty and its key invariant holding |
| Crud.Store.CustomerIndex | backend/crud.py:17-18 | returns the position of a customer with the key, and None iff no customer has it |
| Crud.Store.CustomerByEmail | backend/crud.py:53-54 | returns the position of a customer with the email, and None iff no customer has it |
| Crud.Store.CustomerByDriverLicense | backend/crud.py:56-57 | returns the position of a customer with the licence, and None iff no customer has it |
| Crud.Store.VehicleIndex | backend/crud.py:17-18 | returns the position of a vehicle with the key, and None iff no vehicle has it |
| Crud.Store.VehicleByPlate | backend/crud.py:87-90 | returns the position of a vehicle with the plate, and None iff no vehicle has it |
| Crud.Store.RentalIndex | backend/crud.py:191 | returns the position of a rental with the key, and None iff no rental has it |
| Crud.Store.ReservationIndex | backend/crud.py:248 | returns the position of a reservation with the key, and None iff no reservation has it |
| Crud.Store.EmployeeByEmail | backend/crud.py:269-270 | returns the position of an employee with the email, and None iff no employee has it |
| Crud.Store.ProfileIndex | backend/crud.py:364-366 | profiles are looked up by customer: the position of one for the customer, None iff there is none |
| Crud.Store.CreateCustomer | backend/crud.py:23-29 | the customer is appended under the next key, which advances; the key invariant is kept |
| Crud.Store.CreateVehicle | backend/crud.py:23-29 | the vehicle is appended under the next key, which advances |
| Crud.Store.CreateEmployee | backend/crud.py:23-29 | the employee is appended under the next key, which advances |
| Crud.Store.CreateReservation | backend/crud.py:23-29 | the reservation is appended under the next key, which advances |
| Crud.Store.CreateRental | backend/crud.py:23-29 | the rental is appended under the next key, stamped with the insertion instant |
| Crud.Store.UpdateCustomer | backend/crud.py:31-37 | an existing customer is replaced by the updated record in place; a missing one gives NoRow and no change; an update leaving an email or driver licence another customer holds (unique at backend/models.py:15,18) is rolled back with no change; uniqueness is preserved |
| Crud.Store.UpdateVehicle | backend/crud.py:31-37 | an existing vehicle is replaced by the updated record in place; a missing one gives NoRow and no change; an update leaving a plate another vehicle carries (unique at backend/models.py:169) is rolled back; plate uniqueness is preserved |
| Crud.Store.UpdateReservation | backend/crud.py:31-37 | an existing reservation is replaced by the updated record in place; a missing one gives None and no change |
| Crud.Store.DeleteCustomer | backend/crud.py:39-49 | the first customer with the key is removed and returned, the others stay in order, when no profile, reservation or rental names it; NoRow and no change when there is none; RolledBack and no change while dependents remain; every dependent still names an existing customer afterwards |
| Crud.Store.RemoveKeepsOthers | backend/crud.py:45-48 | removing the row with key id leaves every other key findable |
| Crud.Store.UpdateAvailability | backend/crud.py:125-131 | the vehicle's flag is set when it exists; None and no change otherwise |
| Crud.Store.ReturnVehicle | backend/crud.py:190-209 | an existing rental is closed as ReturnedRental states and its vehicle, when it exists, becomes ReturnedVehicle; a missing rental gives None and no change |
| Crud.Store.ConvertToRental | backend/crud.py:247-265 | only an existing Confirmed reservation converts: the rental is inserted, the reservation becomes Converted and the reservation's vehicle becomes unavailable; otherwise None and nothing changes |
| Crud.Store.UpdatePoints | backend/crud.py:363-372 | the customer's profile, when there is one, becomes AddPoints of it; None and no change otherwise |
| Crud.Store.UpdateSpending | backend/crud.py:374-384 | the customer's profile, when there is one, becomes AddSpending of it; None and no change otherwise |
| Api.CreateCustomer | backend/main.py:64-77 | a request breaking the schema is refused, then a duplicate email (checked first), then a duplicate licence, each with nothing created; the customer is created iff all pass; emails and licences that were unique stay unique |
| Api.CreateVehicle | backend/main.py:137-145 | a duplicate plate is refused with nothing created; the vehicle is created iff the schema holds and the plate is new; plates that were unique stay unique |
| Api.CreateEmployee | backend/main.py:431-439 | a duplicate email is refused with nothing created; the employee is created iff the schema holds and the email is new |
| Api.CreateReservation | backend/main.py:238-251 | the reservation is created iff the availability check passes; otherwise "not available" and nothing changes |
| Api.AcceptedReservationOverlapsNoHold | backend/main.py:238-251 | an accepted well-formed reservation does not overlap any Active or Confirmed reservation of the same vehicle |
| Api.CreateRental | backend/main.py:313-318 | the rental is always created and the vehicle marked unavailable, with no availability check |
| Api.ConvertReservationToRental | backend/main.py:297-307 | succeeds iff the reservation exists and is Confirmed; otherwise 400 and nothing changes; on success the new rental is appended, the reservation becomes Converted and its vehicle, if any, unavailable, and nothing else changes |
| Api.FeeOrZero | backend/main.py:400-401 | a missing fee becomes 0 and a given one is kept (a zero one is 0 either way) |
| Api.ReturnRentalVehicle | backend/main.py:386-411 | 404 and no change without the rental; otherwise the rental is closed at now with missing fees as 0, replaced in place, its vehicle, if any, becomes available and takes the final mileage when a nonzero one is given, and the customer's profile, if any, gains the rental's total_amount, fees excluded |
| Api.DeleteCustomer | backend/main.py:110-116 | succeeds iff the customer exists and has no profile, reservation or rental; 404 with no change when it is missing; a server error with no change when the commit fails on its dependents; on success exactly that row is cut from the list; references still resolve afterwards |
| Api.UpdateCustomerPoints | backend/main.py:634-644 | 404 iff the customer has no profile, with no change; otherwise the profile gains the points |
| Api.PaymentsReportFor | backend/main.py:527-542 | the report lists the Completed payments of the range, total_payments is their number and total_amount the sum of their amounts |
| Api.PaymentsReportSplits | backend/main.py:534-540 | splitting the range at a day splits the count and the total |
| Api.ReadCustomers | backend/main.py:79-87 | accepted iff skip >= 0 and 1 <= limit <= 100 (defaults 0 and 100); the result is at most limit customers taken in order from position skip |
| Api.SearchCustomersEndpoint | backend/main.py:118-126 | accepted iff the term has at least one character and the bounds hold; the result is the data layer's search |
| Text.BlankIffTrimEmpty | frontend/vehicle-rental/src/pages/CustomerForm.tsx:70 | a field fails `!x.trim()` exactly when trimming leaves nothing, that is when every character is white space |
| Text.Lower | frontend/vehicle-rental/src/pages/Customers.tsx:25 | toLowerCase keeps the length and lower-cases each ASCII letter in place; other characters are kept (see Left out) |
| Text.LowerIdempotent | frontend/vehicle-rental/src/pages/Customers.tsx:25 | lower-casing twice is lower-casing once |
| Text.EmailPatternTestIff | frontend/vehicle-rental/src/pages/CustomerForm.tsx:80 | the email check holds iff some non-space run, '@', non-space run, '.', non-space run occurs somewhere in the string (the unanchored `\S+@\S+\.\S+`) |
| Text.EmailPatternExamples | frontend/vehicle-rental/src/pages/CustomerForm.tsx:80 | "a@b.co" passes the email check; "a@b", "a.com", "" and "a @b.co" fail it |
| Text.ParseInt | frontend/vehicle-rental/src/pages/IncidentForm.tsx:20 | parseInt without a radix gives NaN exactly when no digit of the radix follows the leading white space, the sign and any "0x" prefix |
| Text.ParseIntOfDecimal | frontend/vehicle-rental/src/pages/RentalForm.tsx:121 | parsing an id written out in decimal gives the id back |
| Text.ParseIntHexExample | frontend/vehicle-rental/src/pages/IncidentForm.tsx:20 | "0x1A" parses as 26, because a radix-less parseInt reads the hex prefix |
| Text.ParseIntBarePrefixExample | frontend/vehicle-rental/src/pages/IncidentForm.tsx:20 | a bare "0x" is NaN |
| Text.ParseIntTrailingExample | frontend/vehicle-rental/src/pages/IncidentForm.tsx:20 | "7px" parses as 7: what follows the digits is ignored |
| FormKit.OrZero | frontend/vehicle-rental/src/pages/RentalForm.tsx:531 | `x \|\| 0` is the number when it is a truthy number and 0 otherwise |
| FormKit.Coerce | frontend/vehicle-rental/src/pages/EmployeeForm.tsx:49-58 | text and select elements store their value string; a number input stores the page's empty value when the box is empty and parseFloat of it otherwise |
| FormKit.CoerceKeepsText | frontend/vehicle-rental/src/pages/CustomerForm.tsx:52-57 | a text or select input always leaves its field holding a string |
| FormKit.CoerceKeepsNumber | frontend/vehicle-rental/src/pages/VehicleForm.tsx:95-96 | when an empty box becomes 0, a number input always leaves its field holding a number |
| FormKit.CoerceCheckbox | frontend/vehicle-rental/src/pages/EmployeeForm.tsx:56-57 | a page that reads checked stores a checkbox as its checked flag; otherwise as its value string |
| FormKit.ClearError | frontend/vehicle-rental/src/pages/CustomerForm.tsx:59-64 | editing a field clears that field's error and leaves every other entry, and the set of entries, unchanged |
| FormKit.Flag | frontend/vehicle-rental/src/pages/CustomerForm.tsx:70-72 | one validator step records msg for k when the rule fails and changes nothing else |
| FormKit.ClearErrorIdempotent | frontend/vehicle-rental/src/pages/CustomerForm.tsx:59-64 | clearing an already cleared error changes nothing |
| FormKit.InitialIdFromQuery | frontend/vehicle-rental/src/pages/IncidentForm.tsx:20 | the initial id is the parsed query parameter, or 0 when it is absent or does not parse |
| FormKit.InitialIdRoundTrip | frontend/vehicle-rental/src/pages/MaintenanceForm.tsx:19 | a link carrying an id in decimal starts the form with that id |
| FormKit.PlaceholderEscapesStrictZero | frontend/vehicle-rental/src/pages/RentalForm.tsx:147 | choosing the placeholder option stores the string "0", which the page's `=== 0` test does not catch |
| FormKit.IsUnselectedCatchesPlaceholder | frontend/vehicle-rental/src/pages/RentalForm.tsx:147 | the corrected test catches the placeholder under every coercion and agrees with `=== 0` on numbers |
| FormKit.ChecksDisagreeOnlyOnPlaceholder | frontend/vehicle-rental/src/pages/RentalForm.tsx:147 | the page's `=== 0` test and the corrected test disagree on exactly one value, the placeholder string "0" |
| FormKit.ChosenOptionIsSelected | frontend/vehicle-rental/src/pages/RentalForm.tsx:254 | an option whose value is a decimal id counts as chosen exactly when the id is nonzero |
| FormKit.ErrorBody | backend/main.py:70 | the error body of an HTTPException contains its detail text |
| CustomerForm.InitialForm | frontend/vehicle-rental/src/pages/CustomerForm.tsx:11-19 | every field starts as a string (the empty one) |
| CustomerForm.FormErrorsByField | frontend/vehicle-rental/src/pages/CustomerForm.tsx:67-94 | the recorded errors are exactly the fields whose rule fails, each with its message: names, phone and driver licence required after trimming, email required and matching the pattern |
| CustomerForm.ValidIffAcceptable | frontend/vehicle-rental/src/pages/CustomerForm.tsx:92-93 | no error is recorded iff first and last name, phone, driver licence and email are non-blank and the email passes the pattern |
| CustomerForm.UnvalidatedFieldsIgnored | frontend/vehicle-rental/src/pages/CustomerForm.tsx:67-94 | address and date of birth never affect the recorded errors |
| CustomerForm.SubmitFailure | frontend/vehicle-rental/src/pages/CustomerForm.tsx:117-127 | a 400 mentioning "Email already registered" becomes the email error, else one mentioning "Driver license already registered" the licence error, else the validation banner; any other status the save banner |
| CustomerForm.EmailTakenMapped | frontend/vehicle-rental/src/pages/CustomerForm.tsx:118-119 | the server's duplicate-email refusal lands on the email field |
| CustomerForm.LicenseTakenMapped | frontend/vehicle-rental/src/pages/CustomerForm.tsx:120-121 | the server's duplicate-licence refusal lands on the licence field |
| CustomerForm.UnprocessableMapped | frontend/vehicle-rental/src/pages/CustomerForm.tsx:125-126 | a 422 schema refusal shows the save banner, not the validation banner |
| CustomerForm.Page.constructor | frontend/vehicle-rental/src/pages/CustomerForm.tsx:11-23 | the page starts with the empty form, no errors, no banner and nothing sent |
| CustomerForm.Page.HandleInputChange | frontend/vehicle-rental/src/pages/CustomerForm.tsx:52-65 | only the edited field changes, to the typed string, and only its error is cleared |
| CustomerForm.Page.ValidateForm | frontend/vehicle-rental/src/pages/CustomerForm.tsx:67-94 | the errors become FormErrors of the form and the result is true iff the form is acceptable |
| CustomerForm.Page.HandleSubmit | frontend/vehicle-rental/src/pages/CustomerForm.tsx:96-131 | an unacceptable form sends nothing; an acceptable one is sent once (create or update), then navigates on success or shows SubmitFailure's effect; loading ends cleared |
| EmployeeForm.InitialForm | frontend/vehicle-rental/src/pages/EmployeeForm.tsx:18-29 | the text fields start as strings (empty), the numbers undefined and is_active true |
| EmployeeForm.FormErrorsByField | frontend/vehicle-rental/src/pages/EmployeeForm.tsx:73-104 | the recorded errors are exactly the fields whose rule fails: names, phone and role required after trimming, hire date present, email required and matching the pattern |
| EmployeeForm.ValidIffAcceptable | frontend/vehicle-rental/src/pages/EmployeeForm.tsx:102-103 | no error is recorded iff names, phone, role and email are non-blank, the email passes the pattern and a hire date is present |
| EmployeeForm.SubmitFailure | frontend/vehicle-rental/src/pages/EmployeeForm.tsx:119-125 | only a 400 mentioning "Email already registered" lands on the email field; everything else shows the create banner |
| EmployeeForm.EmailTakenMapped | frontend/vehicle-rental/src/pages/EmployeeForm.tsx:121-122 | the server's duplicate-email refusal lands on the email field |
| EmployeeForm.Page.constructor | frontend/vehicle-rental/src/pages/EmployeeForm.tsx:18-34 | the page starts with the initial form, no errors and nothing sent |
| EmployeeForm.Page.HandleInputChange | frontend/vehicle-rental/src/pages/EmployeeForm.tsx:49-71 | only the edited field changes, an empty number becoming undefined and a checkbox its checked flag, and only its error is cleared |
| EmployeeForm.Page.ValidateForm | frontend/vehicle-rental/src/pages/EmployeeForm.tsx:73-104 | the errors become FormErrors of the form and the result is true iff it is acceptable |
| EmployeeForm.Page.HandleSubmit | frontend/vehicle-rental/src/pages/EmployeeForm.tsx:106-129 | an unacceptable form sends nothing; an acceptable one is sent once, then navigates to /employees or shows SubmitFailure's effect |
| LocationForm.InitialForm | frontend/vehicle-rental/src/pages/LocationForm.tsx:17-25 | every field starts as a string (the empty one) |
| LocationForm.FormErrorsByField | frontend/vehicle-rental/src/pages/LocationForm.tsx:44-54 | the recorded errors are exactly the fields among name, address, city, state and zip code that are blank after trimming |
| LocationForm.ValidIffAcceptable | frontend/vehicle-rental/src/pages/LocationForm.tsx:52-53 | no error is recorded iff the five required fields are non-blank |
| LocationForm.UnvalidatedFieldsIgnored | frontend/vehicle-rental/src/pages/LocationForm.tsx:44-54 | phone and operating hours never affect the recorded errors |
| LocationForm.Page.constructor | frontend/vehicle-rental/src/pages/LocationForm.tsx:17-28 | the page starts with the empty form, no errors and nothing sent |
| LocationForm.Page.HandleInputChange | frontend/vehicle-rental/src/pages/LocationForm.tsx:30-42 | only the edited field changes and only its error is cleared |
| LocationForm.Page.ValidateForm | frontend/vehicle-rental/src/pages/LocationForm.tsx:44-54 | the errors become FormErrors of the form and the result is true iff it is acceptable |
| LocationForm.Page.HandleSubmit | frontend/vehicle-rental/src/pages/LocationForm.tsx:56-69 | an unacceptable form sends nothing; an acceptable one is sent once and navigates to /locations on success; a failure only ends loading |
| VehicleForm.InitialForm | frontend/vehicle-rental/src/pages/VehicleForm.tsx:28-36 | the form starts with the current year and a daily rate of 0, its text fields strings |
| VehicleForm.Capacity | frontend/vehicle-rental/src/pages/VehicleForm.tsx:138 | the seating capacity checked is the field's number, or 5 when it is undefined |
| VehicleForm.FormErrorsByField | frontend/vehicle-rental/src/pages/VehicleForm.tsx:115-145 | the recorded errors are exactly the fields whose rule fails: make, model and plate non-blank, year in [1900, current year + 1], daily rate > 0, capacity in [1, 20] |
| VehicleForm.ValidIffAcceptable | frontend/vehicle-rental/src/pages/VehicleForm.tsx:143-144 | no error is recorded iff all six rules hold |
| VehicleForm.InitialFormNeedsRate | frontend/vehicle-rental/src/pages/VehicleForm.tsx:134-136 | a fresh form cannot be saved: its rate of 0 is flagged while its year passes |
| VehicleForm.SubmitFailure | frontend/vehicle-rental/src/pages/VehicleForm.tsx:168-176 | a 400 mentioning "License plate already exists" lands on the plate field, any other 400 shows the validation banner, any other status the save banner |
| VehicleForm.PlateTakenMapped | frontend/vehicle-rental/src/pages/VehicleForm.tsx:169-170 | the server's duplicate-plate refusal lands on the plate field |
| VehicleForm.Page.constructor | frontend/vehicle-rental/src/pages/VehicleForm.tsx:28-45 | the page starts with the initial form, no errors and nothing sent |
| VehicleForm.Page.HandleInputChange | frontend/vehicle-rental/src/pages/VehicleForm.tsx:88-113 | only the edited field changes, an empty number becoming 0 and a checkbox its checked flag, and only its error is cleared |
| VehicleForm.Page.ValidateForm | frontend/vehicle-rental/src/pages/VehicleForm.tsx:115-145 | the errors become FormErrors of the form and the result is true iff it is acceptable |
| VehicleForm.Page.HandleSubmit | frontend/vehicle-rental/src/pages/VehicleForm.tsx:147-180 | an unacceptable form sends nothing; an acceptable one is sent once (create or update), then navigates to /vehicles or shows SubmitFailure's effect |
| ReservationForm.InitialForm | frontend/vehicle-rental/src/pages/ReservationForm.tsx:18-28 | the form starts with status "Active", every id 0 and empty dates |
| ReservationForm.FormErrorsByField | frontend/vehicle-rental/src/pages/ReservationForm.tsx:80-118 | the recorded errors are exactly the fields whose rule fails: four ids chosen, both dates present, and an end not after the start flagged on the end date; "chosen" is the page's `=== 0` test under AsWritten and the corrected test under Corrected |
| ReservationForm.ValidIffAcceptable | frontend/vehicle-rental/src/pages/ReservationForm.tsx:116-117 | no error is recorded iff the four ids are chosen, both dates are present and the end is not at or before the start; "chosen" is the page's `=== 0` test under AsWritten and the corrected test under Corrected |
| ReservationForm.SubmitFailure | frontend/vehicle-rental/src/pages/ReservationForm.tsx:135-139 | any failure whose text mentions "not available" shows the unavailability banner, whatever its status; every other one the generic banner |
| ReservationForm.Page.constructor | frontend/vehicle-rental/src/pages/ReservationForm.tsx:18-35 | the page starts with the initial form, no errors and nothing sent |
| ReservationForm.Page.HandleInputChange | frontend/vehicle-rental/src/pages/ReservationForm.tsx:58-78 | only the edited field changes, an empty number becoming 0, and only its error is cleared |
| ReservationForm.Page.ValidateForm | frontend/vehicle-rental/src/pages/ReservationForm.tsx:80-118 | the errors become FormErrors of the form and the result is true iff it is acceptable, with the page's own `=== 0` test (AsWritten) |
| ReservationForm.Page.HandleSubmit | frontend/vehicle-rental/src/pages/ReservationForm.tsx:120-143 | an unacceptable form sends nothing; an acceptable one is sent once, then navigates to /reservations or shows SubmitFailure's banner, with the page's own `=== 0` test (AsWritten) |
| ReservationForm.PlaceholderSentAsWritten | frontend/vehicle-rental/src/pages/ReservationForm.tsx:83-95 | choosing the placeholder "0" in any of the four selects of a form the page accepts stores the string "0", and the page's `=== 0` test still accepts the form |
| ReservationForm.CorrectedCheckFlagsPlaceholder | frontend/vehicle-rental/src/pages/ReservationForm.tsx:83-85 | under the corrected test the same choice is flagged ("Please select a customer" for the customer select) and the form is not acceptable |
| ReservationForm.ChecksAgreeWithoutPlaceholder | frontend/vehicle-rental/src/pages/ReservationForm.tsx:83-95 | when no checked select holds the placeholder string, both tests record the same errors |
| ReservationForm.PlaceholderSubmitted | frontend/vehicle-rental/src/pages/ReservationForm.tsx:58-143 | on the page as written, choosing the placeholder and submitting an otherwise accepted form sends the form with the id "0" |
| IncidentForm.InitialForm | frontend/vehicle-rental/src/pages/IncidentForm.tsx:19-29 | the form starts with the given rental id and status "Open" |
| IncidentForm.FormErrorsByField | frontend/vehicle-rental/src/pages/IncidentForm.tsx:76-97 | the recorded errors are exactly the fields whose rule fails: a rental chosen, type and description non-blank, a date present; "chosen" is the page's `=== 0` test under AsWritten and the corrected test under Corrected |
| IncidentForm.ValidIffAcceptable | frontend/vehicle-rental/src/pages/IncidentForm.tsx:95-96 | no error is recorded iff a rental is chosen, type and description are non-blank and a date is present; "chosen" is the page's `=== 0` test under AsWritten and the corrected test under Corrected |
| IncidentForm.LinkedRentalPreselected | frontend/vehicle-rental/src/pages/IncidentForm.tsx:20 | a link carrying rental n starts with a rental chosen iff n > 0; without the parameter the rental is flagged; under either test |
| IncidentForm.Page.constructor | frontend/vehicle-rental/src/pages/IncidentForm.tsx:19-29 | the page starts from the query's rental id, with no errors and nothing sent |
| IncidentForm.Page.HandleInputChange | frontend/vehicle-rental/src/pages/IncidentForm.tsx:54-74 | only the edited field changes, an empty number becoming undefined, and only its error is cleared |
| IncidentForm.Page.ValidateForm | frontend/vehicle-rental/src/pages/IncidentForm.tsx:76-97 | the errors become FormErrors of the form and the result is true iff it is acceptable, with the page's own `=== 0` test (AsWritten) |
| IncidentForm.Page.HandleSubmit | frontend/vehicle-rental/src/pages/IncidentForm.tsx:99-115 | an unacceptable form sends nothing; an acceptable one is sent once and navigates to /incidents on success; a failure does not navigate; loading ends cleared, with the page's own `=== 0` test (AsWritten) |
| IncidentForm.PlaceholderSentAsWritten | frontend/vehicle-rental/src/pages/IncidentForm.tsx:79-81 | choosing the placeholder "0" in the rental select of a form the page accepts stores the string "0", and the page's `=== 0` test still accepts the form |
| IncidentForm.CorrectedCheckFlagsPlaceholder | frontend/vehicle-rental/src/pages/IncidentForm.tsx:79-81 | under the corrected test the same choice is flagged ("Please select a rental") and the form is not acceptable |
| IncidentForm.ChecksAgreeWithoutPlaceholder | frontend/vehicle-rental/src/pages/IncidentForm.tsx:79-81 | when no checked select holds the placeholder string, both tests record the same errors |
| IncidentForm.PlaceholderSubmitted | frontend/vehicle-rental/src/pages/IncidentForm.tsx:54-115 | on the page as written, choosing the placeholder and submitting an otherwise accepted form sends the form with the id "0" |
| MaintenanceForm.InitialForm | frontend/vehicle-rental/src/pages/MaintenanceForm.tsx:18-26 | the form starts with the given vehicle id and status "Scheduled" |
| MaintenanceForm.FormErrorsByField | frontend/vehicle-rental/src/pages/MaintenanceForm.tsx:75-92 | the recorded errors are exactly the fields whose rule fails: a vehicle chosen, a non-blank type, a date present; "chosen" is the page's `=== 0` test under AsWritten and the corrected test under Corrected |
| MaintenanceForm.ValidIffAcceptable | frontend/vehicle-rental/src/pages/MaintenanceForm.tsx:90-91 | no error is recorded iff a vehicle is chosen, the type is non-blank and a date is present; "chosen" is the page's `=== 0` test under AsWritten and the corrected test under Corrected |
| MaintenanceForm.LinkedVehiclePreselected | frontend/vehicle-rental/src/pages/MaintenanceForm.tsx:19 | a link carrying vehicle n starts with a vehicle chosen iff n > 0; without the parameter the vehicle is flagged; under either test |
| MaintenanceForm.Page.constructor | frontend/vehicle-rental/src/pages/MaintenanceForm.tsx:18-32 | the page starts from the query's vehicle id, with no errors and nothing sent |
| MaintenanceForm.Page.HandleInputChange | frontend/vehicle-rental/src/pages/MaintenanceForm.tsx:53-73 | only the edited field changes, an empty number becoming undefined, and only its error is cleared |
| MaintenanceForm.Page.ValidateForm | frontend/vehicle-rental/src/pages/MaintenanceForm.tsx:75-92 | the errors become FormErrors of the form and the result is true iff it is acceptable, with the page's own `=== 0` test (AsWritten) |
| MaintenanceForm.Page.HandleSubmit | frontend/vehicle-rental/src/pages/MaintenanceForm.tsx:94-113 | an unacceptable form sends nothing; an acceptable one is sent once, then navigates to /maintenance or shows the scheduling banner without navigating, with the page's own `=== 0` test (AsWritten) |
| MaintenanceForm.PlaceholderSentAsWritten | frontend/vehicle-rental/src/pages/MaintenanceForm.tsx:78-80 | choosing the placeholder "0" in the vehicle select of a form the page accepts stores the string "0", and the page's `=== 0` test still accepts the form |
| MaintenanceForm.CorrectedCheckFlagsPlaceholder | frontend/vehicle-rental/src/pages/MaintenanceForm.tsx:78-80 | under the corrected test the same choice is flagged ("Please select a vehicle") and the form is not acceptable |
| MaintenanceForm.ChecksAgreeWithoutPlaceholder | frontend/vehicle-rental/src/pages/MaintenanceForm.tsx:78-80 | when no checked select holds the placeholder string, both tests record the same errors |
| MaintenanceForm.PlaceholderSubmitted | frontend/vehicle-rental/src/pages/MaintenanceForm.tsx:53-113 | on the page as written, choosing the placeholder and submitting an otherwise accepted form sends the form with the id "0" |
| RentalForm.InitialForm | frontend/vehicle-rental/src/pages/RentalForm.tsx:18-32 | the form starts with the query's customer and vehicle ids, a 200.00 deposit, a total of 0 and status "Active" |
| RentalForm.DayCount | frontend/vehicle-rental/src/pages/RentalForm.tsx:88-90 | the day count is the ceiling of the millisecond difference over one day (bounds both ways); it exists iff both dates parse, and it is positive iff the end is after the start |
| RentalForm.ChargedDays | frontend/vehicle-rental/src/pages/RentalForm.tsx:86-92 | a charged day count is found iff both dates are set, the rate is positive and the count is positive |
| RentalForm.Recalculated | frontend/vehicle-rental/src/pages/RentalForm.tsx:92-98 | with a positive count the total becomes days times the daily rate; otherwise the form is untouched; no other field ever changes |
| RentalForm.RecalculatedDays | frontend/vehicle-rental/src/pages/RentalForm.tsx:86-102 | rentalDays becomes the positive count, 0 when the count is not positive, and is unchanged when the guard fails |
| RentalForm.RecalculationIdempotent | frontend/vehicle-rental/src/pages/RentalForm.tsx:48-50 | running the recomputation again changes neither the form nor rentalDays |
| RentalForm.DaysAgreeWithDateCheck | frontend/vehicle-rental/src/pages/RentalForm.tsx:547 | once both dates parse and the rate is positive, rentalDays is nonzero (the submit button enabled) iff the validator's end-after-start check passes |
| RentalForm.DueToday | frontend/vehicle-rental/src/pages/RentalForm.tsx:531 | the amount due today is the total plus the deposit when the deposit is a truthy number, the total alone otherwise |
| RentalForm.DueTodayAfterRecalculation | frontend/vehicle-rental/src/pages/RentalForm.tsx:531 | after a recomputation finding d days the amount due today is d times the rate plus the deposit |
| RentalForm.FindVehicle | frontend/vehicle-rental/src/pages/RentalForm.tsx:122 | the found vehicle is a listed one with the id, and None iff no listed vehicle has it |
| RentalForm.FindListedVehicle | frontend/vehicle-rental/src/pages/RentalForm.tsx:122 | in a list with distinct ids a listed vehicle is found by its own id |
| RentalForm.ChosenVehicle | frontend/vehicle-rental/src/pages/RentalForm.tsx:120-123 | a change picks a vehicle only on the vehicle select, when the value parses and a listed vehicle carries that id |
| RentalForm.ChoosingOptionPicksVehicle | frontend/vehicle-rental/src/pages/RentalForm.tsx:276 | choosing a listed vehicle's option, its id in decimal, picks that vehicle |
| RentalForm.WithVehicleTerms | frontend/vehicle-rental/src/pages/RentalForm.tsx:125-131 | the chosen vehicle fills in its id, its daily rate and its mileage and the given pickup; every other field is unchanged |
| RentalForm.PickupAfterChoice | frontend/vehicle-rental/src/pages/RentalForm.tsx:130 | the pickup becomes the vehicle's location when it is truthy and stays the previous one otherwise |
| RentalForm.Stored | frontend/vehicle-rental/src/pages/RentalForm.tsx:110-117 | the first update stores the coerced value, an empty number becoming 0 |
| RentalForm.AfterChange | frontend/vehicle-rental/src/pages/RentalForm.tsx:105-133 | without a chosen vehicle only the coerced value is stored |
| RentalForm.VehicleChoiceFillsTerms | frontend/vehicle-rental/src/pages/RentalForm.tsx:120-133 | picking vehicle v leaves v's id, rate and mileage, the pickup rule's location, and every other field as it was |
| RentalForm.ChosenVehicleSatisfiesChecks | frontend/vehicle-rental/src/pages/RentalForm.tsx:151-153 | a vehicle with a nonzero id and a positive rate passes the vehicle check and the rate check |
| RentalForm.FormErrorsByField | frontend/vehicle-rental/src/pages/RentalForm.tsx:144-186 | the recorded errors are exactly the fields whose rule fails: four ids chosen, both dates present, end after start, daily rate > 0; "chosen" is the page's `=== 0` test under AsWritten and the corrected test under Corrected |
| RentalForm.EndTooEarlyAlwaysReported | frontend/vehicle-rental/src/pages/RentalForm.tsx:171-178 | an end not after the start is always reported on the end date, whatever the other fields hold |
| RentalForm.ValidIffAcceptable | frontend/vehicle-rental/src/pages/RentalForm.tsx:184-185 | no error is recorded iff the four ids are chosen, both dates are present, the end is after the start and the rate is positive; "chosen" is the page's `=== 0` test under AsWritten and the corrected test under Corrected |
| RentalForm.Page.constructor | frontend/vehicle-rental/src/pages/RentalForm.tsx:18-42 | the page starts from the query's ids with no vehicles, no errors, rentalDays 0 and nothing sent |
| RentalForm.Page.FetchFormData | frontend/vehicle-rental/src/pages/RentalForm.tsx:52-84 | on failure only the load banner is set; on success the vehicle list is stored and a vehicle named in the query and found in it fills in its terms |
| RentalForm.Page.CalculateTotalAmount | frontend/vehicle-rental/src/pages/RentalForm.tsx:86-103 | the form becomes Recalculated and rentalDays RecalculatedDays of the old state |
| RentalForm.Page.HandleInputChange | frontend/vehicle-rental/src/pages/RentalForm.tsx:105-142 | the form becomes AfterChange with the vehicle the change picks, and only the edited field's error is cleared |
| RentalForm.Page.ValidateForm | frontend/vehicle-rental/src/pages/RentalForm.tsx:144-186 | the errors become FormErrors of the form and the result is true iff it is acceptable, with the page's own `=== 0` test (AsWritten) |
| RentalForm.Page.HandleSubmit | frontend/vehicle-rental/src/pages/RentalForm.tsx:188-207 | an unacceptable form sends nothing; an acceptable one is sent once, then navigates to /rentals or shows the create banner, with the page's own `=== 0` test (AsWritten) |
| RentalForm.PlaceholderSentAsWritten | frontend/vehicle-rental/src/pages/RentalForm.tsx:147-161 | choosing the placeholder "0" in the customer, vehicle or location selects of a form the page accepts stores the string "0", and the page's `=== 0` test still accepts the form |
| RentalForm.CorrectedCheckFlagsPlaceholder | frontend/vehicle-rental/src/pages/RentalForm.tsx:147-149 | under the corrected test the same choice is flagged ("Please select a customer" for the customer select) and the form is not acceptable |
| RentalForm.ChecksAgreeWithoutPlaceholder | frontend/vehicle-rental/src/pages/RentalForm.tsx:147-161 | when no checked select holds the placeholder string, both tests record the same errors |
| RentalForm.PlaceholderSubmitted | frontend/vehicle-rental/src/pages/RentalForm.tsx:105-207 | on the page as written, choosing the placeholder and submitting an otherwise accepted form sends the form with the id "0" |
| RentalDetail.TotalPaidAppend | frontend/vehicle-rental/src/pages/RentalDetail.tsx:120-124 | a new payment raises the amount paid by its amount when it is Completed and leaves it unchanged otherwise |
| RentalDetail.TotalPaidBounds | frontend/vehicle-rental/src/pages/RentalDetail.tsx:120-124 | with no negative amounts the amount paid lies between 0 and the sum of all payments |
| RentalDetail.AllCompletedAllPaid | frontend/vehicle-rental/src/pages/RentalDetail.tsx:120-124 | when every payment is Completed, all of them count |
| RentalDetail.BalanceIgnoresDiscountAndDeposit | frontend/vehicle-rental/src/pages/RentalDetail.tsx:153 | the discount and the security deposit do not move the balance |
| RentalDetail.BalanceAfterPayment | frontend/vehicle-rental/src/pages/RentalDetail.tsx:152-153 | a Completed payment lowers the balance by its amount; any other payment leaves it unchanged |
| RentalDetail.StandingOf | frontend/vehicle-rental/src/pages/RentalDetail.tsx:367 | the label is Due iff the balance is positive, Overpaid iff negative, Paid iff zero |
| RentalDetail.ShownAmount | frontend/vehicle-rental/src/pages/RentalDetail.tsx:367 | the amount shown is the balance or its negation, never negative |
| RentalDetail.ShownBalanceDeterminesBalance | frontend/vehicle-rental/src/pages/RentalDetail.tsx:359-367 | the shown amount and label together give back the balance, and the warning colour is used iff the label is Due |
| RentalDetail.PayingBalanceSettles | frontend/vehicle-rental/src/pages/RentalDetail.tsx:152-153 | paying exactly the balance with a Completed payment makes the label Paid |
| RentalDetail.OverdueAgreesWithServer | frontend/vehicle-rental/src/pages/RentalDetail.tsx:126-129 | the page's overdue test holds whenever the server lists the rental as overdue, and conversely when no return date is recorded |
| RentalDetail.ReturnedNotOverdue | frontend/vehicle-rental/src/pages/RentalDetail.tsx:127 | a rental the server has returned (now Completed) is never shown as overdue |
| RentalDetail.DaysLate | frontend/vehicle-rental/src/pages/RentalDetail.tsx:75 | the days late are at least 1 and the ceiling of the lateness over one day (bounds both ways) |
| RentalDetail.LateFeeFirstDay | frontend/vehicle-rental/src/pages/RentalDetail.tsx:75-76 | up to one day late costs half a day's rate |
| RentalDetail.LateFeeWholeDays | frontend/vehicle-rental/src/pages/RentalDetail.tsx:75-76 | being late by any amount within the k-th day costs k halves of the daily rate |
| RentalDetail.LateFeeMonotone | frontend/vehicle-rental/src/pages/RentalDetail.tsx:74-76 | with a non-negative rate, a later return never costs less |
| RentalDetail.LateFeePositive | frontend/vehicle-rental/src/pages/RentalDetail.tsx:74-76 | a late return costs something iff the daily rate is positive |
| RentalDetail.Duration | frontend/vehicle-rental/src/pages/RentalDetail.tsx:111-118 | the duration is the ceiling of (last day − start) over one day, the last day being the actual return when there is one and the end date otherwise |
| RentalDetail.DurationOfBooking | frontend/vehicle-rental/src/pages/RentalDetail.tsx:114-117 | a rental booked for k whole days and not returned lasts k days |
| RentalDetail.EarlyReturnShortens | frontend/vehicle-rental/src/pages/RentalDetail.tsx:114-117 | a return before the end date never lengthens the duration |
| RentalDetail.Edited | frontend/vehicle-rental/src/pages/RentalDetail.tsx:517-560 | each dialog input replaces its own field of returnData and nothing else |
| RentalDetail.WithVehicleMileage | frontend/vehicle-rental/src/pages/RentalDetail.tsx:53-59 | the odometer box takes the vehicle's mileage only when that is truthy; the rest of returnData is kept |
| RentalDetail.UntouchedOdometerKept | frontend/vehicle-rental/src/pages/RentalDetail.tsx:53-59 | a dialog confirmed without touching the odometer leaves the vehicle's odometer where it was once the server applies it |
| RentalDetail.ReturnAttempt | frontend/vehicle-rental/src/pages/RentalDetail.tsx:72-85 | the request carries the form as it stood when the press began; when the rental is late the form is left with the computed late fee, otherwise unchanged |
| RentalDetail.LateFeeSentOnRetry | frontend/vehicle-rental/src/pages/RentalDetail.tsx:77-85 | for a late return the first request carries the fee the form already held; only a second press sends the computed fee |
| RentalDetail.Page.constructor | frontend/vehicle-rental/src/pages/RentalDetail.tsx:19-30 | the page starts loading, with no rental, no payments, the modal closed and returnData (0, 1.0, 0, 0) |
| RentalDetail.Page.ShownBalance | frontend/vehicle-rental/src/pages/RentalDetail.tsx:152-153 | once a rental is loaded, balance plus amount paid equals total plus late fees plus damage fees |
| RentalDetail.Page.FetchRentalData | frontend/vehicle-rental/src/pages/RentalDetail.tsx:38-66 | a failure sets the load error and keeps what was shown; a success stores rental and payments, clears the error and fills the odometer box by WithVehicleMileage; loading ends cleared |
| RentalDetail.Page.OpenReturnModal | frontend/vehicle-rental/src/pages/RentalDetail.tsx:131-170 | callable only on the page drawn after loading without an error; the return dialog opens only for an Active rental |
| RentalDetail.Page.EditReturnData | frontend/vehicle-rental/src/pages/RentalDetail.tsx:517-560 | returnData becomes Edited of the old one |
| RentalDetail.Page.HandleReturnVehicle | frontend/vehicle-rental/src/pages/RentalDetail.tsx:68-98 | callable only with the dialog open, not loading and no error; without a rental nothing happens; otherwise the captured returnData is sent once and the late fee written afterwards; a failure alerts and keeps the dialog; a success closes it and reloads as FetchRentalData does |
| Customers.Visible | frontend/vehicle-rental/src/pages/Customers.tsx:20-33 | a blank term keeps the whole list; any other keeps exactly the listed customers that match it |
| Customers.VisibleIsSubsequence | frontend/vehicle-rental/src/pages/Customers.tsx:24-31 | the search box only drops customers, keeping the others in their order |
| Customers.ContainsThenContainsIgnoringCase | frontend/vehicle-rental/src/pages/Customers.tsx:26-30 | an occurrence as typed is also an occurrence ignoring case |
| Customers.PageMatchWithoutLicenceIsServerMatch | frontend/vehicle-rental/src/pages/Customers.tsx:24-31 | a customer the box keeps for its names, email or phone is one the server's search returns too; only a licence match is the page's own |
| Customers.PageSlice | frontend/vehicle-rental/src/pages/Customers.tsx:88-90 | page p shows at most ten customers, those at positions (p - 1) * 10 onwards, in order |
| Customers.PageCount | frontend/vehicle-rental/src/pages/Customers.tsx:91 | the page count is the ceiling of the list's length over ten |
| Customers.PagesUpToPrefix | frontend/vehicle-rental/src/pages/Customers.tsx:88-91 | pages 1 to k read one after another are the list's first 10 * k customers, or all of it |
| Customers.PagesPartitionList | frontend/vehicle-rental/src/pages/Customers.tsx:88-91 | pages 1 to totalPages read one after another give back the whole list, each customer once and in order |
| Customers.ItemOnItsPage | frontend/vehicle-rental/src/pages/Customers.tsx:88-91 | customer i is on page i / 10 + 1, an existing page, at row i % 10 |
| Customers.PaginationShownIffMoreThanOnePage | frontend/vehicle-rental/src/pages/Customers.tsx:227 | the page buttons are drawn iff there are more than ten customers to show |
| Customers.EnabledButtonsStayInRange | frontend/vehicle-rental/src/pages/Customers.tsx:229-253 | an enabled Previous or Next button leads to a page that exists |
| Customers.WithoutCustomer | frontend/vehicle-rental/src/pages/Customers.tsx:56 | deleting keeps exactly the customers with another id |
| Customers.WithoutCustomerKeepsOrder | frontend/vehicle-rental/src/pages/Customers.tsx:56 | deleting keeps the other customers in their order |
| Customers.WithoutAbsentCustomer | frontend/vehicle-rental/src/pages/Customers.tsx:56 | deleting an id that is not listed changes nothing |
| Customers.Page.constructor | frontend/vehicle-rental/src/pages/Customers.tsx:8-14 | the page starts loading, with empty lists, a blank search term and page 1 |
| Customers.Page.CurrentCustomers | frontend/vehicle-rental/src/pages/Customers.tsx:87-90 | the rows shown are the current page's slice of the filtered list |
| Customers.Page.SearchEffect | frontend/vehicle-rental/src/pages/Customers.tsx:20-35 | the filtered list becomes Visible of the list and the term, and the page goes back to 1 |
| Customers.Page.SetSearchTerm | frontend/vehicle-rental/src/pages/Customers.tsx:20-35 | typing a new term reruns the filter and returns to page 1; retyping the same term changes nothing else |
| Customers.Page.FetchCustomers | frontend/vehicle-rental/src/pages/Customers.tsx:37-50 | a failure sets the load error and keeps the lists; a success replaces the list, clears the error and reruns the filter; loading ends cleared |
| Customers.Page.HandleDelete | frontend/vehicle-rental/src/pages/Customers.tsx:52-62 | a declined confirmation changes nothing; a failed delete alerts and keeps the list; a success removes the customer and reruns the filter |
| Customers.Page.HandleSearch | frontend/vehicle-rental/src/pages/Customers.tsx:64-81 | a blank term reloads as FetchCustomers does; any other term puts the server's results in place of the list on success and sets the search error on failure, leaving an earlier error in place on success |
| Customers.Page.Paginate | frontend/vehicle-rental/src/pages/Customers.tsx:93 | a page button moves to the page it names |
| Dashboard.RevenueAppend | frontend/vehicle-rental/src/pages/Dashboard.tsx:59-60 | the revenue of two lists together is the sum of their revenues |
| Dashboard.RevenueOfOneMore | frontend/vehicle-rental/src/pages/Dashboard.tsx:59-60 | one more rental adds its total when it is Completed and nothing otherwise |
| Dashboard.RevenueWithoutCompleted | frontend/vehicle-rental/src/pages/Dashboard.tsx:59-60 | rentals none of which is Completed earn no revenue |
| Dashboard.RevenueOfFirstPage | frontend/vehicle-rental/src/pages/Dashboard.tsx:55-60 | the figure shown is the revenue of the first ten rentals only: the revenue of all of them less that of the rest |
| Dashboard.FirstFive | frontend/vehicle-rental/src/pages/Dashboard.tsx:71-72 | the first five items, or all of them when there are fewer, in order |
| Dashboard.FirstFiveIsPrefix | frontend/vehicle-rental/src/pages/Dashboard.tsx:71-72 | the five shown are a prefix of the list |
| Dashboard.StatsOf | frontend/vehicle-rental/src/pages/Dashboard.tsx:62-69 | each count shown is the length of its list, and the revenue is that of the fetched rentals |
| Dashboard.OverdueWarningIffAnyOverdue | frontend/vehicle-rental/src/pages/Dashboard.tsx:158 | the overdue card is drawn as a warning iff the server lists some overdue rental |
| Dashboard.Page.constructor | frontend/vehicle-rental/src/pages/Dashboard.tsx:17-28 | the page starts loading with all figures zero and both lists empty |
| Dashboard.Page.FetchDashboardData | frontend/vehicle-rental/src/pages/Dashboard.tsx:34-79 | a failure sets the error and keeps what was shown; a success shows StatsOf the replies and the first five rentals and vehicles needing maintenance; loading ends cleared |
| Layout.ActiveExamples | frontend/vehicle-rental/src/components/Layout.tsx:13-15 | a detail page lights up its section, the section itself does, and a longer name that only begins with the section's does not |
| Layout.ActiveBelow | frontend/vehicle-rental/src/components/Layout.tsx:13-15 | every location below an active path is active too |
| Layout.ActiveOneSegmentUnique | frontend/vehicle-rental/src/components/Layout.tsx:13-15 | two one-segment paths active at the same location are the same path |
| Layout.SlashAfter | frontend/vehicle-rental/src/components/Layout.tsx:14 | where a path is active the location begins with it, followed by the end or a slash |
| Layout.MenuPathsOneSegment | frontend/vehicle-rental/src/components/Layout.tsx:17-68 | every menu path is a single segment |
| Layout.MenuPathsDistinct | frontend/vehicle-rental/src/components/Layout.tsx:17-68 | no two menu entries have the same path |
| Layout.AtMostOneActive | frontend/vehicle-rental/src/components/Layout.tsx:94-98 | at most one menu entry is highlighted, wherever the user is |
| Layout.Frame.constructor | frontend/vehicle-rental/src/components/Layout.tsx:10 | the sidebar starts open |
| Layout.Frame.NavLinks | frontend/vehicle-rental/src/components/Layout.tsx:94-104 | one link per menu entry, in order, with its path and icon, highlighted iff active, with its caption iff the sidebar is open |
| Layout.Frame.Toggle | frontend/vehicle-rental/src/components/Layout.tsx:76 | the button flips the sidebar |
| Layout.ToggleTwice | frontend/vehicle-rental/src/components/Layout.tsx:76 | pressing the button twice leaves the sidebar as it was |

## Left out

- `services/api.ts`, the HTTP client, is an opaque collaborator. Every call's reply is a parameter of the handler that makes it. One mismatch is visible at that boundary. The client sends the return dialog's values as a JSON body, while `return_rental_vehicle` reads them as query parameters. The model follows the backend: `Api.ReturnRentalVehicle` takes the values it would read.
- Database sessions, commits, refreshes, transactions and SQL execution are left out. Tables are in-memory sequences, and `ilike` is a case-insensitive substring test.
- Key generation is left out too. New keys come from a counter, and `created_at` stamps come from a parameter.
- Handlers and data-layer methods that only read and pass a record through are not modelled one by one. These are the single-record `get_*` handlers, `get_with_profile`, the top-customers list, the per-customer and per-vehicle lists, and the reports other than payments. The revenue report handler (`backend/main.py:413-425`) returns `get_rental_revenue` unchanged, so it is not modelled separately. `get_rental_revenue` itself is modelled as `CrudQueries.RentalRevenue`.
- The TypeScript record types declare shapes only. `backend/models.py` declares the tables: their fields appear in the datatypes of `Schemas`. Its unique columns on customers' email and driver licence and on vehicles' plate are modelled where an update can break them (`Crud.Store.UpdateCustomer`, `Crud.Store.UpdateVehicle`). Its foreign keys to a customer are modelled in `Crud.Store.DeleteCustomer`. Three kinds of constraint are not modelled: the unique employee email, which no endpoint updates; the foreign keys to vehicles, locations and employees (see the next line); and the column lengths, which the schemas bound.
- Crud.Store.CreateReservation, Crud.Store.CreateRental, Api.CreateReservation and Api.CreateRental accept a vehicle, location or employee id that names no row. Whether the database then refuses the insert depends on whether its engine enforces foreign keys, which the source does not fix.
- CustomerUpdate and VehicleUpdate: an explicit JSON null for a NOT NULL column (`{"first_name": null}`) cannot be expressed, because each field is either unset or a value. The update schema accepts such a null, `model_dump(exclude_unset=True)` keeps it, and `setattr` writes it (`backend/crud.py:32-34`). The commit would then fail with a 500. That path is not modelled.
- Crud.Store.DeleteCustomer: rests on the ORM's handling of relationships declared without a delete cascade (`backend/models.py:24-27`). The session loads the customer's profile, reservations and rentals and blanks their customer column before the delete. Those columns are NOT NULL (`backend/models.py:45,224,246`), so the commit fails, and the `ON DELETE CASCADE` of those keys never runs. Vehicle preferences (`backend/models.py:61`) are not a table of this model, so a customer whose only dependents are preferences is deleted here.
- Api.DeleteCustomer: the same assumption. The failed commit is an uncaught exception, which the framework answers with a bare 500.
- Crud.Store.CreateCustomer and Crud.Store.CreateVehicle do not refuse a duplicate themselves. Their callers `Api.CreateCustomer` and `Api.CreateVehicle` check for one first, as the handlers do.
- Text.Lower: folds only the letters A to Z. JavaScript's `toLowerCase` folds every letter that has a lower-case mapping, and can change the string's length. A search typed with such letters is not modelled.
- Money on the client is taken to arrive as JSON numbers, as `types/index.ts:227,281` declare. The backend's amounts are `Decimal` (`backend/schemas.py:279-289`). If they were serialised as strings, the client's `+` in its sums (`Dashboard.tsx:60`, `RentalDetail.tsx:123,153`) would join text instead of adding. That case is not modelled.
- Pydantic's `EmailStr` is a foreign validator and is not modelled. Neither is the regular expression engine: the client's email pattern is modelled by its meaning, as `Text.EmailPatternTest`.
- `datetime.now()`, `date.today()`, `new Date()` and `Date` parsing are parameters.
- `Promise.all`, concurrent requests, unmount races and the order in which React applies state updates are concurrency and are left out. Each handler runs to completion in one step. The loading flags are modelled only where a handler sets and clears them.
- The model has no floating point. Money is kept in cents. The only reals are the late fee and the client's value of an amount. The number that `parseFloat` or `parseInt` makes of an input's text is a field of the change event. `NaN` results are not modelled, the return dialog's included.
- Formatting with `toLocaleString`, `toLocaleDateString` and `Intl.NumberFormat`, and all markup, are left out. The exceptions are the few things the markup decides: which links are highlighted, when labels, buttons and banners are shown, and the balance style. The markup also decides, through the browser's constraint validation, whether a form's submit handler runs at all; the next line covers that.
- CustomerForm.Page.HandleSubmit, EmployeeForm.Page.HandleSubmit, LocationForm.Page.HandleSubmit, VehicleForm.Page.HandleSubmit, ReservationForm.Page.HandleSubmit, IncidentForm.Page.HandleSubmit, MaintenanceForm.Page.HandleSubmit and RentalForm.Page.HandleSubmit start at the submit event. None of the forms sets `noValidate`, so the browser's constraint validation runs first: `required`, `type="email"`, and `min`, `max` and `step` (for example `CustomerForm.tsx:169-243`, `VehicleForm.tsx:281-282`). It can cancel the event before any handler runs, and it is not modelled. So a year of 1800 in the vehicle form, or an email such as "x y@b.co", is stopped by the browser, although the handler as modelled would record the error or send the form.
- The edit mode of the customer and vehicle forms is left out, apart from the `editing` flag that picks update over create. That mode loads the record (`fetchCustomer`, `CustomerForm.tsx:31-50`; `fetchVehicle`, `VehicleForm.tsx:63-86`), prefills the form, and shows "Failed to load … data" when the load fails.
- The lists that the form pages fetch only to fill their select boxes are left out: customers, locations, employees, rentals and mechanics. So are the load errors for those fetches. RentalForm's vehicle list is kept, because choosing a vehicle fills in the form.
- RentalForm's `selectedVehicle` state is left out. It only drives a details panel, and storing the chosen record next to the form made the proof of `handleInputChange` too costly. The form fields that choosing a vehicle fills in are modelled.
- The incidents list on RentalDetail is left out, as is the `parseInt` of the route's id. The page receives the rental id as a number.
- Route navigation after a successful submit is recorded as a flag on each form page. The router itself is not modelled.
- RentalForm.Page.HandleSubmit: does not require the submit button to be enabled, that is, `rentalDays != 0` (`RentalForm.tsx:547`). The handler itself does not check it. `RentalForm.DaysAgreeWithDateCheck` relates the button's state to the validator's end-date rule instead.
- CrudQueries.FilterRentals: states membership, the filters and the limit, not the exact order of the page. `CrudQueries.NoRentalFiltersPagesAll` pins the order down only when no filter is given.
- CrudQueries.FilterVehicles: states membership, the filters and the limit, not the exact order of the page.
- CrudQueries.SearchCustomers: states membership and the limit, and pins down a page only for the first page. The order of rows in the database is not modelled.

## Findings

Each row's as-written member runs on the page's own `=== 0` test (`SelectCheck.AsWritten`), which the page methods use. Its corrected member runs on the same validator with `SelectCheck.Corrected`, which counts an id as unselected when it is the number 0 or the placeholder string "0". `FormKit.ChecksDisagreeOnlyOnPlaceholder` shows that the two tests differ on that one value only. Each form's `ChecksAgreeWithoutPlaceholder` shows that they record the same errors whenever no select holds it. The browser's constraint validation does not stop these submits: `required` counts a select as unfilled only when the chosen option has the empty value, and the placeholder's value is "0".

| source | as written | input that shows it | evidently intended | confidence | as-written member | corrected member |
|---|---|---|---|---|---|---|
| frontend/vehicle-rental/src/pages/RentalForm.tsx:147 | The select boxes' placeholder option has the value "0" (line 254), and `handleInputChange` stores a select's value as the string it gets. `validateForm` then tests `customer_id === 0`, which is false for the string "0". The vehicle and location tests at lines 151-161 are the same. | Choose a customer, then choose "Select a customer" again, then submit. No "Please select a customer" error appears, and the request goes out with customer_id "0". | An id is unselected when it is the number 0 or the placeholder string "0". | not executed | RentalForm.PlaceholderSubmitted | RentalForm.CorrectedCheckFlagsPlaceholder |
| frontend/vehicle-rental/src/pages/ReservationForm.tsx:83 | The same `=== 0` test on the four selects (lines 83-98), whose placeholders have the value "0" (lines 172, 192, 244, 264). | Choose a customer, choose "Select a customer" again, then submit. The reservation is sent with customer_id "0". | As above. | not executed | ReservationForm.PlaceholderSubmitted | ReservationForm.CorrectedCheckFlagsPlaceholder |
| frontend/vehicle-rental/src/pages/IncidentForm.tsx:79 | `rental_id === 0`, with the placeholder "0" at line 138. | Choose a rental, choose "Select a rental" again, then submit. The incident is sent with rental_id "0". | As above. | not executed | IncidentForm.PlaceholderSubmitted | IncidentForm.CorrectedCheckFlagsPlaceholder |
| frontend/vehicle-rental/src/pages/MaintenanceForm.tsx:78 | `vehicle_id === 0`, with the placeholder "0" at line 141. | Choose a vehicle, choose "Select a vehicle" again, then submit. The record is sent with vehicle_id "0". | As above. | not executed | MaintenanceForm.PlaceholderSubmitted | MaintenanceForm.CorrectedCheckFlagsPlaceholder |
