# Vetsoft clinic records, modelled in Dafny

Vetsoft is a small Django application for a veterinary clinic. It keeps seven kinds of record:
- clients;
- pets, each owned by a client;
- vets;
- providers;
- products;
- appointments, each for a pet with a vet;
- medicines.

This project models the core of that application:
- the seven form validators in `app/models.py`;
- the `save_*`/`update_*` operations of each record kind;
- the cascade of deletions along the two foreign keys: pet → client, and appointment → pet/vet;
- the navigation bar of `app/context_processors.py`, which marks the link of the current section as active.

The model is split into modules:
- `Wrappers` holds the `Option` type.
- `Numbers` holds Python's `int(...)` and `float(...)` on plain digit and decimal text, and `str` on integers.
- `Forms` covers submitted forms as maps from field name to text: `data.get(key, "")`, the `x or current` merge, and `str.count`.
- `Validation` holds the seven validators, field by field, with their exact messages. It includes the pet validator both as written and corrected (see Findings).
- `Records` holds the stored record values and what each `update_*` method makes of a record.
- `Tables` holds one table: rows by id plus the auto-increment counter.
- `Clinic` holds the database as a value with its integrity invariant and the three cascading deletions. It also holds the `Store` class, whose fields are the seven tables and whose methods are the save, update and delete operations. Every method keeps the invariant.
- `Navbar` holds the link list, `add_active` and `map(add_active, links)`.
- `Scenarios` holds the expected outcomes of the repository's unit tests, stated as lemmas on the model.

The database invariant (`Clinic.Database.Valid`) states:
- ids come from each table's counter;
- every pet's owner and every appointment's pet and vet are stored;
- the fields the validators demand are non-empty in every stored row;
- every stored medicine has a dose in [1, 10].

Every save, update and delete keeps this invariant.

Python's `datetime.now()` is a parameter (`today`). A date is an `int` day number, compared as dates compare. A birthday reaches the pet operations already parsed, as `Option<int>`: `None` when the form has none. An appointment's date and time are kept as the submitted text.

## Model

| member | source | states |
|---|---|---|
| Forms.Field | app/models.py:10-12 | `data.get(key, "")`: a non-empty result is the stored value of a present key |
| Forms.CountZero | app/models.py:22 | `email.count("@") == 0` holds exactly when there is no '@' in the text |
| Numbers.ParseNat | app/models.py:246 | the model reads a foreign-key value exactly when it is non-empty ASCII digit text |
| Numbers.ParseDecimal | app/models.py:127 | `float(price)` on decimal text: a result exists only for non-empty text; a leading '-' gives a value ≤ 0, anything else a value ≥ 0 |
| Numbers.ParseNatText | app/models.py:246 | reading back the decimal text of a natural number gives that number |
| Numbers.ParseIntText | app/tests_unit.py:159 | `float(str(n)) == n` for every integer n, as the product-price tests rely on |
| Validation.ValidateClient | app/models.py:6-25 | the errors hold only name/phone/email; name and phone are reported exactly when empty; email is reported as required when empty and as invalid when it has no '@'; there are no errors exactly when name and phone are filled and the email has an '@' |
| Validation.ValidatePetAsWritten | app/models.py:28-59 | the validator as written fails exactly when no birthday is given; otherwise it never reports a missing birthday and agrees with the corrected validator |
| Validation.ValidatePet | app/models.py:28-59 | name, breed, birthday and owner are each reported exactly when missing; the invalid-birthday error is reported exactly when a birthday is given and it is today or later; there are no errors exactly when all four are given and the birthday is in the past |
| Validation.ValidateVet | app/models.py:62-83 | the same rules as the client validator, over name, phone and email |
| Validation.ValidateProvider | app/models.py:86-106 | name and address are reported exactly when empty; the email rule is as for clients; there are no errors exactly when name and address are filled and the email has an '@' |
| Validation.ValidateProduct | app/models.py:109-130 | name and type are reported exactly when empty; price is reported exactly when missing (required message) or not above 0 (positive message); there are no errors exactly when all are filled and the price is positive |
| Validation.ValidateAppointment | app/models.py:133-156 | each of pet, vet, date and time is reported exactly when empty; there are no errors exactly when all four are filled |
| Validation.CheckMedicine | app/models.py:159-182 | on the mapping the medicine validator sees (text from a form, or the stored number on re-validation): name and description are reported exactly when empty; the dose is reported as required when falsy and as out of range when outside [1, 10]; there are no errors exactly when all hold |
| Validation.ValidateMedicine | app/models.py:159-182 | the same rules on a submitted form, with the dose read by `float` |
| Records.MergeClient | app/models.py:213-218 | each field takes the submitted value when non-empty, otherwise keeps the old one; a complete client stays complete; an all-empty form changes nothing |
| Records.MergePet | app/models.py:251-256 | name and breed merge as for clients; the birthday is replaced when given; the owner is replaced only by a filled id; completeness is kept; an empty form changes nothing |
| Records.MergeVet | app/models.py:287-291 | name, phone and email merge as for clients; completeness is kept; an empty form changes nothing |
| Records.MergeProvider | app/models.py:322-326 | name, email and address merge as for clients; completeness is kept; an empty form changes nothing |
| Records.MergeProduct | app/models.py:356-360 | name and type merge; a filled price replaces the old one by its parsed value; an empty form changes nothing |
| Records.MergeAppointment | app/models.py:393-398 | pet and vet are replaced only by filled ids; date and time merge; completeness is kept; an empty form changes nothing |
| Records.MedicineUpdateAccepted | app/models.py:429-444 | an edit of a stored, valid medicine is accepted exactly when every submitted name and description is non-empty and a submitted dose is non-empty text with a value in [1, 10]; a present key with empty text is refused, not ignored |
| Records.MedicineOf | app/models.py:443-446 | a draft the validator accepted becomes a complete medicine with its dose in [1, 10] |
| Tables.Table.Insert | app/models.py:204-209 | `objects.create`: the new row goes under a fresh id; every old row is kept; the table grows by exactly one |
| Tables.Table.Overwrite | app/models.py:220 | `save()` on a stored record: only the row under that id changes |
| Tables.Table.Remove | app/views.py:61 | `delete()`: exactly the given ids go; the remaining rows are unchanged |
| Tables.Empty | app/tests_unit.py:37-43 | a new table is valid and empty, and its counter starts at 1 |
| Clinic.Database.DeleteClient | app/models.py:229 | the client goes; a pet survives exactly when its owner is another client; an appointment survives exactly when its pet survives; surviving rows and the other tables are unchanged; the invariant is kept |
| Clinic.Database.DeletePet | app/models.py:368 | the pet goes; an appointment survives exactly when it is for another pet; everything else is unchanged; the invariant is kept |
| Clinic.Database.DeleteVet | app/models.py:369 | the vet goes; an appointment survives exactly when it is with another vet; everything else is unchanged; the invariant is kept |
| Clinic.Store.SaveClient | app/models.py:196-211 | saved exactly when the validator finds no errors; on failure the errors are returned and the table is unchanged; on success the submitted client is inserted |
| Clinic.Store.UpdateClient | app/models.py:213-220 | the row becomes the merge of the stored client with the form; the invariant is kept |
| Clinic.Store.DeleteClient | app/views.py:53-61 | the database becomes the cascading client deletion |
| Clinic.Store.SavePet | app/models.py:234-249 | saved exactly when the corrected pet validator finds no errors; on success the pet is inserted with the parsed birthday and owner id |
| Clinic.Store.UpdatePet | app/models.py:251-258 | the row becomes the merged pet |
| Clinic.Store.DeletePet | app/views.py:158-166 | the database becomes the cascading pet deletion |
| Clinic.Store.SaveVet | app/models.py:271-285 | saved exactly when the vet validator finds no errors; on success the vet is inserted, otherwise the table is unchanged |
| Clinic.Store.UpdateVet | app/models.py:287-293 | the row becomes the merged vet |
| Clinic.Store.DeleteVet | app/views.py:211-219 | the database becomes the cascading vet deletion |
| Clinic.Store.SaveProvider | app/models.py:306-320 | saved exactly when the provider validator finds no errors; on success the provider is inserted, otherwise the table is unchanged |
| Clinic.Store.UpdateProvider | app/models.py:322-328 | the row becomes the merged provider |
| Clinic.Store.DeleteProvider | app/views.py:264-272 | exactly that provider is removed |
| Clinic.Store.SaveProduct | app/models.py:341-354 | saved exactly when the product validator finds no errors; on success the product is inserted with its parsed price |
| Clinic.Store.UpdateProduct | app/models.py:356-362 | the row becomes the merged product |
| Clinic.Store.DeleteProduct | app/views.py:315-323 | exactly that product is removed |
| Clinic.Store.SaveAppointment | app/models.py:376-391 | saved exactly when the appointment validator finds no errors; on success the appointment is inserted with the parsed pet and vet ids |
| Clinic.Store.UpdateAppointment | app/models.py:393-400 | the row becomes the merged appointment |
| Clinic.Store.DeleteAppointment | app/views.py:376-384 | exactly that appointment is removed |
| Clinic.Store.SaveMedicine | app/models.py:413-427 | saved exactly when the medicine validator finds no errors; on success the medicine is inserted with `float(dose)` |
| Clinic.Store.UpdateMedicine | app/models.py:429-447 | re-validates the merged mapping; on failure the errors are returned and the table is unchanged; on success the row becomes the accepted medicine |
| Clinic.Store.DeleteMedicine | app/views.py:106-114 | exactly that medicine is removed |
| Navbar.LinksShape | app/context_processors.py:3-12 | the `links` list (`Navbar.Links`, hrefs as the route table resolves them at the root): eight links, Home first with the root path, every other href a section path "/…/", no caption and no href used twice |
| Navbar.AddActive | app/context_processors.py:21-29 | the copy carries the link's caption, href and icon unchanged; the root link is active exactly on the root path; any other link is active exactly when the path is its href followed by some rest |
| Navbar.Mark | app/context_processors.py:31 | mapping `add_active` over the links gives one marked copy per link |
| Navbar.MarkAt | app/context_processors.py:31 | the i-th marked copy is `add_active` of the i-th link |
| Navbar.MarkKeepsLinks | app/context_processors.py:22 | removing the flags gives back the links list, in order |
| Navbar.HomeOnlyAtRoot | app/context_processors.py:24-25 | Home is active exactly on the root path |
| Navbar.ActiveLinksEqual | app/context_processors.py:3-12 | no two different links of the list are active for the same path |
| Navbar.AtMostOneActive | app/context_processors.py:31 | in the marked bar at most one link is active, whatever the path |
| Navbar.OnlyHomeAtRoot | app/context_processors.py:24-27 | on the root path Home is the only active link |
| Navbar.ClientPageMarksClientes | app/context_processors.py:27 | a client's edit page marks Clientes and nothing else |
| Scenarios.ValidClient | app/tests_unit.py:11-26 | the client form of the tests is valid |
| Scenarios.EmailWithoutAt | app/models.py:22-23 | an email without '@' gives exactly the invalid-email error |
| Scenarios.EmptyClientForm | app/models.py:14-21 | an empty client form gives exactly the three required-field errors |
| Scenarios.ClientPhoneUpdate | app/tests_unit.py:28-64 | a new phone changes only the phone; an empty phone changes nothing |
| Scenarios.DoseAboveTen | app/tests_unit.py:85-94 | dose "11" gives exactly the out-of-range error |
| Scenarios.DoseZero | app/tests_unit.py:96-105 | dose "0" gives exactly the out-of-range error |
| Scenarios.DoseOne | app/models.py:179 | dose "1", the lower bound, is accepted |
| Scenarios.DoseTen | app/models.py:179 | dose "10", the upper bound, is accepted |
| Scenarios.DoseMissing | app/models.py:175-176 | an empty dose gives exactly the dose-required error |
| Scenarios.UnchangedMedicineRevalidates | app/models.py:429-447 | re-validating a stored medicine with an empty form accepts it unchanged |
| Scenarios.EmptyDoseRefused | app/models.py:433-441 | an edit form with an empty dose is refused with the dose-required error |
| Scenarios.BirthdayBeforeToday | app/tests_unit.py:111-148 | a birthday of today gives exactly the invalid-birthday error; yesterday is accepted |
| Scenarios.PetWithoutBirthday | app/models.py:45-56 | without a birthday the as-written validator fails, and the corrected one reports the birthday as required |
| Scenarios.PositivePrice | app/tests_unit.py:154-163 | price `str(33)` is accepted |
| Scenarios.ZeroPrice | app/tests_unit.py:165-177 | price `str(0)` gives exactly the positive-price error |
| Scenarios.NegativePrice | app/tests_unit.py:179-191 | price `str(-33)` gives exactly the positive-price error |
| Scenarios.MissingPrice | app/tests_unit.py:193-205 | an empty price gives exactly the price-required error |
| Scenarios.ValidProvider | app/tests_unit.py:211-220 | a provider with name, an email with '@' and address is accepted |
| Scenarios.ProviderWithoutName | app/tests_unit.py:222-233 | an empty name gives exactly the name-required error |
| Scenarios.ProviderEmailWithoutAt | app/tests_unit.py:235-246 | an email without '@' gives exactly the invalid-email error |
| Scenarios.ProviderWithoutAddress | app/tests_unit.py:248-259 | an empty address gives exactly the address-required error |
| Scenarios.ValidAppointment | app/models.py:133-156 | a filled appointment form is valid |
| Scenarios.AppointmentWithoutTime | app/models.py:153-154 | a form without a time gives exactly the time-required error |

## Left out

- HTTP views, URL routing, templates, migrations and the functional tests are not part of this model. The delete views appear only as the table removal they perform.
- Numbers.ParseDecimal: covers plain decimal notation only. Exponents, surrounding spaces, underscores, "inf" and "nan" are not modelled, and floating-point rounding is not modelled (values are exact reals).
- Records.MergeProduct: requires a submitted price to be readable as a number. The source stores the raw text and leaves its conversion to the database layer, which this model does not have.
- Records.MergePet and Records.MergeAppointment: an empty foreign-key value keeps the old id. The source assigns the related object itself to the id attribute, which the framework resolves back to the same id.
- Records.MergePet: a replaced birthday arrives already parsed. The ISO date parsing of the framework is not modelled, and neither is its checking of a malformed date.
- Clinic.Store.SaveClient: requires an "address" key whenever the form is valid. The source would hand `None` to a non-null column and fail inside the database.
- Clinic.Store.SavePet, Clinic.Store.SaveAppointment, Clinic.Store.UpdatePet and Clinic.Store.UpdateAppointment: require foreign-key values that name stored rows. The source leaves dangling ids to the database's integrity error, which is not modelled.
- Updates other than the medicine's are not validated in the source. The invariant therefore says nothing about a product's price, a client's '@' or a pet's birthday, since an update may store any value there.
- Validation.ValidateProduct, Clinic.Store.SaveProduct: require a filled price to be text `float` reads (`PriceReadable`). Where the source's `float(price)` (app/models.py:127) raises ValueError on other text, the model has no case: such forms are outside the precondition.
- Validation.ValidateMedicine, Validation.CheckMedicine, Clinic.Store.SaveMedicine, Clinic.Store.UpdateMedicine: require a filled dose to be text `float` reads (`DoseReadable`, `Dose.Readable`). The ValueError of `float(dose)` (app/models.py:178, 424) on other text is not modelled.
- Validation.ValidatePet, Validation.ValidatePetAsWritten, Clinic.Store.SavePet: take the birthday already parsed, as `Option<int>`. The ValueError that `datetime.fromisoformat` (app/models.py:55) raises inside the validator on a malformed date is not modelled.
- Numbers.ParseNat: reads only non-empty ASCII digit text. Python `int()` also accepts a sign ("+1"), surrounding white space (" 1 "), underscores between digits ("1_0") and non-ASCII decimal digits. Through `Records.IdReadable` and `Clinic.Names`, such values fall outside the preconditions of Records.MergePet, Records.MergeAppointment, Clinic.Store.SavePet, Clinic.Store.UpdatePet, Clinic.Store.SaveAppointment and Clinic.Store.UpdateAppointment. The source accepts them there.
- Numbers.ParseDecimal: because it reads plain decimal notation only, texts that `float` accepts but this parser does not (" 33", "1e2", "inf") fall outside the preconditions above. The model says nothing about forms carrying them.
- Field length limits (`max_length`), the framework's own email validation and the fixed two decimal places of the price column are not modelled.
- Clinic.Store.SaveAppointment, Clinic.Store.UpdateAppointment: date and time are kept as the submitted text. The validator only checks that they are non-empty, and the source then raises in `create` (app/models.py:384-389) or `save()` (app/models.py:400) when the date or time field cannot convert the text, as with a date "manana". The model stores such text instead.
- Clinic.Store.UpdateMedicine: a refused update leaves the stored row unchanged. The source has already overwritten the in-memory object's fields at that point; only the stored row is modelled.
- `datetime.now()` is the `today` parameter.
- The navbar's hrefs assume the application is served at the root path. `reverse` is replaced by the paths the route table yields there.
- `navbar` returns a lazy `map` object inside the template context. The model gives the marked list and leaves out the context-processor protocol.

## Findings

| source | as written | input that shows it | evidently intended | confidence | as-written member | corrected member |
|---|---|---|---|---|---|---|
| app/models.py:45-57 | a missing birthday is read as "", and line 56 then compares the text "" with today's date, which raises a type error; the birthday-required message of lines 45-48 is never returned | the form {"name": "Rex", "breed": "Labrador", "client": "1"} with no birthday | return the birthday-required error and compare dates only when a birthday was given | not executed; high | Validation.ValidatePetAsWritten | Validation.ValidatePet |
