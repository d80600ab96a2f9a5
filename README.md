# myPlanning booking core, modelled in Dafny

myPlanning lets clients find beauty and wellness professionals, look at their
services and free slots, and book them. Professionals manage a service
catalogue, a weekly schedule and their bookings. Clients leave reviews, and an
administrator can list and delete accounts.

This project models the core of that system. It has two halves:

- the Express routes over the MongoDB collections `users`, `services`,
  `bookings`, `reviews`, `events` and `availability_settings`;
- the React pages that filter, group and submit that data.

**The database.** The collections are one class, `Model.Db`. Each collection is
a sequence of documents in natural order. A counter hands out fresh
identifiers. `Db.Valid()` says that identifiers are unique and below the
counter.

**Routes and pages.**

- Each route handler is a method on `Db`. The method returns the part of
  the answer the route sends that carries data (an identifier, a document
  or the `$set` fields), or the error it answers with.
- Each page with state is a class, and its handlers are methods.
- Each pure computation of a page is a function, with lemmas about it.

**Supporting modules.**

| module | contents |
|---|---|
| `Seqs` | order-preserving filtering and sub-sequences |
| `Docs` | find, update and delete by identifier |
| `Clock` | `HH:MM` times of day |
| `Calendar` | `YYYY-MM-DD` dates and French weekday names |
| `Text` | ASCII lower-casing, substring search and JavaScript string order |

## Model

| member | source | states |
|---|---|---|
| Model.ParseStatus | server/routes/bookings.js:99-101 | only the four status names are accepted, and each is read back as the status it names |
| Model.StatusRoundTrip | server/routes/bookings.js:99-101 | every booking status passes the enum check of update-status as itself |
| Model.Db.FreshId | server/routes/bookings.js:81 | an inserted document gets an identifier no stored document of any collection has |
| Clock.FormatParse | server/routes/availability.js:134-140 | reading back a zero-padded `HH:MM` time gives the same minute |
| Clock.ParseFormat | server/routes/availability.js:134-140 | a readable time text is the formatting of the minute it names, so time texts and minutes correspond one to one |
| Clock.AddMinutes | server/routes/availability.js:134-140 | adding minutes yields a time of day congruent to the sum modulo 24 hours |
| Clock.AddMinutesTextSpec | server/routes/availability.js:134-140 | `addMinutes` on a formatted time wraps at midnight, and before midnight it is the formatted sum |
| Clock.FormatOrder | server/routes/availability.js:104 | string order on formatted times is the order of the minutes |
| Calendar.ParseDate | server/routes/availability.js:90 | only a ten-character `YYYY-MM-DD` text that names a real calendar date is read as a date (which date it is: `Calendar.ParseDateText`, `Calendar.DateTextParse`) |
| Calendar.ParseDateText | server/routes/availability.js:90 | every calendar date of a four-digit year is read back from its `YYYY-MM-DD` text |
| Calendar.DateTextParse | server/routes/availability.js:90 | a text read as a date is exactly that date's `YYYY-MM-DD` text, so reading is one-to-one |
| Calendar.MondayExample | server/routes/availability.js:90-91 | "2024-10-14" is read as a Monday and named "Lundi" |
| Calendar.NextDayNumber | server/routes/availability.js:90 | consecutive calendar dates have consecutive day numbers |
| Calendar.NextDayWeekday | server/routes/availability.js:90 | the weekday advances by one each day and wraps from Sunday to Monday |
| Calendar.DayNameIsListed | server/routes/availability.js:90-93 | the capitalised French day name of a date is the planning page's name for its weekday |
| Calendar.YearLength | server/routes/availability.js:90 | a year has 366 days exactly when it is a leap year |
| Availability.SettingsFor | server/routes/availability.js:9-35 | the stored schedule of a professional, or the default schedule when none is stored |
| Availability.DefaultSchedule | server/routes/availability.js:18-28 | the default schedule is Monday to Friday, 09:00 to 19:00, 60-minute slots, with a break from 12:00 to 14:00 |
| Availability.SaveSettings | server/routes/availability.js:38-66 | saving upserts the caller's schedule and leaves every other professional's schedule unchanged |
| Availability.BreakTestMatchesText | server/routes/availability.js:104 | the break test on minutes is the route's string comparison, including the case of a blank break bound |
| Availability.SlotTimesBounds | server/routes/availability.js:102-124 | every offered start lies in `[start, end)`, is outside the break and lies on the slot grid |
| Availability.SlotTimesIncreasing | server/routes/availability.js:102-124 | offered starts are strictly increasing |
| Availability.SlotTimesComplete | server/routes/availability.js:102-124 | every grid point before the end that is outside the break is offered |
| Availability.SlotRunningIntoBreakIsOffered | server/routes/availability.js:104 | only a slot's start is tested against the break, so an 11:30 one-hour slot is offered although it runs into the break |
| Availability.FindOccupying | server/routes/availability.js:111-116 | finds a non-cancelled booking of that professional, date and time, and finds none exactly when there is none |
| Availability.AnnotateSpec | server/routes/availability.js:110-121 | slot `i` carries the `i`-th start time and is available exactly when no non-cancelled booking occupies it |
| Availability.WalkSlots | server/routes/availability.js:98-124 | the slot loop produces exactly the annotated list of offered start times |
| Availability.GenerateSlots | server/routes/availability.js:69-131 | the slot route answers with the specified slot list. It reads the slot duration only when it walks a working day, so a missing date or a closed day is answered whatever duration is stored; a walked day needs a positive duration in the schedule of the professional asked about (with 0 the loop never ends) |
| Availability.MissingDateRejected | server/routes/availability.js:74 | a missing date is answered with 400, whatever schedule is stored |
| Availability.ClosedDayHasNoSlots | server/routes/availability.js:90-95 | a day outside the working days has an empty slot list, whatever slot duration is stored |
| Availability.SlotsAnswerSpec | server/routes/availability.js:69-131 | on a working day there is one slot per offered start, in increasing time order, each available exactly when unbooked |
| Availability.SlotListSpec | server/routes/availability.js:98-124 | the walked list has one slot per offered start, within the hours, outside the break and on the grid, in increasing text order, each available exactly when unbooked |
| Availability.WrappedAgreesBeforeMidnight | server/routes/availability.js:134-140 | before midnight, the route's wrapping `currentTime` equals the unwrapped grid point |
| Availability.WrappedHours | server/routes/availability.js:102-140 | with hours 23:00 to 23:30 and one-hour slots, the route's k-th candidate is the k-th hour mark after 23:00 (23:00, 00:00, 01:00, …), wrapping at midnight |
| Availability.WrapNeverReachesEnd | server/routes/availability.js:102-124 | with hours 23:00 to 23:30 and one-hour slots, every candidate the route's loop visits is below the end, so the loop never stops |
| Availability.WrappedAfterMidnight | server/routes/availability.js:102-140 | with hours 23:00 to 23:30 and 70-minute slots, the route's candidates after the first are 00:10, 01:20, … climbing by 70 minutes up to 23:30 |
| Availability.WrapStopsOutOfOrder | server/routes/availability.js:102-124 | with hours 23:00 to 23:30 and 70-minute slots the loop does stop, at the 21st candidate, after visiting candidates past midnight that are earlier than the first |
| Availability.ZeroDurationNeverEnds | server/routes/availability.js:102-124 | once a slot duration of 0 is saved, the route's `currentTime` never moves from the start, so for a day with `start < end` the slot loop never ends |
| Availability.SaveCheckedSettings | server/routes/availability.js:38-66 | the corrected save refuses a slot duration that is not positive with 400 and stores nothing; otherwise it upserts like the route, and it keeps every stored duration positive |
| Availability.CheckedStoresAreWalkable | server/routes/availability.js:78-124 | when every stored duration is positive, the slot route ends for every professional, with a stored or a default schedule |
| Bookings.ProfessionalName | server/routes/bookings.js:68 | the snapshot name is the company name when it is set, otherwise first name and last name |
| Bookings.CreateOutcomeSpec | server/routes/bookings.js:36-90 | the create checks come in order (400, then 404 for the service, then 404 for the professional), and a created booking is pending, keeps the request's notes, and holds snapshots of the client, professional and service |
| Bookings.Create | server/routes/bookings.js:36-90 | inserts exactly the booking the checks allow, under a fresh identifier, and stores nothing on an error |
| Bookings.CreateTwice | server/routes/bookings.js:36-90 | there is no conflict check: the same request succeeds twice and yields two bookings of the same slot |
| Bookings.UpdateStatus | server/routes/bookings.js:93-129 | the status update answers 400, 404 or 403, checked in that order; otherwise only that booking's status changes |
| Bookings.Delete | server/routes/bookings.js:132-155 | only the client or the professional of a booking can delete it (404 first, then 403); the stored list becomes the old one without that booking, the others kept in order |
| Bookings.MyBookings | server/routes/bookings.js:12-33 | the stored user record of the caller decides the side: a client sees the bookings they made and anyone else the bookings made with them, in stored order; a caller with no user record is a server error |
| Bookings.FilterMembers | server/routes/bookings.js:23-26 | a filtered list holds exactly the elements that pass the test |
| Bookings.RevenueAppend | server/routes/bookings.js:177-179 | revenue adds up over any split of the bookings |
| Bookings.RevenueOne | server/routes/bookings.js:177-179 | a single booking contributes its price when completed and nothing otherwise |
| Bookings.StatusCountsSum | server/routes/bookings.js:171-176 | the four status counts add up to the number of bookings |
| Bookings.Stats | server/routes/bookings.js:158-186 | the caller's stored user record is read first: a client gets 403 and a missing record a server error; anyone else gets, for each status, the number of their bookings with that status, the counts adding up to the total, and the sum of the prices of the completed ones |
| BookingsPage.FilteredBookings | client/src/components/pages/BookingsPage.jsx:109-111 | 'all' shows every booking; any other filter shows exactly the bookings with that status, in order |
| BookingsPage.ButtonsFollowLifeCycle | client/src/components/pages/BookingsPage.jsx:197-209 | the status buttons allow exactly the life-cycle transitions: confirm and complete for the professional, cancel for either party while pending or confirmed |
| BookingsPage.FinalStatuses | client/src/components/pages/BookingsPage.jsx:197-209 | completed and cancelled bookings offer no status change |
| BookingsPage.ButtonsPassEnumCheck | client/src/components/pages/BookingsPage.jsx:199-205 | every status a button requests passes the server's enum check |
| BookingsPage.DeleteOnlyForProfessionals | client/src/components/pages/BookingsPage.jsx:207-209 | the delete button is shown exactly to professionals |
| BookingsPage.LoadedStatsAreAnswered | client/src/components/pages/BookingsPage.jsx:30-32 | when the viewer's stored user record is the one the page holds, the page asks for statistics only when the server will answer them |
| Planning.Row | client/src/components/common/planning.jsx:117-123 | an hour contributes one row time, or two when slots are shorter than an hour |
| Planning.Labels | client/src/components/common/planning.jsx:118-121 | each row label is the zero-padded text of its time |
| Planning.GridRowsLength | client/src/components/common/planning.jsx:112-125 | one row per hour from start to end, two per hour when slots are shorter than an hour |
| Planning.GridRowsBounds | client/src/components/common/planning.jsx:112-125 | every row time lies within the working hours, on the hour or the half hour |
| Planning.GridRowsIncreasing | client/src/components/common/planning.jsx:112-125 | row times are strictly increasing |
| Planning.LabelsIncreasing | client/src/components/common/planning.jsx:112-125 | row labels are strictly increasing as texts |
| Planning.Entries | client/src/components/common/planning.jsx:51-56 | each booking gets one map entry showing its id, client name (or 'Réservation'), service and status |
| Planning.BucketSnoc | client/src/components/common/planning.jsx:47-57 | a booking extends its own bucket by its entry and no other bucket |
| Planning.OneBucketEach | client/src/components/common/planning.jsx:49 | each booking is in the bucket of its own `date-time` key and in no other |
| Planning.BucketOrder | client/src/components/common/planning.jsx:47-57 | buckets keep the fetched order |
| Planning.PlanningPage.constructor | client/src/components/common/planning.jsx:16-22 | the page starts with the server's default schedule and no bookings |
| Planning.PlanningPage.GroupBookings | client/src/components/common/planning.jsx:38-63 | the booking map has one key per `date-time` that occurs, holding that key's bookings in fetched order |
| Planning.PlanningPage.ToggleDay | client/src/components/common/planning.jsx:101-106 | toggling changes only the working days |
| Planning.PlanningPage.ReplaceSettings | client/src/components/common/planning.jsx:65-79 | the fetched schedule replaces the local one exactly when the response is ok, its body is not null and it carries `workingDays` (an empty list counts); otherwise the local one stays |
| Planning.PlanningPage.GenerateTimeSlots | client/src/components/common/planning.jsx:112-125 | the daily grid's labels from the start hour to the end hour |
| Planning.GroupByKey | client/src/components/common/planning.jsx:46-57 | the `forEach` loop builds a map whose keys are exactly the `date-time` keys that occur, each holding that key's entries in fetched order |
| Planning.GroupStep | client/src/components/common/planning.jsx:47-57 | one turn of the `forEach` keeps the map equal to the grouping of the bookings seen so far |
| Planning.Toggle | client/src/components/common/planning.jsx:101-106 | a listed day is removed (every copy of it), and the other days keep their order and every copy; an unlisted day is appended |
| Planning.ToggleTwice | client/src/components/common/planning.jsx:101-106 | toggling an unlisted day twice restores the list |
| ProfessionalDetail.ActiveServices | client/src/components/pages/ProfessionalDetailPage.jsx:41-45 | the page offers exactly the active fetched services, in order |
| ProfessionalDetail.BookingForm.constructor | client/src/components/pages/ProfessionalDetailPage.jsx:11-21 | the form starts with nothing chosen and nothing loaded |
| ProfessionalDetail.BookingForm.LoadServices | client/src/components/pages/ProfessionalDetailPage.jsx:41-45 | the services shown are the active fetched ones |
| ProfessionalDetail.BookingForm.SelectService | client/src/components/pages/ProfessionalDetailPage.jsx:194-240 | choosing a service changes only the chosen service |
| ProfessionalDetail.BookingForm.ChangeDate | client/src/components/pages/ProfessionalDetailPage.jsx:257 | a new date clears the hour and keeps the service |
| ProfessionalDetail.BookingForm.LoadSlots | client/src/components/pages/ProfessionalDetailPage.jsx:53-69 | the slots are the answer's slots, or none when the fetch fails |
| ProfessionalDetail.BookingForm.ClickSlot | client/src/components/pages/ProfessionalDetailPage.jsx:272-280 | only an available slot sets the hour |
| ProfessionalDetail.BookingForm.HandleBooking | client/src/components/pages/ProfessionalDetailPage.jsx:71-114 | nothing is sent without a token or a known service; a form the submit button allows yields a request with every required field |
| ProfessionalDetail.FillAndSubmit | client/src/components/pages/ProfessionalDetailPage.jsx:71-114 | a form filled through the handlers, with an available slot, sends a complete booking request for that service, date and time |
| Reviews.RatingsOf | server/routes/reviews.js:261-262 | one rating per review of the professional |
| Reviews.RatingsOfSpec | server/routes/reviews.js:261-262 | every review of the professional contributes its rating, and every listed rating comes from one of their reviews |
| Reviews.CountOf | server/routes/reviews.js:264-267 | a rating's count is at most the number of ratings, is 0 exactly when the rating does not occur, and is the number of ratings exactly when every rating is that one |
| Reviews.DistinctSpec | server/routes/reviews.js:264-269 | the `$group` keys list each rating that occurs exactly once |
| Reviews.GroupsPartition | server/routes/reviews.js:261-281 | the group counts add up to the number of reviews, and the weighted counts add up to the rating sum |
| Reviews.SetBin | server/routes/reviews.js:276-278 | setting a distribution property changes that rating's count and no other |
| Reviews.SetBinTotal | server/routes/reviews.js:272-280 | setting one property changes the total by the difference |
| Reviews.Stats | server/routes/reviews.js:256-292 | the distribution gives each rating's count, has keys 1 to 5, and total and average are the count and mean of the ratings |
| Reviews.MeanBounds | server/routes/reviews.js:13-15 | ratings within 1..5 average within 1..5 |
| Reviews.SumBounds | server/routes/reviews.js:13-15 | the sum of `n` ratings in 1..5 lies between `n` and `5n` |
| Reviews.UpdateProfessionalRating | server/routes/reviews.js:212-254 | the professional's stored count and average are recomputed from their reviews; other users are unchanged |
| Reviews.StatsAverageIsStoredAverage | server/routes/reviews.js:212-292 | the statistics route's average equals the average stored on the professional |
| Reviews.Add | server/routes/reviews.js:9-50 | a rating outside 1..5 gets 400 and an unknown professional 404; otherwise the review is stored and the rating recomputed; the other collections and the settings are unchanged |
| Reviews.FindOwn | server/routes/reviews.js:157-162 | a review is found only when it exists and the caller wrote it |
| Reviews.UpdateReview | server/routes/reviews.js:148-182 | only the caller's own review can be edited (404 otherwise, nothing changes); the stored list becomes the update of that one review by the edit (identifiers unchanged), and the professional's rating is recomputed from the edited list |
| Reviews.DeleteReview | server/routes/reviews.js:185-209 | only the caller's own review is deleted (404 otherwise), and the professional's rating is recomputed |
| Services.CategoriesSpec | server/routes/services.js:9-42 | 25 categories, from "Coiffure" to "Autre", and the default category is among them |
| Services.MyServices | server/routes/services.js:64-77 | exactly the caller's services, in stored order |
| Services.NewService | server/routes/services.js:97-107 | a new service is the caller's, active, with the given fields, an empty description and category 'Autre' by default |
| Services.Add | server/routes/services.js:80-114 | missing fields get 400 before the store is read, a non-professional gets 403, otherwise the service is appended |
| Services.ZeroPriceText | server/routes/services.js:85-102 | a price sent as the text "0" passes the required-field check and is stored as 0, while the number 0 is refused |
| Services.SetOf | server/routes/services.js:135-144 | the `$set` holds a truthy name, duration, price or category and any given description or active flag, and applying it to any service has the patch's effect |
| Services.BuildUpdate | server/routes/services.js:135-144 | `updateData` built field by field is the patch's `$set` |
| Services.PatchedSpec | server/routes/services.js:139-144 | truthy name, duration, price and category overwrite; a description or active flag overwrites whenever given |
| Services.PatchedIdempotent | server/routes/services.js:135-149 | sending the same edit twice leaves the service as after the first |
| Services.EmptyPatchKeeps | server/routes/services.js:135-149 | an edit with every field left out changes nothing |
| Services.FindOwned | server/routes/services.js:126-133 | a service is found only when it exists and belongs to the caller |
| Services.UpdateService | server/routes/services.js:117-155 | 404 unless the caller owns the service; otherwise exactly that service is patched, and the answer carries the `$set` fields |
| Services.DeleteService | server/routes/services.js:158-177 | 404 unless the caller owns the service; otherwise exactly that service is removed |
| Services.AddedIsOwned | server/routes/services.js:64-114 | an added service is listed among the caller's services and can be edited by them and by nobody else |
| ServiceManagement.FilteredServices | client/src/components/pages/ServiceManagement.jsx:173-178 | exactly the services matching category and search, in loaded order |
| ServiceManagement.ShowAll | client/src/components/pages/ServiceManagement.jsx:173-178 | with 'all' and an empty search every service is listed |
| ServiceManagement.MinPrice | client/src/components/pages/ServiceManagement.jsx:183 | the least price of the list: a listed price no greater than any other |
| ServiceManagement.MaxPrice | client/src/components/pages/ServiceManagement.jsx:184 | the greatest price of the list: a listed price no less than any other |
| ServiceManagement.Stats | client/src/components/pages/ServiceManagement.jsx:180-185 | the total, the number active, and the least and greatest prices (0 and 0 when there are no services) |
| ServiceManagement.EditForm | client/src/components/pages/ServiceManagement.jsx:96-106 | the edit form shows the service's fields, with an empty description when it has none |
| ServiceManagement.EditUnchangedKeeps | client/src/components/pages/ServiceManagement.jsx:62-106 | saving the edit form untouched leaves the service unchanged |
| ServiceManagement.ToggleFlipsOnlyActive | client/src/components/pages/ServiceManagement.jsx:124-140 | the toggle flips the active flag and nothing else |
| Recherche.ByQuery | client/src/components/pages/RecherchePage.jsx:44-53 | a non-empty query keeps exactly the professionals with a field containing it, ignoring case, in order |
| Recherche.ByProfession | client/src/components/pages/RecherchePage.jsx:55-61 | a profession other than 'all' keeps exactly the professionals whose profession is the key or its translation, ignoring case |
| Recherche.FilterProfessionals | client/src/components/pages/RecherchePage.jsx:41-64 | exactly the professionals selected by both searches, in order; everyone for an empty query and 'all' |
| Recherche.TwoPassesAreOne | client/src/components/pages/RecherchePage.jsx:41-64 | the two passes equal one filter by the conjunction of the two tests |
| Records.FindByEmail | server/routes/records.js:29-31 | the first user with the email, and none exactly when no user has it |
| Records.NullIfEmpty | server/routes/records.js:58-60 | an empty optional field is stored as null, and any other value as itself |
| Records.NewUser | server/routes/records.js:50-63 | a new user is a client exactly for type 'client', stores only the password's hash, is not an administrator and has no reviews |
| Records.RegisterCheck | server/routes/records.js:28-47 | a taken email is refused first, whatever the rest; then an unknown type or a missing field gets 400 |
| Records.Register | server/routes/records.js:21-77 | the user is appended under a fresh identifier exactly when the checks pass, and nothing is stored otherwise |
| Records.RegisterKeepsEmailsUnique | server/routes/records.js:28-31 | registration never gives two users the same email |
| Records.Login | server/routes/records.js:80-107 | 400 without an email or a password, 401 for an unknown email or a wrong password; otherwise the matching user |
| Records.RegisterThenLogin | server/routes/records.js:21-107 | a freshly registered account can log in with its email and password |
| RegisterPage.Age | client/src/components/pages/RegisterPage.jsx:72-78 | the age is the difference of years, less one before this year's birthday |
| RegisterPage.AgeMeansBirthdayPassed | client/src/components/pages/RegisterPage.jsx:72-81 | being `n` or older means the `n`-th birthday is on or before today |
| RegisterPage.Validate | client/src/components/pages/RegisterPage.jsx:44-121 | validate gives "" for email, password and unknown fields |
| RegisterPage.NameRules | client/src/components/pages/RegisterPage.jsx:46-67 | a first or last name is accepted exactly when it has 3 to 20 characters; an empty one gets the required message, a shorter one the at-least-3 message, a longer one the at-most-20 message |
| RegisterPage.BirthDateRules | client/src/components/pages/RegisterPage.jsx:68-82 | an empty birth date gets the required message; a readable one is accepted exactly when the 18th birthday has passed, and otherwise gets the under-18 message |
| RegisterPage.ProfessionalFieldRules | client/src/components/pages/RegisterPage.jsx:100-116 | profession, company and SIRET are refused exactly when empty, each with its own required message |
| RegisterPage.QueuedMessage | client/src/components/pages/RegisterPage.jsx:84-98 | validate queues a message of its own exactly for email and password |
| RegisterPage.IntendedMessage | client/src/components/pages/RegisterPage.jsx:84-98 | the evidently intended message: email and password are flagged exactly when empty |
| RegisterPage.RegisterForm.constructor | client/src/components/pages/RegisterPage.jsx:12-43 | every field starts empty and without a message |
| RegisterPage.RegisterForm.HandleChange | client/src/components/pages/RegisterPage.jsx:23-31 | as written: the field is stored, and its message is validate's return value, which overwrites the queued message |
| RegisterPage.RegisterForm.HandleChangeIntended | client/src/components/pages/RegisterPage.jsx:23-31 | as intended: the field's message is the one for its new value |
| RegisterPage.RegisterForm.SubmitClient | client/src/components/pages/RegisterPage.jsx:123-167 | nothing is sent unless the five account fields are filled, and what is sent passes the server's client field check |
| RegisterPage.RegisterForm.SubmitProfessional | client/src/components/pages/RegisterPage.jsx:169-211 | nothing is sent unless all eight fields are filled, and what is sent passes the server's professional field check |
| RegisterPage.EmailMessageLost | client/src/components/pages/RegisterPage.jsx:23-31 | emptying the email field leaves its message empty, although validate queued "Email est obligatoire." |
| RegisterPage.EmailMessageShown | client/src/components/pages/RegisterPage.jsx:23-31 | with the intended handler, emptying the email field shows its required message |
| RegisterPage.IntendedMessageFlagsEmpty | client/src/components/pages/RegisterPage.jsx:44-121 | with the intended handler, a field's message is empty exactly when the field is acceptable |
| Admin.VerifyAdmin | server/routes/admin.js:9-21 | the caller passes exactly when a stored user with that id is an administrator; otherwise 403 |
| Admin.PublicDropsOnlyPassword | server/routes/admin.js:27 | the user list hides the password and nothing else |
| Admin.UserList | server/routes/admin.js:24-32 | administrators get every user in stored order, without passwords; anyone else gets 403 |
| Admin.Cascade | server/routes/admin.js:42-46 | exactly the bookings not involving the user remain, in order |
| Admin.DeleteUser | server/routes/admin.js:35-52 | an administrator removes the user and every booking of theirs, as client or as professional, and nothing else |
| Events.UserEvents | server/routes/events.js:7-22 | 400 without a user id; otherwise exactly that user's events, in order |
| Events.AddEvent | server/routes/events.js:24-45 | 400 when a field is missing; otherwise the event is appended under a fresh identifier |
| Events.DeleteEvent | server/routes/events.js:47-65 | 400 without an id, 404 for an unknown id; otherwise exactly that event is removed |
| Events.AddedEventListed | server/routes/events.js:7-65 | an added event is listed among its user's events, and deleting it takes it off the list |
| Docs.WithoutSpec | server/routes/bookings.js:149 | deleting by identifier removes that identifier and keeps every other document |
| Docs.WithoutIsFilter | server/routes/bookings.js:149 | with unique identifiers, deleting by identifier is filtering that identifier out, so the remaining documents keep their order |
| Docs.UpdateSpec | server/routes/bookings.js:115-123 | updating by identifier changes that document only |
| Docs.FindUnique | server/routes/bookings.js:106 | with unique identifiers, find returns the document with that identifier |
| Seqs.FilterFilter | client/src/components/pages/RecherchePage.jsx:46-61 | filtering by one test and then another is filtering once by their conjunction |

## Left out

- HTTP, JSON bodies, the `verifyToken` middleware and JWT issuing are not modelled. The authenticated user's id is a parameter (`caller`).
- bcrypt is not modelled. Hashing and comparing are the parameters `hashOf` and `check`.
- `i18n` translation is the parameter `translate` of `Recherche.FilterProfessionals`.
- Concurrency between requests and the ordering of asynchronous fetches are not modelled. Every route runs to completion alone.
- The 500 answers are not modelled, except a missing caller in `my-bookings`, `stats` and `create` (the client's name is read from the caller's record). These are the server errors for database failures and for identifiers that are not valid ObjectIds. A schedule posted to `POST /settings` is taken as well-formed (working days and zero-padded `HH:MM` hours present), so the 500 that `/slots` raises for a stored schedule missing `workingDays` or `hours`, and the text comparisons on hours that are not zero-padded, are not modelled.
- `createdAt`/`updatedAt` timestamps are not modelled, and neither is any other call to `new Date()` that stores a time. Today's date on the register page is a parameter.
- Time zones and locales are not modelled. `new Date(date)` is read as a UTC calendar date, and `toLocaleDateString('fr-FR')` is the fixed table of French day names.
- JavaScript `Date` rolls an invalid date such as `2024-02-30` over to the next month. Here a date that is not a calendar date gives no day name, so no working day matches. On the register page such a birth date gets no message at all, where the browser would apply the age check to the rolled-over date.
- `parseInt`/`parseFloat` is not modelled as a reader of text. A duration or price sent as text carries the integer it reads as, so non-numeric text (NaN) and fractional prices are not represented.
- Availability.GenerateSlots: a negative stored slot duration on a working day is not modelled. The route's loop then walks backwards through midnight and may stop or not depending on the end hour; the model walks only positive durations.
- Reviews.Stats: the average is the exact mean. The one-decimal `Math.round` of `reviews.js` is not modelled.
- Reviews.UpdateProfessionalRating: the stored average is likewise the exact mean, not rounded.
- The `$group`/`$sort` order of the rating groups is not modelled. The distribution's values do not depend on it.
- The review list routes `GET /professional/:id` and `GET /my-reviews` are not modelled. They are `$lookup` joins that only read, and they have no property beyond their query.
- `GET /services/professional/:professionalId` is not modelled separately. It is the query of `Services.MyServices` with the id taken from the path.
- Lower-casing covers ASCII letters only. Unicode case mapping is not modelled.
- RegisterPage.NameRules: a name's length is its number of characters. JavaScript's `.length` counts UTF-16 code units, so a name with a character outside the Basic Multilingual Plane is one longer there per such character.
- Success answers are reduced to the data they carry. Messages such as 'Service updated successfully' and the `updatedAt` of the `$set` are not modelled.
- Availability.FindOccupying: the string/ObjectId mismatch is not modelled. `POST /create` in bookings.js:63-67 stores `professionalId` as the request's text, while the occupancy lookup of `/slots` (availability.js:111-116) queries `professionalId: new ObjectId(professionalId)`. As written, that lookup never matches a booking made through the app, so every slot is reported available. The model uses one `Id` type on both sides and reports the intended availability: a slot is available exactly when no non-cancelled booking holds it.
- Fields a document lacks (`isAdmin`, `averageRating`, `totalReviews` and `phone` on a newly registered user) are stored as false, 0 or null, which is how the routes read them.
- `isAdmin` is a boolean. A stored non-boolean value (`isAdmin === true` being false for it) is not modelled.
- Rendering, navigation, alerts, `localStorage` and the week arithmetic of `dayjs` are not modelled.
- The files `server/routes/uploads.js` and `server/routes/professional.js` are not part of this model.

## Findings

| source | as written | input that shows it | evidently intended | confidence | as-written member | corrected member |
|---|---|---|---|---|---|---|
| server/routes/availability.js:102-140 | the slot loop advances `currentTime` with `addMinutes`, which wraps at midnight, and compares texts, so a schedule whose next slot would pass midnight either never reaches `end` or first visits times after midnight, out of time order | hours 23:00 to 23:30 with 60-minute slots: `currentTime` goes 23:00, 00:00, 01:00, … and stays below "23:30" forever; with 70-minute slots and no break it goes 23:00, 00:10, 01:20, … and emits 21 slots before stopping at 23:30 | the loop stops at the end of the day; the offered starts are the grid points in `[start, end)` outside the break | not executed | Availability.WrapNeverReachesEnd | Availability.WalkSlots |
| client/src/components/pages/RegisterPage.jsx:23-98 | for email and password, `validate` queues the required message with `setErrorMessages` and returns "", and `handleChange` then queues that "" for the same field, which overwrites the message | emptying the email field: its error message stays "" instead of "Email est obligatoire." | an emptied email or password shows its required message | not executed | RegisterPage.EmailMessageLost | RegisterPage.RegisterForm.HandleChangeIntended |
| server/routes/availability.js:45-59 | `POST /settings` stores `parseInt(slotDuration)` without a check, so a duration of 0 is saved, and afterwards the slot loop for that professional never moves `currentTime` | post `slotDuration: "0"`, then ask for the slots of a working day with hours 09:00 to 19:00 | a slot duration that is not positive is refused when the schedule is saved | not executed | Availability.ZeroDurationNeverEnds | Availability.SaveCheckedSettings |
