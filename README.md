# Sahay Pragathi backend: the auditable record store

The backend is a citizen-services service built on Express and Mongoose. It
keeps nine kinds of records:

- grievance cases;
- temple darshan letters;
- Chief Minister's relief requests;
- education support requests;
- disputes;
- appointments;
- CSR industrial projects;
- programs;
- emergencies.

Each record has a human-readable identifier, a status drawn from an
enumeration, and usually an append-only `statusHistory` and `comments`. Every
router follows the same pattern: find the record, edit it in place, save it.
The routers differ in exactly these points:

- which key the lookup tries first;
- whether a status change logs history;
- which keys an update may copy;
- whether the generated identifier or the request body wins.

This project models that core and proves what each handler does to the store.

**Values and documents.** `Json.Value` models a JavaScript value
(`undefined`, `null`, booleans, numbers, strings, arrays, objects). A document
is a map from path to value, and setting a path to `undefined` unsets it.

**Schemas.** `Schema` holds, per kind:

- the enumerations, the defaults and the required paths, read from the model
  files;
- `Construct`, which is what `new Model(body)` stores;
- `Conforms`, which is what `save()` validates;
- `ConformsOn`, which is what `runValidators` checks on an update.

**The store.** `Store.Snapshot` is a collection: its documents by ObjectId,
their insertion order and their creation times. `Store.Collection` is the same
state as a class whose `Add`, `Write` and `Erase` methods change it in place.
The store invariant `Inv` says:

- every document carries its own `_id`;
- the order lists each document once;
- no two documents share a human identifier, because the unique index
  refuses the second one;
- every document conforms to its schema. Emergencies are the exception,
  because their `findByIdAndUpdate` routes run no validators.

**Lookups.** `Store.LookupBy` implements the five lookup orders the routers
use:

- `HexThenHuman` (temples, CM relief): `_id` for a 24-hex id, then the human
  identifier;
- `HumanThenId` (education, appointments, CSR, programs): the human
  identifier, then a cast of the id to an ObjectId;
- `HumanOrId` (disputes): `findOne({$or: [{_id}, {disputeId}]})`;
- `HexOrHuman` (cases): `_id` for a 24-hex id, otherwise `caseId`, with no
  fallback;
- `IdOnly`: `findById`.

A cast of a string that is not 24 hexadecimal digits is a CastError, which the
catch block answers with 500.

**Handlers and routes.** `Handlers` holds the handler shapes the routers
share:

- create;
- save;
- GET by id;
- delete;
- append to an array path;
- the PUT that logs history (temples, CM relief);
- the blacklist PUT (appointments, CSR, programs; education after the copy);
- `findByIdAndUpdate` (cases, emergencies).

Each router has its own module for what is specific to it. Each handler is a
function over a snapshot that says what it does, a method on a `Collection`
that does it step by step, and lemmas about the function.

**The rest.**

- `Ids`: the identifier generators.
- `Intake`: the case intake normalisation of `cases.js`.
- `Listing`: filters, pagination, counts, sums and `$group` tallies.
- `Auth`: the `authenticate`, `authorize` and `optionalAuth` middleware, with
  `jwt.verify` as an oracle.

Time is an integer clock in milliseconds passed to each operation. The year
of the identifiers is a parameter too.

Behaviours of the source that the model makes explicit:

- **Disputes cannot be fetched by `disputeId`.** The `$or` query casts the
  id for `_id` before it tries `disputeId`, so a dispute identifier, which is
  never 24-hex, fails the cast and answers 500 (`Store.HumanOrIdRejectsHumanIds`,
  `DisputeRoutes.CreatedIsFoundByOidOnly`).
- **Human-then-id lookups answer 500, not 404.** On education, appointments,
  CSR and programs, an unknown id that is not 24-hex fails the cast
  (`Store.HumanThenIdUnknownIsCastError`).
- **The education PUT never logs history.** It copies `status` onto the
  record before comparing it with the record's status, so the comparison
  always finds them equal (`EducationRoutes.EditedNeverLogs`).
- **The user has no `id`.** The user that `authenticate` attaches has only
  `userId` and `role`. Handlers that record `req.user.id` as creator or author
  therefore record nothing (`Auth.AuthenticatedHasNoId`,
  `TempleRoutes.AuthenticatedCreatorUnset`).
- **A case without a description is refused.** The intake falls back to an
  empty description, but the schema requires one and refuses "", so such a
  case is never stored (`CaseRoutes.MissingDescriptionRefused`).
- **Count-based identifiers can repeat.** Once a record has been deleted, the
  next identifier can equal one still in use. The unique index then refuses
  the create (`AppointmentRoutes.CountedIdCollides`).
- **Most emergency updates skip validation.** The emergency status, assign
  and escalate routes run no validators, so any status string is stored
  (`EmergencyRoutes.StatusIsNotValidated`).

## Model

| member | source | states |
|---|---|---|
| Ids.CodeOf | src/models/CMRelief.js:205-207 | The district code has min(3, length) characters, each the district's character at that place with ASCII a-z upper-cased, so it has no ASCII lower-case letter. |
| Ids.CodeOrGen | src/models/CMRelief.js:205-207 | A falsy district gives "GEN", a truthy string gives its code, and a truthy non-string is a TypeError. Education (src/models/Education.js:237-239) and disputes (src/models/Dispute.js:191) compute the same code. |
| Ids.TempleCode | src/models/Temple.js:162-164 | Only an omitted district defaults to "AP". A string gives its code, so "" gives an empty code, and any other value is a TypeError. |
| Ids.LatestIn | src/models/CMRelief.js:210-214 | Gives no identifier exactly when no record matches the prefix. Otherwise it gives the identifier of a matching record after which no later-created record matches: the most recent, not the numerically largest. |
| Ids.GreatestIn | src/models/Dispute.js:196-197 | The identifier returned starts with the prefix, belongs to a stored record, and no matching identifier is above it in string order. It is none only when nothing matches. |
| Ids.NextSequence | src/models/CMRelief.js:216-220 | The sequence is 1 without a previous identifier. With one, it is a number exactly when the text after the last dash parses as radix-less `parseInt` reads it (leading white space, a sign, a `0x` hex prefix, digits up to the first non-digit), and NaN otherwise. |
| Ids.TempleSequence | src/models/Temple.js:174-180 | The temple sequence is always at least 1. |
| Ids.GenerateCmrfId | src/models/CMRelief.js:203-223 | A generated CM relief identifier starts with "CMRF-". |
| Ids.GenerateEducationId | src/models/Education.js:235-255 | A generated education identifier starts with "EDU-". |
| Ids.GenerateDisputeId | src/models/Dispute.js:188-208 | A generated dispute identifier starts with "DSP-AP-". |
| Ids.GenerateTempleId | src/models/Temple.js:162-184 | A generated temple identifier starts with "TDL-". |
| Ids.CountId | src/routes/appointments.js:123-131 | A count-based identifier starts with its prefix. Appointments, CSR (src/routes/csrindustrial.js:114-122), programs (src/routes/programs.js:110-113) and cases (src/routes/cases.js:147-150) use it. |
| Ids.EmergencyId | src/models/Emergency.js:147-153 | The hook's identifier starts with "EMR-" (time and count + 1, unpadded). |
| Ids.CountIdSequence | src/routes/appointments.js:123-131 | A count-based identifier is the prefix, the year and a dash, then at least six digits that `parseInt` reads back as the count + 1. |
| Ids.EmergencyIdSequence | src/models/Emergency.js:150 | The emergency identifier is "EMR-", the clock and a dash, then the count + 1 unpadded, which `parseInt` reads back. |
| Ids.HexTailContinues | src/models/CMRelief.js:218 | A previous identifier ending in "-0x10" is continued at 17: the tail is read as hexadecimal. |
| Ids.SpacedTailContinues | src/models/CMRelief.js:218 | A previous identifier ending in "- 7" is continued at 8: leading white space is skipped. |
| Ids.LetterTailIsNaN | src/models/CMRelief.js:218 | A previous identifier ending in "-x7" gives a NaN sequence. |
| Ids.PaddedSequence | src/models/CMRelief.js:222 | The padded sequence has at least six digits, is never shorter than the number's own digits, and `parseInt` reads it back as the number. |
| Ids.NextAfterNumbered | src/models/CMRelief.js:216-220 | After an identifier numbered n, the sequence is n + 1. |
| Ids.CmrfSuccessor | src/models/CMRelief.js:216-222 | Generating after the CM relief identifier numbered n gives exactly the one numbered n + 1: the chain of identifiers has no gaps. |
| Ids.EducationSuccessor | src/models/Education.js:248-254 | Generating after the education identifier numbered n gives exactly the one numbered n + 1. |
| Ids.CmrfFirst | src/models/CMRelief.js:210-222 | With no earlier identifier under the district and year, the generator succeeds and gives the one numbered 1. |
| Ids.TempleSuccessor | src/models/Temple.js:174-183 | After the temple identifier numbered n, the temple sequence is n + 1. |
| Ids.OrderUnderHead | src/models/Dispute.js:196-197 | Under a common head, six-digit identifiers sort in string order exactly as their numbers do. |
| Ids.NoneAbove | src/models/Dispute.js:196-207 | An identifier above the greatest matching one in string order, and with the same prefix, is held by no record. |
| Ids.SuccessorAbove | src/models/Dispute.js:199-207 | Below one million, the successor of a six-digit identifier sorts above it. |
| Ids.DisputeIdIsFresh | src/models/Dispute.js:188-208 | While sequence numbers stay below one million, the dispute generator succeeds and returns an identifier no stored record holds. |
| Text.PadStart | src/models/CMRelief.js:222 | `padStart` gives the larger of the two lengths: the text is padded on the left with the fill character and never truncated. |
| Text.LastSegment | src/models/CMRelief.js:218 | `split(sep).pop()` is the suffix after the last separator, holds no separator, and is the whole text when there is none. |
| Text.DashDigitsSuffix | src/models/Temple.js:175-178 | The `/-(\d+)$/` capture, when it exists, is a non-empty run of digits. |
| Text.ParsePadded | src/models/CMRelief.js:218-222 | `parseInt` reads the zero-padded rendering of n back as n. |
| Text.ParseDigitRun | src/models/CMRelief.js:218 | `parseInt` reads a non-empty run of decimal digits as its decimal value. |
| Text.PaddedValue | src/models/Temple.js:175-178 | The zero-padded rendering of n is a run of digits whose decimal value is n. |
| Text.ParseIntReadsHex | src/models/CMRelief.js:218 | Without a radix, `parseInt("0x10")` is 16. |
| Text.ParseIntSkipsSpace | src/models/CMRelief.js:218 | `parseInt` skips a leading space: a space followed by a run of digits reads as the digits' value. |
| Text.ParseIntStopsAtNonDigit | src/models/CMRelief.js:218 | `parseInt("-12ab")` is -12: the sign is kept and reading stops at the first non-digit. |
| Text.ParseIntWithoutDigits | src/models/CMRelief.js:218 | `parseInt("x7")` is NaN. |
| Text.LexLessDigits | src/models/Dispute.js:196-197 | On digit strings of one length, string order is numeric order, in both directions. |
| Text.LowerHex | src/routes/temples.js:72-80 | The ObjectId cast lower-cases each hexadecimal character and keeps the length. |
| Records.Overwrite | src/routes/temples.js:227-231 | Every listed key takes its value in the updates, and every other key keeps its value in the document. |
| Records.OverwriteStep | src/routes/temples.js:227-231 | Copying one more key is one more assignment `doc[k] = v`. |
| Records.Record.constructor | src/routes/temples.js:114-189 | A new in-memory document holds exactly the fields given. |
| Records.Record.Set | src/routes/appointments.js:258-264 | `doc[key] = v` changes that path only, and `undefined` unsets it. |
| Records.Record.Append | src/routes/temples.js:315-318 | `doc[key].push(e)` appends `e` to that array path only. |
| Records.Record.AssignExcept | src/routes/appointments.js:169-173 | The `forEach` copy of every key except the blacklisted ones (optionally skipping `undefined`) gives the merged document. |
| Records.Record.AssignAllowed | src/routes/disputes.js:237-262 | The allow-list copy, field by field in list order, gives the document merged on the listed keys. |
| Records.HistoryEntry | src/models/Appointment.js:97-113 | A history entry carries the status, who changed it, the time, and its note under the given key. |
| Records.CommentEntry | src/models/Program.js:360-376 | A comment entry carries the author under the given key, the text and the time. |
| Store.CastId | src/routes/temples.js:72 | A cast to an ObjectId succeeds exactly for 24 hexadecimal digits. |
| Store.FirstWith | src/routes/temples.js:84 | `findOne({key: v})` returns a stored record holding v, and finds none only when no record holds v. |
| Store.FirstEither | src/routes/disputes.js:71-73 | `findOne({$or: [{_id}, {key}]})` returns a stored record with that `_id` or that key value, and finds none only when no record has either. |
| Store.LookupBy | src/routes/education.js:71-89 | A record found by any of the five lookup orders is a stored one. |
| Store.EmptyInv | src/models/Appointment.js:6-10 | An empty collection meets the store invariant. |
| Store.InsertKeepsInv | src/models/Appointment.js:6-10 | Saving a new record keeps the invariant. In particular the unique index refuses a second record with the same human identifier. |
| Store.CommitKeepsInv | src/routes/appointments.js:175 | Saving an edited record, with the validation its route runs, keeps the invariant. |
| Store.TakenIdRefused | src/models/Appointment.js:6-10 | A new record whose human identifier another record already holds is refused: nothing is stored and the handler answers its error code. |
| Store.RemoveKeepsInv | src/routes/temples.js:255-290 | Deleting a record keeps the invariant, removes that record and keeps every other. |
| Store.FindByHumanUnique | src/routes/temples.js:84 | A record holding human identifier h is exactly what `findOne` returns for h. |
| Store.HexThenHumanResolvesBoth | src/routes/temples.js:72-90 | The hex-then-human lookup reaches a record both by its `_id` and by its human identifier. |
| Store.HumanThenIdResolvesBoth | src/routes/education.js:71-89 | The human-then-id lookup reaches a record by its human identifier, and also by its `_id` unless that string is some record's human identifier. |
| Store.HumanThenIdUnknownIsCastError | src/routes/education.js:71-89 | The human-then-id lookup of an unknown id that is not 24-hex ends in a failed cast (500), not in 404. |
| Store.HumanOrIdRejectsHumanIds | src/routes/disputes.js:71-73 | The `$or` lookup of a human identifier fails the `_id` cast, while the record's `_id` does find it. |
| Store.HexOrHumanNoFallback | src/routes/cases.js:67-86 | The case lookup never falls back: a 24-hex id that is no record's `_id` is not found, even when it is a human identifier. |
| Store.Collection.constructor | src/models/Appointment.js:6-10 | A new collection holds no record. |
| Store.Collection.Add | src/routes/appointments.js:133 | Saving a new record reports the store's refusal, if any, and leaves the collection in the state `Insert` gives. |
| Store.Collection.Write | src/routes/appointments.js:175 | Saving an edited record reports the refusal, if any, and leaves the collection in the state `Commit` gives. |
| Store.Collection.Erase | src/routes/temples.js:255-290 | Deleting a record leaves the collection without it. |
| Schema.Fill | src/models/CMRelief.js:88-101 | Each path takes its given value when that value is defined, and its default otherwise. |
| Schema.StatusIsValidated | src/models/Appointment.js:97-113 | A conforming record's status is in its kind's enumeration, and is a string where the status is required. |
| Schema.UnknownStatusRefused | src/models/Education.js:120-133 | A status outside the kind's enumeration fails the save's validation and the update validators of any update that sets it. |
| Schema.UnknownGenderRefused | src/models/CMRelief.js:19-22 | On CM relief, education and appointment records, a gender other than "Male", "Female" or "Other" fails the save's validation and the update validators of any update that sets it. Education (src/models/Education.js:20-23) and appointments (src/models/Appointment.js:19-22) declare the same enumeration. |
| Schema.BrokenRuleRefused | src/models/CSRIndustrial.js:165-182 | One broken schema rule on a path being set fails both the full validation and the update validators. |
| Schema.ConformsAfterUpdate | src/routes/cases.js:303-314 | A record that conformed, changed only on the keys set, and passing the update validators on those keys still conforms. |
| Schema.ConstructTopLevel | src/models/Temple.js:52-64 | `new Model(body)` keeps every defined value, takes the default where the value is undefined, and leaves a path without a default unset. |
| Schema.ConstructKeepsPlain | src/models/CMRelief.js:88-101 | Paths without any default keep their given value. |
| Schema.ConstructNested | src/models/Dispute.js:107-111 | A nested object path of a constructed record always exists, and its defaulted fields (such as `sla.status`) are filled. |
| Models.StatusChanged | src/models/Temple.js:143-151 | After a status change the status is the new one and the history has exactly one more entry; nothing else changes. |
| Models.Commented | src/models/Temple.js:153-159 | After `addComment` the comments have exactly one more entry at the end, the earlier ones unchanged; nothing else changes. |
| Models.UpdateStatus | src/models/Case.js:198-207 | `updateStatus` of cases, temples and disputes pushes `{status, changedBy, changedAt, comments}` and sets the status. |
| Models.AddComment | src/models/Case.js:209-216 | `addComment` appends exactly one `{userId, text, createdAt}`. |
| Models.HearingScheduled | src/models/Dispute.js:220-226 | Scheduling a hearing sets the four hearing fields and the status MEDIATION_SCHEDULED, keeps the history as it was, and changes nothing else. |
| Models.ScheduleHearing | src/models/Dispute.js:220-226 | `scheduleHearing` leaves the document as `HearingScheduled` says. |
| Models.WithEmergencyId | src/models/Emergency.js:147-153 | A truthy existing `emergencyId` is never overwritten. A missing one becomes `EMR-<now>-<count + 1>`. No other path changes. |
| Models.PreSave | src/models/Emergency.js:147-153 | The pre-save hook leaves the document as `WithEmergencyId` says. |
| Models.PreSaveIdempotent | src/models/Emergency.js:148-151 | Running the hook again, at any count and time, changes nothing. |
| Models.AgeInDays | src/models/Case.js:219-221 | The age is the whole number of days since creation, rounded down, and never negative for a past creation time. |
| Models.SetStatusAndLog | src/models/CMRelief.js:237-243 | The static `updateStatus` sets the status and pushes one entry whose comment defaults to "Status changed to <status>". |
| Models.StaticUpdateStatusOn | src/models/CMRelief.js:226-247 | The static `updateStatus` of CM relief and education finds the record by its human identifier, edits it, saves it, and ends in the state and result `StaticUpdateStatus` gives. |
| Models.StaticUpdateStatusFound | src/models/Education.js:258-279 | When the human identifier names a record, the static `updateStatus` saves that record with the new status and entry, and reports the save's fault if any. |
| Models.StaticUpdateStatusKeepsInv | src/models/CMRelief.js:226-247 | The static `updateStatus` keeps the store invariant. |
| Models.StaticUpdateStatusLogs | src/models/CMRelief.js:232-247 | The static `updateStatus` fails with "not found" when no record has the identifier, and a failure changes nothing. Success saves that record with the new status and exactly one more history entry. |
| Handlers.Save | src/routes/temples.js:233 | `await doc.save()` of an edited record ends in the state and reply `SaveStep` gives. |
| Handlers.Create | src/routes/temples.js:173-179 | `await doc.save()` of a new record ends in the state and 201 reply `CreateStep` gives. |
| Handlers.SaveKeepsInv | src/routes/cmrelief.js:198 | A fully validated save keeps the store invariant. |
| Handlers.SaveOutcome | src/routes/cmrelief.js:198-205 | A save either stores exactly the edited record, validated, and replies 200, or changes nothing and replies with the error code. |
| Handlers.ShowByHumanId | src/routes/temples.js:65-111 | A GET by a record's human identifier returns that record under every lookup order except `$or` and `findById`. |
| Handlers.CreatedIsShown | src/routes/education.js:66-110 | A record just created is last in order and can be fetched by its human identifier under the same lookup orders. |
| Handlers.CreatedIsRefusedByHumanId | src/routes/disputes.js:66-100 | Under the `$or` query a record just created is found by its `_id`, while its human identifier answers the error code. |
| Handlers.ShowAnswers | src/routes/appointments.js:73-117 | A GET answers with the record the lookup names exactly when it finds one, and 404 exactly when nothing is found. |
| Handlers.DeleteOn | src/routes/cmrelief.js:221-256 | A DELETE ends in the state and reply `Delete` gives, whichever lookup order the router uses. |
| Handlers.DeleteKeepsInv | src/routes/education.js:220-252 | A DELETE keeps the store invariant. |
| Handlers.DeleteRemovesOne | src/routes/cmrelief.js:228-235 | A DELETE answers "deleted" exactly when the lookup finds a record, and then removes exactly that record. When nothing is found the store is unchanged. |
| Handlers.AppendOn | src/routes/temples.js:293-335 | A comment append ends in the state and reply `Append` gives. |
| Handlers.AppendKeepsInv | src/routes/cmrelief.js:259-301 | A comment append keeps the store invariant. |
| Handlers.AppendAddsOne | src/routes/disputes.js:303-306 | A successful append adds exactly the entry at the end of the path of the record found, keeping the earlier entries and every other path. Any other outcome changes nothing. |
| Handlers.PatchKeepsInv | src/routes/appointments.js:341-376 | A find-edit-save handler keeps the store invariant. |
| Handlers.PatchOutcome | src/routes/appointments.js:193-237 | A successful find-edit-save stores exactly the edited record and sends it. Not finding the record, or an edit the validators reject, changes nothing, and a rejected edit answers the error code. |
| Handlers.LogAndCopy | src/routes/temples.js:217-231 | The PUT's edits on the fetched document give `LoggedCopy`. |
| Handlers.LoggedCopyHistory | src/routes/temples.js:217-224 | Unless the request sets `statusHistory` itself, the PUT appends one entry exactly when the status is truthy and changed. That entry carries the new status and the comment or "Status updated". |
| Handlers.LoggedCopyFields | src/routes/cmrelief.js:192-196 | Every defined key of the request except `statusComment` is copied, the human identifier included; undefined keys leave the record's value. |
| Handlers.LoggedUpdateOn | src/routes/temples.js:192-252 | The temple and CM relief PUT ends in the state and reply `LoggedUpdate` gives. |
| Handlers.LoggedUpdateKeepsInv | src/routes/cmrelief.js:157-218 | That PUT keeps the store invariant. |
| Handlers.CopyUpdateOn | src/routes/csrindustrial.js:142-181 | The blacklist PUT ends in the state and reply `CopyUpdate` gives. |
| Handlers.CopyUpdateKeepsInv | src/routes/programs.js:138-175 | The blacklist PUT keeps the store invariant. |
| Handlers.CopyUpdateProtects | src/routes/appointments.js:169-173 | A successful blacklist PUT keeps the record's `_id` and human identifier and writes every other key of the request. |
| Handlers.FindAndUpdateOn | src/routes/emergencies.js:106-136 | `findByIdAndUpdate` ends in the state and reply `FindAndUpdate` gives. |
| Handlers.FindAndUpdateOutcome | src/routes/emergencies.js:164-197 | A successful update writes every defined key of the update and keeps every other path of that record only. Any other outcome changes nothing, and not finding the record answers 404, or the error code for a failed cast. |
| Handlers.FindAndUpdateKeepsInv | src/routes/cases.js:297-342 | An update validated on the paths it sets keeps the invariant, and so does an unvalidated one on emergencies. |
| Listing.Matching | src/routes/temples.js:8-62 | The query results are records that match the filter, and every stored record that matches is among them. |
| Listing.Stamped | src/routes/temples.js:8-62 | The records a query sees are exactly the stored ones, each with its `createdAt`. |
| Listing.AppendMatches | src/routes/cmrelief.js:8-58 | Two filters side by side match exactly what both match. |
| Listing.NarrowerCountsLess | src/routes/cmrelief.js:304-349 | One more condition never counts more records. |
| Listing.FilterOf | src/routes/education.js:7-63 | The filter built from the query has at most one condition per listed parameter. |
| Listing.FilterOfMatches | src/routes/education.js:7-63 | A record matches the built filter exactly when, at every truthy listed parameter, it holds that parameter's value. Falsy parameters filter nothing. |
| Listing.DayOfMatches | src/routes/temples.js:28-33 | The date filter matches exactly the records whose date lies in the half-open day `[day, day + 1 day)`. |
| Listing.CeilDiv | src/routes/appointments.js:59 | `Math.ceil(a / b)` for a positive b is the least r with a ≤ r·b. |
| Listing.Window | src/routes/appointments.js:38-47 | `.skip(k).limit(n)` is refused for a negative skip. Otherwise it returns at most \|n\| consecutive records starting at position k (no bound for n = 0). |
| Listing.PageOfEach | src/routes/appointments.js:38-59 | With a positive limit, every result appears on exactly the page its position gives, and that page is within the page count. |
| Listing.List | src/routes/emergencies.js:7-48 | A list reply fails exactly for a negative skip. Otherwise its total is the filter's count, its page count is `ceil(total / limit)`, every item matches, and there are at most `limit` items. |
| Listing.ListShowsEach | src/routes/programs.js:7-59 | With a positive limit, the i-th newest matching record is on page i / limit + 1, which is among the pages reported. |
| Listing.CountInTwo | src/routes/temples.js:361-364 | A count over `$in: [a, b]` for distinct a and b is the count for a plus the count for b. |
| Listing.InSplits | src/routes/programs.js:407-410 | `$in` and `$nin` over the same values split the matching records. |
| Listing.SumOverSet | src/routes/cmrelief.js:317-338 | Restricting a sum to records where the path is set and not null changes nothing. |
| Listing.SumSplits | src/routes/csrindustrial.js:411-414 | `$in` and `$nin` over the same values split a sum. |
| Listing.Tally | src/routes/cmrelief.js:304-349 | `$group` by a path has a group for exactly the values found, a missing value grouping as null, and each group counts between 1 and the number of records. |
| Listing.TallyStep | src/routes/emergencies.js:282-326 | One more record adds one to its own group and leaves every other group as it was. |
| Listing.TallyCounts | src/routes/education.js:295-338 | A group's count equals `countDocuments` narrowed to that value: `$group` and `countDocuments` agree. |
| Intake.FormIsTotal | src/routes/cases.js:115-125 | The module is `body.module` when the module and details are both truthy. Otherwise the body is its own details and the module is `caseType` or "grievance". The module, details and assignment are always truthy. |
| Intake.FirstTruthy | src/routes/cases.js:163-168 | An `a \|\| b \|\| … \|\| last` chain gives its first truthy value, or `last` when none is truthy. |
| Intake.ChainIsTruthy | src/routes/cases.js:156 | A chain ending in a truthy default is truthy. |
| Intake.FirstTruthyIndex | src/routes/cases.js:232-233 | A chain with a truthy value gives one of the values up to it. |
| Intake.MatchFrom | src/routes/cases.js:132 | The regex search returns the leftmost position where `(\d+)([hd])` matches, and there is no match before it. |
| Intake.DueAfterDuration | src/routes/cases.js:135-143 | A duration `<n>h` or `<n>d` is due n hours or n days after the clock. |
| Intake.DueNotBefore | src/routes/cases.js:128-144 | A due date is never before the clock. |
| Intake.DecimalDuration | src/routes/cases.js:132-143 | Only the first `<digits><h\|d>` counts: "1.5d" is due in five days. |
| Intake.WordedDuration | src/routes/cases.js:129-132 | A duration with no `<digits><h\|d>` match ("2 days") gives no due date (null). |
| Intake.ModuleFields | src/routes/cases.js:184-229 | The module spreads add only module paths. |
| Intake.UnknownModuleSpreadsNothing | src/routes/cases.js:184-229 | A module outside the eight spreads nothing. |
| Intake.PartiesOnlyForDisputes | src/routes/cases.js:184-229 | The dispute parties are read only for the dispute module. |
| Intake.PatientOnlyForRelief | src/routes/cases.js:184-229 | The patient name is read only for the CM relief module. |
| Intake.Attachment | src/routes/cases.js:246-265 | An attachment is kept exactly when it is a string or an object. A kept attachment is an object with a truthy filename, and a string keeps itself as the URL. |
| Intake.FromUrl | src/routes/cases.js:247-254 | A URL is named by its last `/` segment or "file" and keeps the URL. |
| Intake.FromObject | src/routes/cases.js:255-261 | An object attachment is named `filename \|\| name \|\| "file"`, so the name is always truthy. |
| Intake.Named | src/routes/cases.js:249-260 | The stored attachment carries the given name and URL. |
| Intake.Kept | src/routes/cases.js:244-266 | `map(...).filter(Boolean)` never grows the list, and every kept attachment has a truthy filename. |
| Intake.KeptAll | src/routes/cases.js:244-266 | Nothing is dropped exactly when every element is a string or an object. |
| Intake.KeptLength | src/routes/cases.js:263-265 | The last element adds one attachment exactly when it is kept. |
| Intake.KeptStep | src/routes/cases.js:244-266 | The result is the attachments of the earlier elements, followed by the last element's attachment if it is kept. |
| Intake.UrlAttachments | src/routes/cases.js:247-254 | A list of URLs becomes one attachment per URL, in order, each keeping its URL. |
| Intake.SlaOf | src/routes/cases.js:239-243 | The SLA status is "within-sla", and its due date is the computed one or null. |
| Intake.CommonIdentity | src/routes/cases.js:153-168 | The case data carries the identifier, the module, the first truthy citizen name, the subject, and the description or "". |
| Intake.IdentityIsNoModulePath | src/routes/cases.js:184-229 | No module spread can overwrite the identifier, module, name, subject or description. |
| Intake.ClosingLacksIdentity | src/routes/cases.js:231-272 | The fields after the spreads do not overwrite the identity fields either. |
| Intake.ClosingKeys | src/routes/cases.js:231-272 | The department and priority are the first truthy of details and assignment. The status is the details' status or "pending", the SLA is as computed, and `createdBy` is the caller's `id`. |
| Intake.AssembledIdentity | src/routes/cases.js:153-168 | A case is stored under its identifier and module, with the first truthy citizen name or "N/A" and the first truthy subject or "New Task", so neither is empty. |
| Intake.AssembledDefaults | src/routes/cases.js:231-272 | A case starts with the department or "General" and the priority or "P3", both non-empty. Its status is non-empty, its SLA is within time and due as the duration says, and its creator is the caller's `id`. |
| Intake.AssembledDescription | src/routes/cases.js:159 | The description falls back to "". |
| Intake.NonStringDurationRefused | src/routes/cases.js:128-144 | A truthy SLA duration that is not a string makes `calculateDueDate` throw: the create fails with a TypeError. |
| Intake.CaseDataShape | src/routes/cases.js:153-274 | The case data exists exactly when the due date can be computed, and then has all the facts of `AssembledIdentity`, `AssembledDefaults` and `AssembledDescription`. |
| CaseRoutes.CreateOn | src/routes/cases.js:108-294 | The case POST ends in the state and reply `Create` gives. |
| CaseRoutes.CreateKeepsInv | src/routes/cases.js:108-294 | The case POST keeps the store invariant. |
| CaseRoutes.ConstructedKey | src/models/Case.js:91-108 | `new Case(data)` keeps the defined identity, department, priority and status paths as given. |
| CaseRoutes.ConstructedSla | src/models/Case.js:125-134 | `sla.status` of the case data survives the nested default. |
| CaseRoutes.IntakeAssembles | src/routes/cases.js:153-274 | Whatever the intake builds satisfies the assembled-case facts. |
| CaseRoutes.ConstructKeeps | src/routes/cases.js:274-276 | Constructing the case keeps the assembled-case facts. |
| CaseRoutes.NewCaseShape | src/routes/cases.js:153-276 | A new case carries its generated identifier, its module, a non-empty citizen name and subject, the description or "", the chosen department and priority, a status, and an SLA within time. |
| CaseRoutes.SavedIsFindable | src/routes/cases.js:62-105 | Once saved, a case is found by its `caseId` and by its `_id`. |
| CaseRoutes.CreatedIsFindable | src/routes/cases.js:147-150 | A created case is stored last under its `_id` and can then be fetched by its generated `caseId` and by its `_id`. |
| CaseRoutes.BrokenRuleRefused | src/routes/cases.js:276-293 | A case that breaks a schema rule is refused with 400 and nothing is stored. |
| CaseRoutes.UnknownModuleBreaksRule | src/models/Case.js:12-25 | A new case whose `caseType` is not one of the eight modules is refused with 400. |
| CaseRoutes.EmptyDescriptionBreaksRule | src/models/Case.js:43-46 | A new case with the empty description is refused with 400. |
| CaseRoutes.UnknownModuleRefused | src/routes/cases.js:115-125 | A POST naming a module outside the eight answers 400 and stores nothing. |
| CaseRoutes.MissingDescriptionRefused | src/routes/cases.js:159 | A POST whose details have no truthy description answers 400 and stores nothing. |
| CaseRoutes.UpdateOn | src/routes/cases.js:297-342 | The case PUT ends in the state and reply `Update` gives. |
| CaseRoutes.UpdateKeepsInv | src/routes/cases.js:297-342 | The case PUT keeps the store invariant. |
| CaseRoutes.UpdateRefusals | src/routes/cases.js:297-342 | The PUT answers 404 for an id that names nothing. An unknown status string is refused with 400 and changes nothing. |
| CaseRoutes.SetStatusOn | src/routes/cases.js:345-370 | The status PATCH ends in the state and reply `SetStatus` gives. |
| CaseRoutes.SetStatusKeepsInv | src/routes/cases.js:345-370 | The status PATCH keeps the store invariant. |
| CaseRoutes.SetStatusLogs | src/routes/cases.js:345-370 | A successful status PATCH sets the status and logs exactly one entry naming it, the user and the comments. A status outside the enumeration is refused with 400 and changes nothing. |
| CaseRoutes.CommentOn | src/routes/cases.js:373-398 | The comment POST ends in the state and reply `Comment` gives. |
| CaseRoutes.CommentKeepsInv | src/routes/cases.js:373-398 | The comment POST keeps the store invariant. |
| CaseRoutes.CloseOn | src/routes/cases.js:445-470 | The DELETE ends in the state and reply `Close` gives. |
| CaseRoutes.ClosedOnlyStatus | src/routes/cases.js:447-451 | Closing sets the status to "closed" and changes nothing else. |
| CaseRoutes.ClosedStillConforms | src/models/Case.js:91-108 | "closed" is an allowed status, so a conforming case with only its status closed still conforms. |
| CaseRoutes.KeptIdCannotClash | src/models/Case.js:8-9 | A write that keeps a case's `caseId` cannot clash with the unique index. |
| CaseRoutes.ClosedConforms | src/routes/cases.js:447-451 | Closing a stored case keeps its `_id` and `caseId` and leaves it conforming, so the write cannot fail. |
| CaseRoutes.CloseKeepsInv | src/routes/cases.js:445-470 | The DELETE keeps the store invariant. |
| CaseRoutes.CloseOutcome | src/routes/cases.js:445-470 | The soft delete keeps the case. A case found by its `_id` is closed with every other path kept. An unknown id answers 404 and a malformed one 500. |
| CaseRoutes.ListedMatch | src/routes/cases.js:7-59 | A case is listed exactly when it agrees with every truthy filter parameter. |
| CaseRoutes.ComplianceBounds | src/routes/cases.js:430-433 | The compliance lies between 0 and 100. It is 100 exactly when no case breached its SLA, and 0 exactly when every case did. |
| CaseRoutes.StatsBounded | src/routes/cases.js:401-442 | No figure exceeds the total, pending plus in-progress does not exceed it, and the compliance is a percentage that is 100 exactly without breaches. |
| TempleRoutes.CreateOn | src/routes/temples.js:114-189 | The temple POST ends in the state and reply `Create` gives. |
| TempleRoutes.Build | src/routes/temples.js:145-171 | Building the new letter gives `NewTemple`. |
| TempleRoutes.NewTempleShape | src/routes/temples.js:145-171 | A new letter has status REQUESTED, a history of exactly the opening REQUESTED entry, the generated `templeId`, `numberOfPeople \|\| 1`, the creator, and every picked body value as given. |
| TempleRoutes.AuthenticatedCreatorUnset | src/routes/temples.js:161 | Behind `authenticate` the letter has no creator and its opening entry no author, because the user has no `id`. |
| TempleRoutes.CreateKeepsInv | src/routes/temples.js:114-189 | The temple POST keeps the store invariant. |
| TempleRoutes.CreatedIsFindable | src/routes/temples.js:114-189 | A created letter is stored last under its `_id` and can then be fetched by its generated `templeId`. |
| TempleRoutes.CreateRefused | src/routes/temples.js:180-188 | The POST either creates the letter or answers 500, and a refused create changes nothing. |
| TempleRoutes.ListFilterMeans | src/routes/temples.js:8-62 | A letter is listed exactly when it agrees with every truthy parameter and, given a date, its preferred date lies in that day. |
| TempleRoutes.StatsAddUp | src/routes/temples.js:338-394 | Pending counts REQUESTED plus UNDER_REVIEW, and no figure exceeds the total. |
| CMReliefRoutes.CreateOn | src/routes/cmrelief.js:113-154 | The CM relief POST ends in the state and reply `Create` gives. |
| CMReliefRoutes.NewRequestShape | src/routes/cmrelief.js:121-133 | The generated `cmrfId`, the creator and the one-entry REQUESTED history win over the body. An unset status is REQUESTED and an unset verification status PENDING. |
| CMReliefRoutes.NewRequestKeepsBody | src/routes/cmrelief.js:121-133 | Every other defined body value is stored as given. |
| CMReliefRoutes.CreateKeepsInv | src/routes/cmrelief.js:113-154 | The CM relief POST keeps the store invariant. |
| CMReliefRoutes.CreateRefused | src/routes/cmrelief.js:146-153 | The POST either creates the request or answers 500, and a refused create changes nothing. |
| CMReliefRoutes.CreatedIsFindable | src/routes/cmrelief.js:118-135 | A created request is stored last under its `_id` and can be fetched by the generated `cmrfId`, whatever `cmrfId` the body carried. |
| CMReliefRoutes.StatsTotals | src/routes/cmrelief.js:317-338 | Both totals are 0 over an empty store, and the approved total equals the sum over records whose amount is set and not null. |
| CMReliefRoutes.StatusGroupsCount | src/routes/cmrelief.js:304-349 | Each status group counts exactly the records holding that status. |
| EducationRoutes.CreateOn | src/routes/education.js:113-150 | The education POST ends in the state and reply `Create` gives. |
| EducationRoutes.NewRequestShape | src/routes/education.js:118-126 | A body's own `educationId` replaces the generated one. The creator is the caller, no history entry is written, and an unset status is REQUESTED. |
| EducationRoutes.CreateKeepsInv | src/routes/education.js:113-150 | The education POST keeps the store invariant. |
| EducationRoutes.CreatedIsFindable | src/routes/education.js:118-128 | A request created without a body `educationId` is stored last and can then be fetched by the generated one. |
| EducationRoutes.CreateRefused | src/routes/education.js:142-149 | The POST either creates the request or answers 500, and a refused create changes nothing. |
| EducationRoutes.Edit | src/routes/education.js:173-188 | The PUT's edits on the fetched document give `Edited`. |
| EducationRoutes.EditedNeverLogs | src/routes/education.js:173-188 | The PUT is the plain copy of every key but `_id` and `educationId`: the history changes only if the request sets it. |
| EducationRoutes.UpdateOn | src/routes/education.js:153-217 | The education PUT ends in the state and reply `Update` gives. |
| EducationRoutes.UpdateIsCopy | src/routes/education.js:153-217 | On the education store the PUT is exactly the shared blacklist update. |
| EducationRoutes.UpdateKeepsInv | src/routes/education.js:153-217 | The education PUT keeps the store invariant. |
| EducationRoutes.StatsTotals | src/routes/education.js:295-338 | Both totals are 0 over an empty store, and the approved total equals the sum over records whose amount is set and not null. |
| EducationRoutes.TypeGroupsCount | src/routes/education.js:295-338 | Each education-type group counts exactly the records of that type. |
| DisputeRoutes.CreateOn | src/routes/disputes.js:103-202 | The dispute POST ends in the state and reply `Create` gives. |
| DisputeRoutes.Build | src/routes/disputes.js:141-180 | Building the new dispute gives `NewDispute`. |
| DisputeRoutes.NewDisputeShape | src/routes/disputes.js:141-180 | A new dispute is NEW with exactly the opening NEW entry, the generated id, the parties' fields, and `priority \|\| "MEDIUM"`. It has a 7-day SLA due at now + 7 days within time, and every picked body value as given. |
| DisputeRoutes.CreateKeepsInv | src/routes/disputes.js:103-202 | The dispute POST keeps the store invariant. |
| DisputeRoutes.CreateRefused | src/routes/disputes.js:103-202 | The POST either creates the dispute or answers 500, and a refused create changes nothing. A body without both parties is refused. |
| DisputeRoutes.CreatedIsFoundByOidOnly | src/routes/disputes.js:66-100 | A created dispute is found by its `_id`, but its own `disputeId` fails the `_id` cast and answers 500. |
| DisputeRoutes.Logged | src/routes/disputes.js:222-224 | The conditional `updateStatus` touches only the status and hearing paths. |
| DisputeRoutes.Scheduled | src/routes/disputes.js:227-234 | The conditional `scheduleHearing` touches only the status and hearing paths. |
| DisputeRoutes.Edit | src/routes/disputes.js:222-262 | The PUT's edits on the fetched document give `Edited`. |
| DisputeRoutes.EditedStatus | src/routes/disputes.js:222-234 | A truthy hearing date makes the status MEDIATION_SCHEDULED. Otherwise a truthy status is taken, else the record's status stays. |
| DisputeRoutes.EditedHistory | src/routes/disputes.js:222-234 | Exactly one entry is logged when the status is truthy and changed, and none otherwise; scheduling a hearing logs nothing. |
| DisputeRoutes.EditedWrites | src/routes/disputes.js:237-262 | Every allow-listed key defined in the request is written. |
| DisputeRoutes.EditedKeeps | src/routes/disputes.js:237-262 | The `disputeId`, and any key off the list and outside the status and hearing paths, stay as they were. |
| DisputeRoutes.UpdateOn | src/routes/disputes.js:205-284 | The dispute PUT ends in the state and reply `Update` gives. |
| DisputeRoutes.UpdateKeepsInv | src/routes/disputes.js:205-284 | The dispute PUT keeps the store invariant. |
| DisputeRoutes.ListFilterMeans | src/routes/disputes.js:8-63 | A dispute is listed exactly when it agrees with every truthy parameter and, given a date, its hearing date lies in that day. |
| AppointmentRoutes.CreateOn | src/routes/appointments.js:120-148 | The appointment POST ends in the state and reply `Create` gives. |
| AppointmentRoutes.NewAppointmentShape | src/routes/appointments.js:123-131 | The generated identifier wins over the body's. An unset status is REQUESTED and an unset `isVIP` false. |
| AppointmentRoutes.NewAppointmentKeepsBody | src/routes/appointments.js:127-131 | Every other defined body value but the action items is stored as given. |
| AppointmentRoutes.CreateKeepsInv | src/routes/appointments.js:120-148 | The appointment POST keeps the store invariant. |
| AppointmentRoutes.CreatedIsFindable | src/routes/appointments.js:120-148 | A created appointment is stored last and can then be fetched by its generated identifier. |
| AppointmentRoutes.CountedIdCollides | src/routes/appointments.js:123-126 | When the count-based identifier is still held by another record (after a delete), the unique index refuses the create, which answers 500 and stores nothing. |
| AppointmentRoutes.LogStatus | src/routes/appointments.js:211-220 | The PATCH's edits on the fetched document give `StatusLogged`. |
| AppointmentRoutes.SetStatusOn | src/routes/appointments.js:193-237 | The status PATCH ends in the state and reply `SetStatus` gives. |
| AppointmentRoutes.StatusLoggedShape | src/routes/appointments.js:211-220 | Every status PATCH sets the status and logs one entry, whether or not the status changed, and touches nothing else. |
| AppointmentRoutes.SetStatusKeepsInv | src/routes/appointments.js:193-237 | The status PATCH keeps the store invariant. |
| AppointmentRoutes.StatusRequired | src/models/Appointment.js:97-113 | A PATCH without a status (or with null or "") is rejected by the save and changes nothing. |
| AppointmentRoutes.Assign | src/routes/appointments.js:258-264 | The assign edits on the fetched document give `Assigned`. |
| AppointmentRoutes.AssignToOn | src/routes/appointments.js:240-285 | The assign PATCH ends in the state and reply `AssignTo` gives. |
| AppointmentRoutes.AssignedShape | src/routes/appointments.js:258-264 | Falsy values leave the assignee and coordinator as they were. The assignment date moves to now exactly when an assignee is given, and nothing else changes. |
| AppointmentRoutes.AssignToKeepsInv | src/routes/appointments.js:240-285 | The assign PATCH keeps the store invariant. |
| AppointmentRoutes.UpTo | src/routes/appointments.js:313 | The text before the first `:` holds no `:` and is a prefix of the time. |
| AppointmentRoutes.After | src/routes/appointments.js:313 | The text after the first `:` is shorter than the time. |
| AppointmentRoutes.SlotOfClock | src/routes/appointments.js:311-318 | `"<h>:<m>"` puts the slot h hours and m minutes after the start of the confirmed date's day. |
| AppointmentRoutes.Confirming | src/routes/appointments.js:307-321 | The confirm edits on the fetched document give `Confirmed`. |
| AppointmentRoutes.ConfirmOn | src/routes/appointments.js:288-338 | The confirm PATCH ends in the state and reply `Confirm` gives. |
| AppointmentRoutes.ConfirmedShape | src/routes/appointments.js:307-321 | A confirmation fails only when the date and time are truthy but make no slot. Otherwise the record is CONFIRMED with `confirmationSent` true and its date now, the body's date, time, place and notes, and a slot exactly when both date and time are truthy. |
| AppointmentRoutes.ConfirmKeepsInv | src/routes/appointments.js:288-338 | The confirm PATCH keeps the store invariant. |
| AppointmentRoutes.CheckInOn | src/routes/appointments.js:341-376 | The check-in PATCH ends in the state and reply `CheckIn` gives. |
| AppointmentRoutes.CheckInStamps | src/routes/appointments.js:358-359 | A successful check-in stores CHECKED_IN and the check-in time now, whatever the earlier status, and keeps every other path. |
| AppointmentRoutes.CheckInKeepsInv | src/routes/appointments.js:341-376 | The check-in PATCH keeps the store invariant. |
| AppointmentRoutes.ListFilterMeans | src/routes/appointments.js:7-70 | An appointment is listed exactly when it agrees with every truthy parameter, is a VIP one when exactly `isVIP=true` is asked, and has a confirmed date in the given day. |
| AppointmentRoutes.StatsAddUp | src/routes/appointments.js:426-476 | Pending counts REQUESTED plus UNDER_REVIEW. Every figure is at most the total, and the CONFIRMED group equals the confirmed count. |
| CSRRoutes.CreateOn | src/routes/csrindustrial.js:111-139 | The CSR POST ends in the state and reply `Create` gives. |
| CSRRoutes.NewProjectShape | src/routes/csrindustrial.js:114-122 | The generated `csrId` wins over the body's. An unset status is LEAD and an unset progress 0. |
| CSRRoutes.CreateKeepsInv | src/routes/csrindustrial.js:111-139 | The CSR POST keeps the store invariant. |
| CSRRoutes.CreatedIsFindable | src/routes/csrindustrial.js:111-139 | A created project is stored last and can then be fetched by its generated identifier. |
| CSRRoutes.SetStatusOn | src/routes/csrindustrial.js:184-222 | The status PATCH ends in the state and reply `SetStatus` gives. |
| CSRRoutes.StatusSetShape | src/routes/csrindustrial.js:202-205 | The status PATCH sets the status and, for truthy notes, the progress notes. It appends no history, and every other path is kept. |
| CSRRoutes.SetStatusKeepsInv | src/routes/csrindustrial.js:184-222 | The status PATCH keeps the store invariant. |
| CSRRoutes.StatusRequired | src/models/CSRIndustrial.js:165-182 | A PATCH without a status is rejected by the save and changes nothing. |
| CSRRoutes.AssignToOn | src/routes/csrindustrial.js:225-266 | The assign PATCH ends in the state and reply `AssignTo` gives. |
| CSRRoutes.AssignToStamps | src/routes/csrindustrial.js:243-244 | A successful assignment always stores the assignee and the date now, and nothing else changes. |
| CSRRoutes.AssignToKeepsInv | src/routes/csrindustrial.js:225-266 | The assign PATCH keeps the store invariant. |
| CSRRoutes.FindMilestone | src/routes/csrindustrial.js:371-376 | `milestones.id(mid)` casts `mid` to an ObjectId and finds the first milestone with that `_id`; it finds none when no milestone has it, and always when `mid` is not 24 hexadecimal digits. |
| CSRRoutes.MilestoneIdsCastAlike | src/routes/csrindustrial.js:371-376 | Two ids that cast to the same ObjectId (the same hexadecimal digits in either case) find the same milestone. |
| CSRRoutes.AddedMilestoneIsFound | src/routes/csrindustrial.js:316-350 | A milestone added with a fresh `_id` is the one that id then finds, at the end of the list. |
| CSRRoutes.UpdateMilestoneOn | src/routes/csrindustrial.js:353-398 | The milestone PUT ends in the state and reply `UpdateMilestone` gives. |
| CSRRoutes.UpdateMilestoneOutcome | src/routes/csrindustrial.js:371-381 | A successful milestone update writes every key of the body onto the milestone found, changing no other milestone and no other path. An unknown milestone answers 404 and changes nothing. |
| CSRRoutes.MilestoneEditedShape | src/routes/csrindustrial.js:377-381 | The edit keeps the milestone count, writes the given keys of the found milestone, keeps its other fields and every other milestone. |
| CSRRoutes.UpdateMilestoneKeepsInv | src/routes/csrindustrial.js:353-398 | The milestone PUT keeps the store invariant. |
| CSRRoutes.StatsAddUp | src/routes/csrindustrial.js:401-449 | Active counts IN_EXECUTION plus MOU_SIGNED. The budget total plus the rejected projects' budgets is the sum of all proposed budgets, and the approved total is the sum of approved budgets. |
| ProgramRoutes.CreateOn | src/routes/programs.js:108-135 | The program POST ends in the state and reply `Create` gives. |
| ProgramRoutes.NewProgramShape | src/routes/programs.js:110-118 | The generated `programId` wins over the body's. An unset type is PROGRAM and an unset status PLANNED. |
| ProgramRoutes.CreateKeepsInv | src/routes/programs.js:108-135 | The program POST keeps the store invariant. |
| ProgramRoutes.CreatedIsFindable | src/routes/programs.js:108-135 | A created program is stored last and can then be fetched by its generated identifier. |
| ProgramRoutes.SetStatusOn | src/routes/programs.js:178-218 | The status PATCH ends in the state and reply `SetStatus` gives. |
| ProgramRoutes.SetStatusLogs | src/routes/programs.js:195-201 | A successful status PATCH grows the history by exactly one entry naming the new status, even when it is unchanged, and keeps every other path. |
| ProgramRoutes.SetStatusKeepsInv | src/routes/programs.js:178-218 | The status PATCH keeps the store invariant. |
| ProgramRoutes.AssignToOn | src/routes/programs.js:221-261 | The assign PATCH ends in the state and reply `AssignTo` gives. |
| ProgramRoutes.AssignToStamps | src/routes/programs.js:221-261 | A successful assignment stores the assignee and the date now, and nothing else changes. |
| ProgramRoutes.AssignToKeepsInv | src/routes/programs.js:221-261 | The assign PATCH keeps the store invariant. |
| ProgramRoutes.CommentNeedsUserAndText | src/models/Program.js:360-376 | A comment without a user or a text is rejected by the save and changes nothing. |
| ProgramRoutes.TeamMemberFields | src/routes/programs.js:327-331 | A team member holds exactly the body's `user`, `role` and `responsibilities`, and nothing else. |
| ProgramRoutes.Average | src/routes/programs.js:380-384 | The average times the number of feedback entries is the rating total. |
| ProgramRoutes.AddFeedback | src/routes/programs.js:373-384 | The feedback edits on the fetched document give `WithFeedback`. |
| ProgramRoutes.FeedbackOn | src/routes/programs.js:356-401 | The feedback POST ends in the state and reply `Feedback` gives. |
| ProgramRoutes.FeedbackKeepsInv | src/routes/programs.js:356-401 | The feedback POST keeps the store invariant. |
| ProgramRoutes.FeedbackStatistics | src/routes/programs.js:373-384 | After feedback the list has one more entry, `feedbackCount` is its length, and `feedbackRating` is the average of all ratings, a missing rating counting 0. |
| ProgramRoutes.FeedbackKeepsOthers | src/routes/programs.js:373-384 | Feedback keeps the other statistics and every path but the feedback and the statistics. |
| ProgramRoutes.RatingsBounded | src/routes/programs.js:380-384 | When every rating lies between lo and hi, the rating total lies between lo and hi times the count. |
| ProgramRoutes.AverageBounded | src/routes/programs.js:378-383 | With every rating between 1 and 5, the stored average is between 1 and 5. |
| ProgramRoutes.StatsAddUp | src/routes/programs.js:404-461 | Every figure is at most the total, and the ONGOING group equals the ongoing count. |
| EmergencyRoutes.CreateOn | src/routes/emergencies.js:79-103 | The emergency POST, hook included, ends in the state and reply `Create` gives. |
| EmergencyRoutes.NewEmergencyShape | src/models/Emergency.js:147-153 | A truthy body `emergencyId` is kept, otherwise the hook's `EMR-<now>-<count + 1>` is set. An unset status is LOGGED and an unset `escalated` false. |
| EmergencyRoutes.CreateKeepsInv | src/routes/emergencies.js:79-103 | The emergency POST keeps the store invariant. |
| EmergencyRoutes.CreatedIsFoundById | src/routes/emergencies.js:51-76 | A created emergency is then found by its `_id`. |
| EmergencyRoutes.KeptIdsCannotClash | src/models/Emergency.js:6-11 | A write that keeps a record's `emergencyId` cannot clash with the unique index. |
| EmergencyRoutes.UncheckedUpdateSucceeds | src/routes/emergencies.js:164-279 | Without validators, an update that sets neither `_id` nor `emergencyId` succeeds on every record found and writes every defined key. |
| EmergencyRoutes.UpdateValidatesStatus | src/routes/emergencies.js:106-136 | The PUT runs the validators: an unknown status is refused with 400 and changes nothing. |
| EmergencyRoutes.StatusUpdateShape | src/routes/emergencies.js:205-213 | The update sets the status. `actionTaken` is written only when given, and the resolution time only for RESOLVED or CLOSED. The closure notes, `closedBy` and `closedAt` are written only for a closing status that names them. |
| EmergencyRoutes.StatusIsNotValidated | src/routes/emergencies.js:216-220 | The status PATCH runs no validators: any status string is stored on a record found by its `_id`. |
| EmergencyRoutes.EscalateStamps | src/routes/emergencies.js:250-255 | An escalation of a record found always succeeds, leaving it escalated, CRITICAL and dated now. |
| EmergencyRoutes.AssignDispatches | src/routes/emergencies.js:171-174 | An assignment of a record found always succeeds and leaves it DISPATCHED. |
| EmergencyRoutes.WritesKeepInv | src/routes/emergencies.js:106-279 | The PUT, assign, status and escalate routes keep the store invariant. |
| EmergencyRoutes.UpdateOn | src/routes/emergencies.js:106-136 | The PUT ends in the state and reply `Update` gives. |
| EmergencyRoutes.AssignOn | src/routes/emergencies.js:164-197 | The assign PATCH ends in the state and reply `Assign` gives. |
| EmergencyRoutes.SetStatusOn | src/routes/emergencies.js:200-241 | The status PATCH ends in the state and reply `SetStatus` gives. |
| EmergencyRoutes.EscalateOn | src/routes/emergencies.js:244-279 | The escalate PATCH ends in the state and reply `Escalate` gives. |
| EmergencyRoutes.GroupsCount | src/routes/emergencies.js:282-326 | Each status, type and urgency group counts exactly the records holding that value. |
| Auth.RoleNamed | src/models/User.js:37-41 | A recognised role name gives a role whose name it is. |
| Auth.RoleNamesRoundTrip | src/models/User.js:37-41 | Every role's name gives the role back. |
| Auth.BearerToken | src/middleware/auth.js:9-16 | There is a token exactly when the header is present and starts with "Bearer ", and the header is then "Bearer " followed by the token. |
| Auth.BearerRoundTrip | src/middleware/auth.js:16 | The header built from a token gives that token back. |
| Auth.ErrorStatus | src/middleware/auth.js:29-46 | A verification error answers 401 exactly for TokenExpiredError and JsonWebTokenError, and 500 otherwise. |
| Auth.UserOf | src/middleware/auth.js:22-25 | The attached user has exactly `userId` and `role` from the claims, and no other path. |
| Auth.AuthenticatedOutcome | src/middleware/auth.js:4-48 | Without a Bearer header the answer is 401 whatever the verifier says. With one, the request passes exactly when the token verifies, carrying `UserOf(claims)`, and the answer is 500 exactly for an unrecognised error. |
| Auth.AuthenticatedHasNoId | src/middleware/auth.js:22-25 | The attached user has no `id`. |
| Auth.Includes | src/middleware/auth.js:60 | `allowedRoles.includes(role)` holds exactly when the role value is the name of some allowed role. |
| Auth.AuthorizeMeans | src/middleware/auth.js:51-69 | A request passes `authorize` exactly when it has a user whose role is allowed; an unknown role string is refused with 403. |
| Auth.GateMeans | src/middleware/auth.js:4-69 | Behind both middlewares a request reaches the handler exactly when its token verifies and its claims name an allowed role. |
| Auth.Request.constructor | src/middleware/auth.js:4-9 | A fresh request has its header and no user. |
| Auth.Request.Authenticate | src/middleware/auth.js:4-48 | On success the user is attached and the request proceeds. On failure the user is unchanged and the request is refused with the mapped status. |
| Auth.Request.OptionalAuth | src/middleware/auth.js:72-91 | `optionalAuth` never refuses, and sets the user exactly when the Bearer token verifies. |
| Auth.OptionalAgrees | src/middleware/auth.js:72-91 | On a fresh request `optionalAuth` attaches a user exactly when `authenticate` would have passed, and the same user. |

## Left out

- Express wiring, CORS, static files, database connection, health probes, and the `users` and `upload` routers: these are configuration and I/O with no statable logic.
- Password hashing and comparison in the user model: these are bcrypt calls. Only the role enumeration is modelled.
- `jwt.verify` and the secret: verification is an oracle from token to claims or error name.
- `populate`, `lean`, projections and the `venue` aggregation `$limit`: these change what a reply shows, not what is stored.
- Sort orders other than creation order: lists are newest first by insertion order, and `sort({disputeId: -1})` is `Ids.GreatestIn`.
- Concurrency: the count-based and scan-last identifiers race under concurrent requests. The model is sequential and claims no global uniqueness; `AppointmentRoutes.CountedIdCollides` shows the sequential collision.
- Mongoose casting and strict mode: values are stored as given. Only validation (enumerations, required paths, numeric bounds, entry shapes) is modelled. Query filter values are not cast either: `GET /appointments?assignedTo=abc` fails to cast to an ObjectId and answers 500 in the service, while the model compares the text and answers 200 with an empty page.
- The `_id` of subdocuments: a new milestone's `_id` is a parameter, and other array entries have none. A milestone `_id` given in the request body is stored as given, not cast to an ObjectId.
- Dates: parsing, local time, `setHours` and daylight saving are not modelled. Query dates arrive already parsed to milliseconds, and the confirmed slot uses the UTC start of the day. The dead `if (!match) return now` branch of the slot parser is not modelled.
- Query strings: `page` and `limit` arrive as integers; NaN parameters and the companyName regular expression filter are not modelled.
- Array-valued fields in filters: a filter value matches a record's value by equality, not by array membership.
- Update keys with dots or `$` operators: update keys are plain top-level paths.
- Error message texts and logging: replies carry status codes and data only.
- `parseInt` beyond 2^53 and floating point: numbers are unbounded reals. `toFixed` rounding of the SLA compliance is not modelled (`CaseRoutes.ComplianceBounds` states the unrounded value).
- Non-numeric ratings: a rating that is not a number counts as 0 in the feedback total.
- Ids.GenerateCmrfId: the contract states only the prefix. The sequence and the shape of the identifier are stated by `Ids.CmrfSuccessor` and `Ids.CmrfFirst`.
- Ids.GenerateCmrfId: the previous identifier is searched for with the district code as literal text. The service puts the code unescaped into `new RegExp`, so a `.` in it matches any character and an unbalanced `(` or `[` throws a SyntaxError, answered 500.
- Ids.GenerateEducationId: the contract states only the prefix. The sequence is stated by `Ids.EducationSuccessor`.
- Ids.GenerateEducationId: the district code is matched as literal text, not as the unescaped regular expression the service builds (a `.` matches any character; an unbalanced `(` or `[` throws, answered 500).
- Ids.GenerateTempleId: the contract states only the prefix. The sequence is stated by `Ids.TempleSuccessor`.
- Ids.GenerateTempleId: the district code is matched as literal text, not as the unescaped regular expression the service builds (a `.` matches any character; an unbalanced `(` or `[` throws, answered 500).
- Ids.GenerateDisputeId: the contract states only the prefix. Freshness is stated by `Ids.DisputeIdIsFresh`, which holds only while sequence numbers stay below one million.
- Ids.GenerateDisputeId: the district code is matched as literal text, not as the unescaped regular expression the service builds (a `.` matches any character; an unbalanced `(` or `[` throws, answered 500). `Ids.DisputeIdIsFresh` relies on the literal match.
- Ids.CodeOf: only ASCII a-z are upper-cased. JavaScript's full Unicode case mapping ("ß" becomes "SS", lengthening the code) and `substring` counting UTF-16 code units are not modelled.
- Json.JsString: a non-integral number renders as its floor, where JavaScript writes the decimal fraction out (`String(1.5)` is "1.5").
