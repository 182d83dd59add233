# Reservation booking demo — a Dafny model

This project models a small table-booking demo made of two parts.

A single-page client (`App.jsx`) shows the evening's time slots:
- The slots run every five minutes from 18:30 to 21:30.
- Each slot has eight seats. The submit handler refuses a party larger than the seats still free. It does not refuse a party below one, so the record can exceed eight (`Client.ZeroPartyPassesFullSlot`).
- The client keeps a local record of bookings for each slot and shows how many seats each slot has left.

The client's submit handler works in this order:
1. It checks the form: a non-blank name and an address matching the client's e-mail pattern.
2. It checks then that the party fits the seats still free.
3. It records the booking locally at once, before the server answers.
4. It posts the booking to the server.
5. It turns the server's answer into a success, warning or error status line.

A server (`index.js`) handles `POST /api/reserve`:
1. It validates the body. Name, address and slot must be present, the address must match the server's e-mail pattern, and the party size must be a finite number from 1 to 8.
2. If the body is invalid, it answers 400 and does nothing else.
3. Otherwise it appends a five-cell row to a spreadsheet, only when a sheet is configured.
4. It then sends a confirmation to the customer and a copy to the owner, only when a mail key is configured.
5. It answers 200 with `ok: true`.
6. Any exception along the way stops the remaining steps and gives a 500.

The modules follow the program:

| module | what it holds |
|---|---|
| `Text` | JavaScript's `trim`, and the decimal printing of non-negative integers |
| `Email` | the two address patterns, as predicates over the positions where the pattern matches |
| `Slots` | `pad`, `timeToString`, and the slot generator. The generator is an imperative method with its nested loop, proved against the arithmetic sequence of minutes it produces. |
| `Availability` | the booking record and `availableFor` |
| `Client` | the submit handler's gates and the component state as a `Reservations` class with its fields `bookings` and `status` |
| `Server` | `validateBooking` and the endpoint. The endpoint is modelled as a method that performs a planned sequence of external calls, each of which may raise. |
| `EndToEnd` | the two halves together, with concrete scenarios |

The slot ids the code generates are `${h}-${m}` with no padding, such as "19-5". The model keeps them unpadded, and `Slots.SlotIdInjective` shows that no two slots share a key.

How failures reach the customer:
- The client reads only the `ok` flag of whatever JSON comes back.
- A 400 and a 500 both show the warning "booking saved, mail not sent".
- The error status appears only when the request fails or the answer is not JSON, for example an HTML error page.
- A failure part-way through is a plain 500, and the steps already done stay done. If the append raises, no mail goes out. Whether the sheet kept the row is not known to the handler. If only the owner's copy raises, the row is written and the customer's confirmation has already gone out, yet the client says that the mail was not sent.
- An emptied party field passes both client gates as 0 and is recorded locally as one seat. The server refuses it with a 400, and the client shows the same warning that the booking was saved.

`EndToEnd.ServerOutcomeOnClient`, `EndToEnd.ScenarioLedgerDown`, `EndToEnd.ScenarioOwnerMailDown` and `EndToEnd.EmptyPartyKeptButRefused` state this.

## Model

| member | source | states |
|---|---|---|
| Text.TrimMiddle | App.jsx:84 | The result of `trim` is a contiguous middle part of the input, starting after the dropped leading characters, and everything before and after it is whitespace. |
| Text.TrimSpec | App.jsx:84 | `trim` never lengthens the string. A non-empty result has no whitespace at either end. The result is empty exactly when the input is all whitespace, and a string without whitespace is unchanged. |
| Text.Trim | App.jsx:84 | Definition of `trim`: leading whitespace is dropped, then trailing whitespace. `Text.TrimMiddle`, `Text.TrimSpec` and `Text.TrimIdempotent` give its contract. |
| Text.TrimIdempotent | App.jsx:98-99 | Trimming twice is trimming once. |
| Text.DecimalString | App.jsx:10 | `n.toString()` for a non-negative integer, also used for `${h}` and `${m}` in the slot key: at least one decimal digit, with a leading '0' only for 0. |
| Text.ParseDecimalString | App.jsx:22 | The decimal text `n.toString()` reads back as `n`. |
| Text.DecimalStringInjective | App.jsx:22 | Distinct numbers print differently. |
| Slots.PadStart | App.jsx:10 | Definition of `padStart` with a one-character fill: a string at least as long as the width is kept, and a shorter one gets fill characters in front up to the width. `Slots.PadTwoDigits` and `Slots.PadWide` give its contract for `pad`. |
| Slots.Pad | App.jsx:9-11 | Definition of `pad`: the decimal text, left-padded with '0' to width 2. `Slots.PadTwoDigits` and `Slots.PadWide` give its contract. |
| Slots.PadTwoDigits | App.jsx:9-11 | Below 100, `pad(n)` is exactly the two decimal digits of `n`. A single digit gets a leading "0". |
| Slots.PadWide | App.jsx:9-11 | From 10 on, `pad` is the plain decimal text: padding to width 2 never truncates. |
| Slots.TimeToString | App.jsx:13-15 | Definition of `timeToString`: `pad(h)`, ':', `pad(m)`. `Slots.TimeToStringShape` and `Slots.ReadTimeOfTimeToString` give its contract. |
| Slots.TimeToStringShape | App.jsx:13-15 | For hours and minutes below 100, `timeToString` gives five characters: two hour digits, ':' and two minute digits. |
| Slots.ReadTimeOfTimeToString | App.jsx:13-15 | The "HH:MM" text reads back as the same hour and minute. |
| Slots.SlotId | App.jsx:22 | Definition of the slot key: the unpadded hour, '-', the unpadded minute. `Slots.SlotIdInjective` gives its contract. |
| Slots.SlotIdInjective | App.jsx:22 | Distinct (hour, minute) pairs give distinct `${h}-${m}` keys. |
| Slots.StepsAt | App.jsx:21-27 | The k-th minute from `t` in steps of `interval` is `t + interval*k`, and it does not pass the end. |
| Slots.StepsLength | App.jsx:21-27 | When `n` steps from `t` fit before `end` and the next would pass it, the loop makes exactly `n` steps. |
| Slots.StepsIncreasing | App.jsx:21-27 | The stepped minutes strictly increase. |
| Slots.CatalogIdsDistinct | App.jsx:22 | Slots rendered from stepped minutes have pairwise distinct ids. |
| Slots.CatalogTimes | App.jsx:21-27 | Each rendered slot's time reads back as minute `t + interval*k`, and the times strictly increase. |
| Slots.GenSlotsFrom | App.jsx:17-30 | The nested loop (advance by the interval, then carry whole hours) emits one slot for each minute of the arithmetic sequence from the start to the end inclusive, in order. |
| Slots.WindowEnds | App.jsx:6-7 | 18:30 is minute 1110 with slot ("18:30", "18-30"). 21:30 is minute 1290 with slot ("21:30", "21-30"). |
| Slots.GenSlots | App.jsx:17-30 | `genSlots()` gives 37 slots. The first is ("18:30", "18-30") and the last is ("21:30", "21-30"). The k-th is the slot for minute 1110+5k, which never passes 21:30. All ids are distinct. |
| Availability.Taken | App.jsx:54 | Definition of the slot's bookings: the slot's list, or the empty list when the key is missing. |
| Availability.PartySize | App.jsx:55 | Definition of a booking's seats: a missing or zero size counts as one seat, and any other size as itself. |
| Availability.Occupied | App.jsx:55 | Definition of the `reduce` over the slot's list as a left fold, from 0. `Availability.OccupiedAppend` and `Availability.OccupiedAtLeastCount` give its contract. |
| Availability.AvailableFor | App.jsx:53-57 | When the recorded sizes add up to a non-negative number, the free seats are at most 8. They are 8 when the slot has no bookings. With at most 8 seats taken, free plus occupied is 8. An overfull slot has 0 free seats. |
| Availability.IsFull | App.jsx:149-150 | A slot shows as full exactly when at least 8 seats are taken. |
| Availability.OccupiedAppend | App.jsx:55 | Appending a booking adds its party size, where a missing or zero size counts 1. |
| Availability.OccupiedAtLeastCount | App.jsx:55 | With non-negative sizes each booking takes at least one seat. |
| Availability.CrowdedSlotIsFull | App.jsx:149-150 | With non-negative sizes, eight or more bookings make the slot full. |
| Email.ClientEmail | App.jsx:84 | Definition of the client pattern's match: some '@' and a later '.' cut the address into three non-empty runs of `[^@\s]`. `Email.ClientSplitRuns` relates it to the runs. |
| Email.ServerEmail | index.js:43 | Definition of the server pattern's match: some '@' and a later '.' cut the address into three non-empty runs of `\S`. `Email.ServerSplitRuns` relates it to the runs. |
| Email.ClientSplitRuns | App.jsx:84 | A client match at positions (i, j) is the same as three non-empty runs of `[^@\s]` around '@' and '.'. |
| Email.ServerSplitRuns | index.js:43 | A server match at positions (i, j) is the same as three non-empty runs of `\S` around '@' and '.'. |
| Email.ClientEmailHasNoSpace | App.jsx:84-99 | An address the client accepts has no whitespace, so `email.trim()` leaves it unchanged. |
| Email.ClientEmailSingleAt | App.jsx:84 | An address the client accepts has exactly one '@'. |
| Email.ClientEmailIsServerEmail | index.js:43 | Every address the client pattern accepts is accepted by the server pattern. |
| Email.ServerAcceptsDoubleAt | index.js:43 | The inclusion is strict: "a@b@c.d" passes the server and fails the client. |
| Email.NotAnEmail | index.js:43 | "not-an-email" fails both patterns. |
| Server.Truthy | index.js:42 | Definition of a truthy string field: present and non-empty. `Server.ValidationExamples` shows an empty name and a missing address refused. |
| Server.ValidateBooking | index.js:40-47 | Definition of `validateBooking`, with its checks in source order: a truthy name, address and slot, then the server pattern, then a finite party from 1 to 8. `Server.ValidationExamples` gives decided cases, and `EndToEnd.PassedSubmissionIsValidOnServer` relates it to the client's gates. |
| Server.ConfigFromEnv | index.js:10-12 | The owner address is never empty, because it falls back to the default. The mail and sheet switches are on exactly when their variables are set and non-empty. |
| Server.Executed | index.js:50-95 | The calls performed are a prefix of the calls planned. |
| Server.AnyRaisesAt | index.js:93-95 | Some step raises exactly when some position of the sequence holds a call that raises. |
| Server.ExecutedStopsAtFault | index.js:50-95 | If some planned call raises, execution ends with the first such call and nothing before it raised. Otherwise every planned call is made. |
| Server.LedgerRow | index.js:54 | Definition of the ledger row: timestamp, slot, name, address and party size. `Server.PlannedSteps` shows that it has five cells. |
| Server.CustomerMail | index.js:67-73 | Definition of the customer's confirmation: to the customer's address, from the owner, with subject "Potvrzení rezervace" and the slot. |
| Server.OwnerMail | index.js:76-81 | Definition of the owner's copy: to and from the owner, with subject "Nová rezervace:", the slot and the name. |
| Server.Planned | index.js:54-90 | Definition of the steps a valid request asks for: the append when a sheet is set, then the two mails when a mail key is set. `Server.PlannedSteps` gives its contract. |
| Server.Outcome | index.js:49-97 | Definition of the handler's result: 400 with no call for an invalid body. Otherwise the planned steps run up to the first that raises, with 500 if one raised and 200 if none did. `Server.OutcomeCases` and `Server.EffectOrder` give its contract. |
| Server.Reserve | index.js:49-97 | The handler's reply and its call trace are those of `Outcome`. |
| Server.OutcomeCases | index.js:49-97 | The reply is 400 iff validation fails, and then no call is made. It is 500 iff the body is valid and a performed call raised, and then that call is the last one made and no earlier call raised. It is 200 iff the body is valid and nothing raised, and then every planned call was made. The calls made are always a prefix of the plan. |
| Server.PlannedSteps | index.js:54-90 | For a valid body the plan holds the append only when a sheet is set, and the two mails only when the mail key is set. Its length is 1 per sheet plus 2 per mail key. The order is append, then customer mail, then owner mail, and the appended row has five cells. |
| Server.EffectOrder | index.js:56-85 | Over every fault pattern, the calls performed follow the order append, customer mail, owner mail. An append happens only with a sheet and a mail only with a key. With a sheet, the first call is the append of the ledger row to "Sheet1!A:E". |
| Server.MissingMailKeyStillOk | index.js:83-92 | Without a mail key a valid request (whose append, if any, does not raise) answers 200, having made at most the append. |
| Server.UnconfiguredFaultsIrrelevant | index.js:57-90 | Failures of services that are not configured do not change the reply or the calls made. |
| Server.ValidationExamples | index.js:40-47 | A fractional party of 2.5 is accepted, and so is "a@b@c.d" with 8 people. A party of 0, a party of 9, a non-finite party, an empty name, a missing address and "not-an-email" are each rejected. |
| Client.CheckSubmission | App.jsx:83-101 | The first gate refuses exactly a blank name or an address not matching the client pattern. The second refuses exactly a party larger than the free seats, and reports those seats. What passes is the slot's time and id with the trimmed name and address, and a party that fits. |
| Client.CapacityMessage | App.jsx:91 | Definition of the capacity refusal: "Ve vybraném slotu zbývá ", the free seats in decimal, then " míst.". `EndToEnd.ScenarioOverCapacity` evaluates it. |
| Client.Stored | App.jsx:107 | Definition of the locally stored record: the sent booking's fields with the given id and creation time, and the party size recorded as present. |
| Client.PassedFields | App.jsx:95-101 | A booking that passes has a non-empty name with no whitespace at either end. Its address is the typed one and matches the client pattern. |
| Client.WithBooking | App.jsx:104-109 | The optimistic update adds the slot's key if missing and appends the booking to that slot's list. Every other slot's list is unchanged. |
| Client.StatusForReply | App.jsx:113-124 | The status is success exactly for `ok: true`, warning exactly for a reply without `ok`, and error exactly when the request threw. It is never "loading". |
| Client.Reservations.constructor | App.jsx:36-47 | The record starts from the stored one, or from an empty one when none could be read. There is no status. |
| Client.Reservations.SubmitReservation | App.jsx:81-111 | With no slot selected nothing changes. A gate rejection sets the matching error status and leaves the record unchanged. A pass appends exactly the stored booking to its slot, shows "loading" and hands the booking on for sending. |
| Client.Reservations.ReceiveReply | App.jsx:113-124 | The status becomes the one for the reply, and the record is unchanged. |
| Client.Reservations.CloseModal | App.jsx:65-68 | The status is cleared, and the record is unchanged. |
| Client.SubmissionTakesSeats | App.jsx:89-109 | A passing party of at least one lowers the slot's free seats by exactly its size. No other slot's availability changes. |
| Client.SubmissionKeepsCapacity | App.jsx:89-109 | When no slot holds more than 8, a passing submission of at least one seat keeps it so. |
| Client.ZeroPartyPassesFullSlot | App.jsx:90-107 | A party of 0 passes the capacity gate on a full slot and then counts as one seat, making the slot hold 9. The form's number field has a minimum of 1 but is not required, so an emptied field submits this value. |
| EndToEnd.PassedSubmissionIsValidOnServer | index.js:40-47 | A booking the client lets through for a slot with a time, on a record with non-negative sizes, passes the server's validation exactly when its party is at least 1. |
| EndToEnd.ToServerBody | App.jsx:76 | Definition of the posted body: name, address and slot as present strings, and the party as the finite number `Number(people)`. |
| EndToEnd.ReplyOf | App.jsx:78-115 | Definition of what the client reads from the answer: only its `ok` flag, whatever the HTTP status. |
| EndToEnd.ServerOutcomeOnClient | App.jsx:113-119 | Only a 200 shows as success. A 400 and a 500 both show as the warning. |
| EndToEnd.SubmissionRoundTrip | App.jsx:113-124 | A passed submission with a party of at least 1 shows as success exactly when no performed server call raises, and then every planned call was made. One with a party below 1 gets a 400 with no call made, and shows the warning. |
| EndToEnd.EmptyPartyKeptButRefused | App.jsx:90-118 | A party of 0 with valid fields passes the client's gates, whatever the seats. It adds one seat to the local record. The server answers 400 and makes no call, and the client shows "booking saved, mail not sent". |
| EndToEnd.ScenarioOverCapacity | App.jsx:89-92 | With 5 seats taken, a party of 4 is refused with "Ve vybraném slotu zbývá 3 míst." |
| EndToEnd.ScenarioConfirmed | index.js:54-92 | A fully configured server with no failures answers 200 after three calls: a five-cell append, the customer mail "Potvrzení rezervace 18:30", then the owner copy. |
| EndToEnd.ScenarioBadEmail | index.js:52 | "not-an-email" gives 400 and makes no call. |
| EndToEnd.ScenarioNoMailKey | index.js:83-92 | Without a mail key, only the row is appended and the answer is 200. |
| EndToEnd.ScenarioLedgerDown | index.js:57-95 | A failing append gives 500, and no mail is sent. |
| EndToEnd.ScenarioOwnerMailDown | index.js:54-95 | When only the owner's copy raises, the append and the customer mail are performed, then the owner mail raises and the answer is 500. The client shows the warning. |

## Left out

- The React rendering, the slot grid's styling, `renderStatus`, `openSlot` and the form's change handlers are left out: they are presentation, not booking logic.
- The selected slot is a parameter of `SubmitReservation`, not a field. So `CloseModal` does not model clearing it.
- The 900 ms `setTimeout` before the modal closes is left out. `CloseModal` is the step it runs.
- Persistence in `localStorage`, and JSON encoding of the record, are left out. The constructor receives the record already read, or `None` when none could be read.
- `fetch` and the network are left out. The server's answer reaches the client as a `Reply` parameter.
- `Date.now()` and `new Date().toISOString()` are left out: the booking id, creation time and ledger timestamp are parameters.
- Express, CORS, body parsing, the environment plumbing, the startup warnings, the `/health` route and `listen` are left out. `ConfigFromEnv` models only the three values the endpoint reads.
- The SendGrid and Google Sheets clients are not modelled. Each external call is an abstract step that either returns or raises, chosen by a `Faults` parameter.
- Console logging is left out.
- The regular-expression engine is not modelled. Each pattern is a predicate on the positions of its '@' and '.'.
- JavaScript's coercion of `form.people` from the input's string is left out. The form carries an integer, and an emptied field is 0, which is what both `"" > free` and `Number("")` make of it. The server body carries the result of `Number(people)` as a finite real or as non-finite.
- The truthiness of non-string name, address and slot values is left out. These fields are strings that may be absent.
- Mail `text` and `html` bodies are left out. A mail keeps only its recipient, sender and subject.
- Server.LedgerRow: stores the party size as `Number(people)`, while the source stores the raw `people` field as it arrived.
- Client.WithBooking: models the update on values. The source pushes onto the previous state's list, which the shallow copy of the record shares.
- Concurrent submissions are left out: two tabs or users racing for the last seats, and React's batching of state updates.
- Slots.Pad: is defined for non-negative integers only, which is all that `timeToString` receives.
