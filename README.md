# Elmora: a Dafny model of the chat assistant and its stores

Elmora is an iOS companion app for older people. Its chat screen reads what
the user types, matches it against keyword tests and replies with canned
messages. Some replies end a flow; others are questions that open one
(quick options for shopping, outings, sleep, calls or medicine). Beside the
chat, the details screen keeps four lists in the device's key-value store:
nearby stores, outing plans, favourite contacts and medicines. It also
files a daily reminder for every medicine.

This project models that core in Dafny:

- `ChatModel` (`chat_model.dfy`) holds the chat message record, the sender
  roles and the nine message-type tags. A message created without an
  identifier draws a fresh one.
- `Classifier` (`classifier.dfy`) holds the ten keyword tests and the
  if/else chain of `processResponse`. The chain is written as a
  precedence list, and an input's branch is the first test that fires.
- `ChatViewModel` (`chat_view_model.dfy`) is the view model as a class.
  Its fields are the transcript, the selected store, the pending question
  (`lastAssistantMessageType`) and the notifications it asked for.
  `ProcessResponse` ties each turn to the pure function `Respond`, and one
  method per resolver handles a quick-option tap.
- `Helper` (`helper.dfy`) holds `formatTime`, with a reader
  `ParseDuration` that inverts it.
- `Stores`, `Contacts`, `Plans` and `Medicines` are the four managers. Each
  is a class over what the key-value store holds under its key
  (`Persistence.Slot`). `MedicineManager` also keeps the log of calls it
  made to the notification centre.
- `DetailsViewModel` (`details_view_model.dfy`) is the details screen's view
  model. It caches the four lists, saves, edits and deletes records, and
  loads the sample data.
- `SamplePrompts` (`sample_prompts.dfy`) proves which branch each of the six
  example prompts of the details screen takes.
- `Text` and `Wrappers` are support modules. `Text` models substring
  search, ASCII lower-casing and decimal numerals.

Two of the proved properties describe how the app behaves, not just its
contract:

- Deleting a medicine never withdraws its reminder.
- Two medicines with one name share a single reminder: the last one wins.

## Model

| member | source | states |
|---|---|---|
| ChatModel.MessageTypesPartitioned | Models/ChatModel.swift:39-52 | The five main-flow tags and the four helper tags are disjoint and together cover every tag. |
| ChatModel.SenderRolesAreTwo | Models/ChatModel.swift:34-37 | A message is from the user or the assistant, and the two roles differ. |
| ChatModel.WithId | Models/ChatModel.swift:25-31 | The message keeps the id, content, role and type the caller gave, and starts out not completed. |
| ChatModel.Fresh | Models/ChatModel.swift:17-23 | A message made from content alone is the id-taking initialiser applied to the next fresh identifier. |
| ChatModel.FreshIdsDiffer | Models/ChatModel.swift:18 | Messages made from different fresh identifiers never share an id, whatever they say. |
| ChatModel.Reveal | Models/ChatModel.swift:10-15 | Rewriting a message's visible text keeps its id, role, type and completion flag, and sets the content to the new text. |
| ChatModel.MarkCompleted | Models/ChatModel.swift:10-15 | Marking a message completed changes nothing but the flag. |
| Classifier.Rank | ViewModel/ChatViewModel.swift:23-74 | Each branch sits at exactly one position in the order the tests are tried. |
| Classifier.ClassifyIsFirstFiring | ViewModel/ChatViewModel.swift:23-74 | The branch chosen for an input is the one whose test fires while no earlier test does, in both directions. |
| Classifier.MedicineNeedsBoth | ViewModel/ChatViewModel.swift:135-137 | The medicine test holds exactly when the input contains both "medicine" and "today"; "medicines" and "today's" add nothing. |
| Classifier.MedicineWithoutToday | ViewModel/ChatViewModel.swift:33-45 | An input that mentions medicine without "today", and is no confirmation or closing, goes to the home check. |
| Classifier.MedicineBranch | ViewModel/ChatViewModel.swift:23-40 | The medicine list is shown exactly when neither the confirmation test nor the closing tests fire and the medicine test does. |
| Classifier.NoThanksIsNo | ViewModel/ChatViewModel.swift:107-109 | The "no" test is the bare substring "no"; "nope" adds nothing. |
| Classifier.NoSubstringCloses | ViewModel/ChatViewModel.swift:23-31 | Any input containing "no" but neither "yes" nor "sure" is answered as a closing, including "know" and "nothing". |
| Classifier.GroceryNeverShops | ViewModel/ChatViewModel.swift:41-50 | An input containing "grocery" is claimed before the shop branch is tried, and so never reaches it. |
| Text.Lower | ViewModel/ChatViewModel.swift:21 | Lower-casing keeps the length and maps each character on its own. |
| Text.ContainsIffOccurs | ViewModel/ChatViewModel.swift:103-141 | The substring test holds exactly when the keyword occurs at some position of the input. |
| ChatViewModel.ShopEtaTextNamesTheTime | ViewModel/ChatViewModel.swift:147-152 | Two different travel times never give the same store reply. |
| ChatViewModel.ConfirmationReplies | ViewModel/ChatViewModel.swift:229-244 | A confirmation says something exactly when the pending question is shopping, notification options or an outing, and then says one thing. |
| ChatViewModel.ConfirmationClearsPending | ViewModel/ChatViewModel.swift:229-244 | After a confirmation no question is pending; with nothing pending before, it says nothing. |
| ChatViewModel.PendingAfterTurn | ViewModel/ChatViewModel.swift:23-74 | Confirmations and closings clear the pending question; the greeting and the fallback keep it; medicine and each flow-opening branch set its own tag. |
| ChatViewModel.RepliesPerTurn | ViewModel/ChatViewModel.swift:23-74 | The medicine branch adds two messages, a confirmation at most one, and every other branch exactly one. |
| ChatViewModel.MedicineTurn | ViewModel/ChatViewModel.swift:33-40 | The medicine turn is a list message tagged medicine, then an untagged reassurance. |
| ChatViewModel.NeverPendsNotificationOptions | ViewModel/ChatViewModel.swift:23-74 | No typed turn makes notification options the pending question unless it already was. |
| ChatViewModel.Stamp | Models/ChatModel.swift:17-23 | Each reply becomes an assistant message with the next fresh identifier, in order. |
| ChatViewModel.ChatViewModel.constructor | ViewModel/ChatViewModel.swift:14-17 | A new chat has no messages, no selected store, no pending question and no notifications. |
| ChatViewModel.ChatViewModel.IdsUnique | Models/ChatModel.swift:17-18 | No two messages of the transcript share an identifier. |
| ChatViewModel.ChatViewModel.Append | ViewModel/ChatViewModel.swift:20 | Appending adds exactly one message, with a fresh identifier, at the end, and changes nothing else. |
| ChatViewModel.ChatViewModel.ProcessResponse | ViewModel/ChatViewModel.swift:19-75 | A turn appends the user's message, then the replies of the branch the lower-cased input selects, and leaves the pending question where that branch says. |
| ChatViewModel.ChatViewModel.Answer | ViewModel/ChatViewModel.swift:23-74 | Each branch appends its replies, in order, under fresh identifiers, and sets the pending question, as the turn semantics says. |
| ChatViewModel.ChatViewModel.AskAbout | ViewModel/ChatViewModel.swift:41-65 | A flow-opening question makes its tag pending and appends the question under that tag. |
| ChatViewModel.ChatViewModel.ShowMedicineList | ViewModel/ChatViewModel.swift:33-40 | The medicine branch appends the list and the reassurance and makes medicine the pending question. |
| ChatViewModel.ChatViewModel.Say | ViewModel/ChatViewModel.swift:66-74 | The greeting and the fallback append one reply and leave the pending question alone. |
| ChatViewModel.ChatViewModel.HandleGoingToShopResponse | ViewModel/ChatViewModel.swift:147-152 | Picking a store remembers it and appends its travel time, offering notification options. |
| ChatViewModel.ChatViewModel.HandlePantryCheck | ViewModel/ChatViewModel.swift:154-166 | Having the item closes the flow; not having it asks where to shop and makes shopping the pending question. |
| ChatViewModel.ChatViewModel.HandleOutingPlanSuggestionCheck | ViewModel/ChatViewModel.swift:168-177 | Wanting a plan offers the plan options and makes choosing one pending; declining closes the flow. |
| ChatViewModel.ChatViewModel.HandleSleep | ViewModel/ChatViewModel.swift:179-202 | Each of the three answers gets its own reply: an alarm at an unusual time asks for a wake-up notification seven hours ahead, one at the usual time asks for one at seven o'clock, and no alarm asks for nothing. All three clear the pending question. |
| ChatViewModel.ChatViewModel.HandleCalling | ViewModel/ChatViewModel.swift:205-209 | Calling changes nothing in the chat: it may modify no field, so no message is added and the pending question and selected store stay as they were. The address handed to the system is "tel://" followed by the number, unchanged. |
| ChatViewModel.ChatViewModel.HandleNotificationOption | ViewModel/ChatViewModel.swift:211-227 | Accepting with a store picked asks for the arrival reminder, due once the trip should be over, and forgets the store. Declining keeps the store and asks for nothing. Neither touches the pending question. |
| ChatViewModel.ChatViewModel.HandleConfirmation | ViewModel/ChatViewModel.swift:229-244 | A confirmation appends the follow-up of the pending question, if it has one, and clears the question. |
| ChatViewModel.ChatViewModel.HandleThanks | ViewModel/ChatViewModel.swift:246-252 | A closing appends one acknowledgement and clears the pending question. |
| ChatViewModel.ChatViewModel.AskForPreferredStore | ViewModel/ChatViewModel.swift:254-258 | Appends the store question and keeps the pending question. |
| ChatViewModel.ChatViewModel.ConfirmReminderSetup | ViewModel/ChatViewModel.swift:260-264 | Appends the reminder confirmation and keeps the pending question. |
| ChatViewModel.ChatViewModel.CheckCalendarAndSuggestPlans | ViewModel/ChatViewModel.swift:266-271 | Offers the outing plans and makes choosing one the pending question. |
| Helper.FormatTimeRoundTrip | Extensions/Helper.swift:25-38 | Every duration, negative ones and whole hours included, can be read back exactly from its text. |
| Helper.FormatTimeInjective | Extensions/Helper.swift:25-38 | Two different durations never get the same text. |
| Helper.RoundTripBelowAnHour | Extensions/Helper.swift:26-27 | Durations under an hour, negative ones included, are written in minutes and read back exactly. |
| Helper.RoundTripNegative | Extensions/Helper.swift:26-27 | A negative duration is written as minus its size in "mins" and read back exactly. |
| Helper.RoundTripFewMinutes | Extensions/Helper.swift:26-27 | A duration of 0 to 59 minutes is written in minutes and read back exactly. |
| Helper.NegativeText | Extensions/Helper.swift:26-27 | A negative duration always takes the plural "mins". |
| Helper.RoundTripWholeHours | Extensions/Helper.swift:29-33 | A whole number of hours is written in hours alone and read back exactly. |
| Helper.RoundTripHoursAndMinutes | Extensions/Helper.swift:29-35 | Hours with leftover minutes are written as two parts and read back exactly. |
| Helper.FormatTimeShortExamples | Extensions/Helper.swift:25-33 | 1 minute, 5 minutes and 60 minutes read "1 min", "5 mins" and "1 hour". |
| Helper.FormatTimeMixedExample | Extensions/Helper.swift:35 | 65 minutes read "1 hour 5 mins". |
| Helper.FormatTimeMixedPluralExample | Extensions/Helper.swift:35 | 121 minutes read "2 hours 1 min". |
| Persistence.Without | ViewModel/Managers/StoreManager.swift:35-38 | The records kept after a delete are exactly those whose identifier differs from the given one, and no more than before. |
| Persistence.WithoutKeepsOrder | ViewModel/Managers/StoreManager.swift:36 | A delete keeps the remaining records in their stored order. |
| Persistence.WithoutCounts | ViewModel/Managers/StoreManager.swift:36 | A delete keeps every copy of other records and drops every copy of the matching ones. |
| Persistence.WithoutAppend | ViewModel/Managers/StoreManager.swift:36 | Deleting from two lists joined is deleting from each one. |
| Persistence.WithoutAbsent | ViewModel/Managers/StoreManager.swift:36 | Deleting an identifier that no record has leaves the list as it was. |
| Persistence.WithoutIdempotent | ViewModel/Managers/StoreManager.swift:36 | Deleting the same identifier twice is deleting it once. |
| Stores.StoreManager.constructor | ViewModel/Managers/StoreManager.swift:19 | The manager works on whatever is stored under "store_list". |
| Stores.StoreManager.GetStores | ViewModel/Managers/StoreManager.swift:27-33 | Reading gives the stored list, or nothing when the key is empty or its data does not decode. |
| Stores.StoreManager.SaveStores | ViewModel/Managers/StoreManager.swift:40-44 | Writing replaces what was stored, and reading back gives exactly the list written. |
| Stores.StoreManager.SaveStore | ViewModel/Managers/StoreManager.swift:21-25 | Saving appends the store after the stored list, even when its identifier is already there. |
| Stores.StoreManager.DeleteStore | ViewModel/Managers/StoreManager.swift:35-38 | Deleting drops the stores with the identifier and keeps the rest in order; an unknown identifier changes nothing. |
| Contacts.ContactManager.constructor | ViewModel/Managers/ContactManager.swift:18 | The manager works on whatever is stored under "contact_list". |
| Contacts.ContactManager.GetContacts | ViewModel/Managers/ContactManager.swift:26-32 | Reading gives the stored list, or nothing when the key is empty or its data does not decode. |
| Contacts.ContactManager.SaveContacts | ViewModel/Managers/ContactManager.swift:39-43 | Writing replaces what was stored, and reading back gives exactly the list written. |
| Contacts.ContactManager.SaveContact | ViewModel/Managers/ContactManager.swift:20-24 | Saving appends the contact after the stored list. |
| Contacts.ContactManager.DeleteContact | ViewModel/Managers/ContactManager.swift:34-37 | Deleting drops the contacts with the identifier and keeps the rest in order; an unknown identifier changes nothing. |
| Plans.PlanManager.constructor | ViewModel/Managers/PlanManager.swift:17 | The manager works on whatever is stored under "plan_list". |
| Plans.PlanManager.GetPlans | ViewModel/Managers/PlanManager.swift:25-31 | Reading gives the stored list, or nothing when the key is empty or its data does not decode. |
| Plans.PlanManager.SavePlans | ViewModel/Managers/PlanManager.swift:38-42 | Writing replaces what was stored, and reading back gives exactly the list written. |
| Plans.PlanManager.SavePlan | ViewModel/Managers/PlanManager.swift:19-23 | Saving appends the plan after the stored list. |
| Plans.PlanManager.DeletePlan | ViewModel/Managers/PlanManager.swift:33-36 | Deleting drops the plans with the identifier and keeps the rest in order; an unknown identifier changes nothing. |
| Medicines.SetupRequests | ViewModel/Managers/MedicineManager.swift:69-75 | Set-up makes two calls per medicine, in list order: a cancel of its name, then a schedule of it. |
| Medicines.CancelThenSchedule | ViewModel/Managers/MedicineManager.swift:61-66 | Cancelling a medicine's name and then scheduling it leaves exactly that medicine pending under the name. |
| Medicines.SetupKeepsLastPerName | ViewModel/Managers/MedicineManager.swift:69-75 | After set-up each name in the list has exactly one reminder pending, for the last medicine with that name; other names keep what they had. |
| Medicines.DeletedReminderStaysPending | ViewModel/Managers/MedicineManager.swift:39-42 | A deleted medicine's pending reminder survives the next set-up unchanged. |
| Medicines.MedicineManager.constructor | ViewModel/Managers/MedicineManager.swift:22 | The manager works on whatever is stored under "medicine_list" and has made no calls yet. |
| Medicines.MedicineManager.GetMedicines | ViewModel/Managers/MedicineManager.swift:31-37 | Reading gives the stored list, or nothing when the key is empty or its data does not decode. |
| Medicines.MedicineManager.SaveMedicines | ViewModel/Managers/MedicineManager.swift:44-48 | Writing replaces what was stored, and reading back gives exactly the list written. |
| Medicines.MedicineManager.SaveMedicine | ViewModel/Managers/MedicineManager.swift:24-29 | Saving appends the medicine, even under a name already stored, then schedules its reminder. |
| Medicines.MedicineManager.DeleteMedicine | ViewModel/Managers/MedicineManager.swift:39-42 | Deleting drops every medicine with the name, keeps the rest in order and makes no call to the notification centre. |
| Medicines.MedicineManager.ScheduleMedicineReminder | ViewModel/Managers/MedicineManager.swift:50-63 | Scheduling files the medicine's daily reminder under its name and leaves the stored list alone. |
| Medicines.MedicineManager.CancelMedicineReminder | ViewModel/Managers/MedicineManager.swift:65-67 | Cancelling withdraws what is pending under the name and leaves the stored list alone. |
| Medicines.MedicineManager.SetupNotifications | ViewModel/Managers/MedicineManager.swift:69-75 | Set-up re-files every stored medicine's reminder, in list order, and leaves the list alone. |
| DetailsViewModel.SavedRecordIsLast | ViewModel/DetailsViewModel.swift:47-54 | A saved record ends up last; after an edit no other record keeps the edited identifier and every other record survives; a plain save only appends. |
| DetailsViewModel.DummyStores | ViewModel/DetailsViewModel.swift:118-124 | There are five sample stores, taking the first five fresh identifiers. |
| DetailsViewModel.DummyPlans | ViewModel/DetailsViewModel.swift:125-131 | There are five sample plans, taking the next five identifiers. |
| DetailsViewModel.DummyContacts | ViewModel/DetailsViewModel.swift:132-138 | There are five sample contacts, taking the next five identifiers. |
| DetailsViewModel.DummyMedicines | ViewModel/DetailsViewModel.swift:139-175 | There are five sample medicines. |
| DetailsViewModel.DummyRemindersAllPending | ViewModel/DetailsViewModel.swift:139-175 | The five sample medicines have different names, so after set-up each has its own reminder pending. |
| DetailsViewModel.DetailsViewModel.constructor | ViewModel/DetailsViewModel.swift:34-37 | Starting reads all four lists into the caches and re-files every stored medicine's reminder. |
| DetailsViewModel.DetailsViewModel.FetchData | ViewModel/DetailsViewModel.swift:39-44 | Afterwards each cached list is exactly what its manager stores. |
| DetailsViewModel.DetailsViewModel.SaveMedicine | ViewModel/DetailsViewModel.swift:47-54 | An edit first drops the old record, then the medicine is appended and scheduled, the cache re-read and every reminder re-filed. |
| DetailsViewModel.DetailsViewModel.RemoveEditedMedicine | ViewModel/DetailsViewModel.swift:48-50 | When editing with an identifier, the old medicine goes, and no reminder call is made. |
| DetailsViewModel.DetailsViewModel.DeleteMedicine | ViewModel/DetailsViewModel.swift:56-61 | Without an identifier nothing changes; with one, the medicine goes, the cache is re-read and the reminders are re-filed. |
| DetailsViewModel.DetailsViewModel.SavePlan | ViewModel/DetailsViewModel.swift:64-70 | An edit replaces the plan by moving it to the end; a new plan is appended; the cache follows. |
| DetailsViewModel.DetailsViewModel.DeletePlan | ViewModel/DetailsViewModel.swift:72-76 | Without an identifier nothing changes; with one, the plan goes and the cache follows. |
| DetailsViewModel.DetailsViewModel.SaveStore | ViewModel/DetailsViewModel.swift:79-85 | An edit replaces the store by moving it to the end; a new store is appended; the cache follows. |
| DetailsViewModel.DetailsViewModel.DeleteStore | ViewModel/DetailsViewModel.swift:87-91 | Without an identifier nothing changes; with one, the store goes and the cache follows. |
| DetailsViewModel.DetailsViewModel.SaveContact | ViewModel/DetailsViewModel.swift:94-100 | An edit replaces the contact by moving it to the end; a new contact is appended; the cache follows. |
| DetailsViewModel.DetailsViewModel.DeleteContact | ViewModel/DetailsViewModel.swift:102-106 | Without an identifier nothing changes; with one, the contact goes and the cache follows. |
| DetailsViewModel.DetailsViewModel.IsDummyDataNeeded | ViewModel/DetailsViewModel.swift:113-115 | Sample data is offered exactly when all four cached lists are empty. |
| DetailsViewModel.DetailsViewModel.SaveDummyData | ViewModel/DetailsViewModel.swift:117-181 | The caches and the four stored lists become the sample data, overwriting what was there; no reminder is filed. |
| DetailsViewModel.DetailsViewModel.LoadDummyData | ViewModel/DetailsViewModel.swift:118-175 | The four caches become the sample records. |
| DetailsViewModel.DetailsViewModel.PersistCaches | ViewModel/DetailsViewModel.swift:176-179 | Each manager stores exactly its cached list. |
| SamplePrompts.TestPromptsClassify | ViewModel/DetailsViewModel.swift:18-25 | The six example prompts go, in order, to the home check, the call, the outing, the medicine list, the shop and the sleep branches. |

## Left out

- The typing animation (`startTypingAnimation`, ViewModel/ChatViewModel.swift:77-97) is timer-driven and asynchronous. Only the field updates it makes are modelled (`Reveal`, `MarkCompleted`), and new messages are appended fully written.
- Scheduling with the system notification centre is modelled as a log of requests: permission prompts, titles, subtitles, sounds and triggers are not (Extensions/Helper.swift:54-87, ViewModel/Managers/MedicineManager.swift:50-67). A medicine reminder is the medicine filed under its name.
- Calendar arithmetic is not modelled, and the optional dates the source unwraps are taken to exist, including the forced unwrap in the sample medicines.
- A notification's due time (`FireTime`): a delay (`HoursFromNow`, `MinutesFromNow`) is counted from the moment the notification is asked for. `AtClock`, which `HandleSleep` logs for the usual-time alarm, records only the clock components the source builds (hour 7, minute 0, ViewModel/ChatViewModel.swift:192). It does not record the date those components resolve to, which has no year, month or day and so is plausibly already past when the trigger matches it (Extensions/Helper.swift:71-73).
- A medicine's `time` is an absolute moment in seconds; the sample medicines are set at `AtTimeOfDay(today, hour, minute)`, the start of the day plus the time of day. The daily reminder's matching on hour and minute alone is not modelled.
- `getTimeAfterSevenHours` (Extensions/Helper.swift:40-52) formats the clock; its result is the `wakeTime` parameter of `HandleSleep`.
- `getChatRecommendation` (Extensions/Helper.swift:13-23) picks a random prompt and is not modelled.
- `HandleCalling` gives the address it would dial. Whether the device can open it, and the opening itself, are not modelled.
- The key-value store and JSON coding are one `Slot` per key: missing, undecodable, or holding a list. Encoding is taken never to fail, whereas the source silently keeps the old data when it does.
- `UUID().uuidString` is a serial counter for chat messages. For the sample records, identifiers come from an injective function parameter. Records saved from the screens carry their identifiers as given.
- Lower-casing is ASCII only; the Unicode case mapping of `lowercased()` is not modelled.
- `Text.Contains` matches code point by code point, not by grapheme cluster as Swift's `String.contains(_:)` does. So "no" followed by a combining accent contains "no" in the model but not in Swift, and the closing test fires on it only in the model.
- The SwiftUI views, including their empty-input guard and their clearing of the transcript, are not modelled. Nor are the `@Observable` change tracking or the `static let shared` instance.
- Swift's `Int` is 64-bit; durations and times here are unbounded integers, since no modelled operation comes near the limit.
- `Helper.ParseDuration` has no counterpart in the source; it exists to state that `formatTime` loses no information.

Behaviour of the code a reader might not expect, which the model keeps:

- The greeting and the fallback leave the pending question as it was; they do not clear it.
- Declining the arrival reminder keeps the selected store.
- All three sleep answers clear the pending question.
- The quick-option handlers never check which question is pending.
- Nothing typed ever makes notification options the pending question, so the confirmation's notification-options follow-up is reached only if it was already pending.
