# MuziatikBot state core in Dafny

This project models the parts of the MuziatikBot Telegram bot that keep state, and proves what they do:

- **The record store (db.py).** This is a PostgreSQL `users` table keyed by the unique Telegram id `tg_id`. Its reserved columns are `name`, `beta`, `voice_time` and `voice_counter`. Beside it is a `memory` table of free-form rows, whose ids come from one SMALLSERIAL sequence shared by all users. `remember`, `recall`, `forget` and `forget_name` are pure functions on a `Tables` value. The class `Db` holds the tables as fields, and each of its methods is proved to agree with the function for its operation. `recall`'s two append loops are `while` loops with invariants.
- **The JSON store (memory.py).** `storage.json` is a map from user-id strings to per-user maps of fields. The class `JsonStorage` holds the file contents: missing, invalid, or an object.
- **The beta handlers (beta_bot.py):**
  - the per-user `keyboard_input` mode, set by `set_name`, `memory` and `feedback` and consumed by `everything`;
  - the weekly quota of ten free voice transcriptions, with the Stars invoice once it is used up;
  - the payload parsing and refund decisions of `successful_payment_handler`.

  The class `BetaBot` holds the mode map and runs each handler against a `Db`.
- **The router (bot.py).** `_select_module` and `_dispatch` pick the beta or stable handler from the user's `beta` column, falling back when a module lacks the handler. The `beta` and `stable` buttons write that column.
- **The legacy bot (MuziatikBot.py):**
  - the module globals `is_`, `who`, `what_remind`, `when_remind`, `guest` and `who_will_go_house`, kept as fields of the class `Legacy`;
  - the order in which the dispatcher tries the message handlers;
  - the fixed-position parse of a reminder time written `дд.мм ЧЧ:ММ`.

Python and PostgreSQL behaviour that the code relies on is written out in `PyText`:
- truthiness;
- `str(int)`, `int(str)` and PostgreSQL's smallint text input;
- `str.strip` and `str.lower`;
- negative-index slicing;
- `str.split(":", 1)`.

Behaviours of the code that are modelled as written:
- Every `remember` takes a value from the users sequence, even when the user's row already exists. This is because `INSERT … ON CONFLICT DO NOTHING` computes the default first. Once the sequence passes 32767, `remember` raises. That first INSERT is committed before the second statement runs.
- `recall` replaces every falsy result (NULL, 0, '', an empty list) with the one-element sentinel list `['Нет элементов в памяти😔']`. A memory row with NULL data makes the `"id: data"` concatenation raise, and `recall` then returns `None`. Such a row is created when a message without text arrives in the remember mode.
- `save_data` looks up the user's old entry with the int id, but the stored keys are strings. So the entry is always replaced by `{field: value}`.
- In the name mode, `everything` calls `remember(uid, text, field=True)`. `True` is not a reserved field, so the text becomes a memory row and the name stays as it was.
- In the forget mode with no memories, `recall(uid, 'id')` is the sentinel list. Typing the sentinel text therefore passes the key check, and the DELETE raises because PostgreSQL cannot read that text as a smallint.
- A stored `voice_time` of 0 reads back as the sentinel, so the window is re-initialised.
- The month of a reminder is `int(text[4])`, only the second digit of `мм`. The format hint's own example "31.08 23:59" is read correctly as month 8, but a December time such as "31.12 23:59" is read as month 2.
- The `[дД][Аа]` filter of `go_house` is registered before `just_text`, so a text starting with "да" is never forwarded as legacy feedback. It flips `guest` instead.

## Model

| member | source | states |
|---|---|---|
| RecordStore.RememberKeepsValid | db.py:30-61 | remember keeps the schema constraints: users rows keep distinct ids below the users sequence, and memory ids stay increasing and below their sequence |
| RecordStore.ForgetKeepsValid | db.py:99-116 | forget keeps the same schema constraints |
| RecordStore.RememberEnsuresUserRow | db.py:34-40 | a remember that does not raise leaves exactly one users row for the user (existing rows keep their id), changes no other user's row, and consumes one users-sequence value |
| RecordStore.RememberNeverDuplicatesUsers | db.py:34-40 | two remember calls for the same user add at most that one users row |
| RecordStore.RememberReservedThenRecall | db.py:41-47 | a remember of name, beta, voice_time or voice_counter overwrites only that column, leaves the memory table alone, and recall of the field gives the value back (the sentinel for a falsy value) |
| RecordStore.RememberOtherAppends | db.py:48-58 | a remember of any other field (None, True, any other string) appends one row with the next global id, the user's id and the value as TEXT; earlier rows are kept |
| RecordStore.RememberTwiceTwoRows | db.py:48-58 | the same value remembered twice gives two rows of the same owner with equal data and distinct ids (no duplicate check) |
| RecordStore.RecallReservedAbsentUser | db.py:69-75 | a reserved field of a user without a row reads as None, hence the sentinel |
| RecordStore.RecallFalsyIsSentinel | db.py:91-93 | recall returns the sentinel list exactly when the raw result is falsy, and never returns a falsy value |
| RecordStore.RecallIds | db.py:77-86 | recall(uid, 'id') never fails; it lists exactly the decimal ids of the user's own rows, or the sentinel when there are none |
| RecordStore.RecallData | db.py:76-96 | recall with another non-reserved field fails (None) exactly when one of the user's rows has NULL data; otherwise it lists exactly the "id: data" strings of the user's rows |
| RecordStore.ForgetAll | db.py:102-106 | forget without an id never raises, removes every memory row of the user and no other row, and leaves the users table (the name included) untouched |
| RecordStore.ForgetAllThenRecall | db.py:99-106 | after forget without an id, recall(uid, 'id') is the sentinel and the name reads as before |
| RecordStore.ForgetOne | db.py:107-113 | forget with an id removes only the user's row with that id and keeps every other row, at most one row disappearing |
| RecordStore.ForgetZeroDeletesAll | db.py:102 | an id of 0 or '' is falsy, so it deletes all of the user's rows |
| RecordStore.ForgetBadIdRaises | db.py:108-113 | a text id that PostgreSQL cannot read as a smallint makes forget raise and change nothing |
| RecordStore.ForgetNameClearsName | db.py:119-128 | forget_name sets the name to NULL (recall gives the sentinel) and changes no other column or memory row |
| RecordStore.Db.Remember | db.py:30-61 | the method's new tables and raised flag are those of RememberStep, and the schema constraints hold |
| RecordStore.Db.Recall | db.py:66-96 | the method returns RecallOf of the current tables |
| RecordStore.Db.ListIds | db.py:84-86 | the append loop builds the decimal ids of the selected rows in order |
| RecordStore.Db.ListData | db.py:87-89 | the append loop builds the "id: data" strings, or stops with None at the first NULL data |
| RecordStore.Db.Forget | db.py:99-116 | the method's new tables and raised flag are those of ForgetStep, and the schema constraints hold |
| RecordStore.Db.ForgetName | db.py:119-128 | the method's new tables are those of ForgetNameStep |
| JsonStore.SaveThenGet | memory.py:31-36 | after save_data(u, f, v), get_data(u, f) is v |
| JsonStore.SaveReplacesEntry | memory.py:31-33 | the user's entry becomes exactly {f: v}, so every other field of that user reads as None |
| JsonStore.SaveKeepsOtherUsers | memory.py:31-33 | whatever the file held (missing, invalid or an object), save_data changes no other user's fields |
| JsonStore.SaveOnUnreadable | memory.py:22-29 | a missing or invalid file is replaced by a structure holding only the new field |
| JsonStore.GetUnreadable | memory.py:52-57 | get_data of a missing or invalid file is None |
| JsonStore.DeleteField | memory.py:70-72 | delete_data(u, f) removes f from u's entry and keeps every other field of u |
| JsonStore.DeleteUser | memory.py:73-74 | delete_data without a field (or with an empty one) removes u's whole entry |
| JsonStore.DeleteNoEffect | memory.py:66-78 | an unknown user, a missing file or invalid JSON leaves the store unchanged |
| JsonStore.DeleteKeepsOtherUsers | memory.py:70-74 | delete_data never changes another user's fields |
| JsonStore.JsonStorage.SaveData | memory.py:7-36 | the new file is Saved of the old one |
| JsonStore.JsonStorage.GetData | memory.py:39-57 | the result is Lookup of the file |
| JsonStore.JsonStorage.DeleteData | memory.py:60-78 | the new file is Deleted of the old one |
| BetaBot.NoModeNoEffect | beta_bot.py:478-480 | with no pending mode, everything changes nothing and sends the keyboard hint |
| BetaBot.ModeUsedOnce | beta_bot.py:446-477 | the user's mode is removed unless the handler raised before its del (in the forget mode it is removed before anything can raise); no other user's mode changes |
| BetaBot.NameModeStoresAMemory | beta_bot.py:447-451 | in the name mode the text is appended as a memory row (field=True is not reserved), the reply shows the unchanged name, and the mode is cleared |
| BetaBot.FeedbackForwards | beta_bot.py:452-459 | after feedback, the next message that reaches `everything` (the catch-all, registered last at bot.py:171) is forwarded to MY_CHAT_ID and the mode is cleared; nothing is stored |
| BetaBot.RememberModeAppends | beta_bot.py:460-465 | after the remember button, the next text is appended as one new row of the user and the mode is cleared |
| BetaBot.ForgetModeAll | beta_bot.py:466-472 | 'все'/'всё' in any letter case deletes all of the user's rows and no users row |
| BetaBot.ForgetModeUnknownKey | beta_bot.py:473-475 | a text that is none of the user's ids and not the all-word deletes nothing and answers 'Такого ключа нет'; with no memories that holds for every text other than the sentinel |
| BetaBot.ForgetModeKnownKey | beta_bot.py:473-477 | one of the user's listed ids deletes exactly that row, leaves the users table alone and answers with the key |
| BetaBot.ForgetModeSentinelRaises | beta_bot.py:473-476 | with no memories, typing the sentinel text passes the key check and forget raises, changing nothing |
| BetaBot.ForgetModeNoText | beta_bot.py:466-469 | a message without text in the forget mode raises on lower(), after the mode is removed |
| BetaBot.ButtonsSetMode | beta_bot.py:165-197 | the remember, forget and typed-name buttons set the user's mode (overwriting any earlier one) and change no table; recall lists without changing the mode |
| BetaBot.NameButtonsStoreName | beta_bot.py:165-172 | the full-name and username buttons store the name column at once, leave the memory table and the modes alone, and recall of the name gives it back (the sentinel when it is empty or unset) |
| BetaBot.WindowStartSpec | beta_bot.py:246-249 | a voice_time that is not an int is initialised to now and stored; a stored one is kept |
| BetaBot.ExpireWindowSpec | beta_bot.py:252-255 | a week after the window start, the counter is reset to 0 and the start to now; otherwise nothing changes |
| BetaBot.UsedCountSpec | beta_bot.py:257-260 | a counter that is not an int reads as 0 and is stored; the window is unchanged |
| BetaBot.PreparedSpec | beta_bot.py:245-260 | the three stages never raise while the users sequence has room; the counter read is the count of the current week, the window restarts at now when unset or a week old; no memory row, no other user's row, and neither the user's name nor beta flag changes |
| BetaBot.VoiceQuota | beta_bot.py:229-295 | an invoice is sent exactly when ten uses are spent this week (5 Stars, 1 for the owner, payload prefix plus the file id); a recognised message under the limit is transcribed and counted once; every other outcome leaves the count as it was; the window restarts at now when unset or a week old; nothing changes but the user's voice_time and voice_counter (no memory row, no other user's row, not the name or beta flag) |
| BetaBot.CounterWrite | beta_bot.py:290 | the increment sets the count read next time and leaves the window, the other columns, the other users' rows and the memory table alone |
| BetaBot.VoicePayloadFileId | beta_bot.py:396-399 | for a voice payload, the file id is the stripped text after the prefix, and an empty one means a refund |
| BetaBot.InvoicePayloadRoundTrip | beta_bot.py:391-399 | the payload of the quota invoice (beta_bot.py:267) parses back to the same file id |
| BetaBot.PlanShape | beta_bot.py:391-399 | PaymentPlanOf, the payload test of successful_payment_handler: only payloads with the voice prefix lead to a transcription or a refund; only "donate" is thanked |
| BetaBot.PaymentRefunds | beta_bot.py:367-443 | PaymentReply, successful_payment_handler with refund_and_notify as RefundResultOf: a refund notice is sent exactly for a voice payload without a file id (reason NoFileId) or with a failed transcription; 'donate' alone is thanked; a paid transcript carries the recognised text; the refund is Refunded exactly with a non-empty charge id and a successful refund call, and NoChargeId exactly without one |
| BetaBot.BetaBot.SetName | beta_bot.py:165-177 | the mode map, tables and reply are those of SetNameStep |
| BetaBot.BetaBot.Memory | beta_bot.py:180-197 | the mode map and reply are those of MemoryStep |
| BetaBot.BetaBot.Feedback | beta_bot.py:222-226 | the mode map is that of FeedbackStep |
| BetaBot.BetaBot.Everything | beta_bot.py:446-480 | the mode map, tables and reply are those of EverythingStep |
| BetaBot.BetaBot.ForgetText | beta_bot.py:470-477 | the tables and reply of the forget branch are those of ForgetInput |
| BetaBot.BetaBot.StartWindow | beta_bot.py:246-249 | the tables and start are those of WindowStart |
| BetaBot.BetaBot.RestartExpired | beta_bot.py:252-255 | the tables and start are those of ExpireWindow |
| BetaBot.BetaBot.ReadCounter | beta_bot.py:257-260 | the tables and counter are those of UsedCount |
| BetaBot.BetaBot.Prepare | beta_bot.py:245-260 | the tables and counter are those of Prepared |
| BetaBot.BetaBot.VoiceToText | beta_bot.py:229-295 | the tables and reply are those of VoiceStep |
| Router.SelectBetaIff | bot.py:18-23 | beta is selected exactly when the database is reachable and the user's beta column is the string 'True' |
| Router.DispatchPrefersSelected | bot.py:27-30 | the selected module's handler is used whenever it exists |
| Router.DispatchFallback | bot.py:31-35 | otherwise beta_bot's handler is used, then stable_bot's, and the lookup fails only when neither has it |
| Router.EveryHandlerResolves | bot.py:56-173 | every name bot.py dispatches resolves, since beta_bot defines them all |
| Router.SelectionFollowsChoice | bot.py:149-158 | after the beta or stable button the next selection follows that choice, and no other user's selection changes |
| Router.BetaButton | bot.py:149-152 | the new tables are PreferenceStep with 'True' |
| Router.StableButton | bot.py:155-158 | the new tables are PreferenceStep with 'False' |
| LegacyBot.HomeRecordsRequester | MuziatikBot.py:128-135 | home records the requester's chat in who_will_go_house and changes nothing else |
| LegacyBot.GoHouseToggles | MuziatikBot.py:158-169 | go_house flips guest and announces entering exactly when the new value is true; two calls restore the state |
| LegacyBot.FeedbackIsSticky | MuziatikBot.py:254-263 | in feedback mode every text that reaches `just_text` is forwarded, and `just_text` never leaves the mode (earlier handlers and `what` are outside this statement) |
| LegacyBot.YesIsNeverForwarded | MuziatikBot.py:106-251 | a text starting with да/Да (Cyrillic) is taken by go_house before just_text, so it is never forwarded and it flips guest |
| LegacyBot.OtherTextsReachJustText | MuziatikBot.py:106-251 | any text other than the button texts, and any message without text, reaches just_text |
| LegacyBot.WhatPicksRecipient | MuziatikBot.py:223-243 | what sets reminder mode and takes who from the environment variable of the pressed button; nothing else changes |
| LegacyBot.ReminderStoresSubject | MuziatikBot.py:264-281 | in reminder mode a text not starting with a digit becomes what_remind |
| LegacyBot.DigitTextSetsTime | MuziatikBot.py:282-310 | outside feedback mode a digit-first text sets when_remind to its parse, or raises and changes nothing when the parse fails |
| LegacyBot.OtherTextIsAnError | MuziatikBot.py:311-312 | without a mode any other text gets the error reply; a message without text raises |
| LegacyBot.ParseOfFormat | MuziatikBot.py:290-299 | a text in the дд.мм ЧЧ:ММ format parses to its day, hour and minute, but to the second digit of the month |
| LegacyBot.HintExampleReadAsAugust | MuziatikBot.py:270-274 | the example of the format hint, "31.08 23:59", is read as month 8, day 31, 23:59 |
| LegacyBot.DecemberReadAsFebruary | MuziatikBot.py:290 | a December time such as "31.12 23:59" is read as month 2, because only `text[4]` is read |
| LegacyBot.MonthIsOneDigit | MuziatikBot.py:290 | every parsed month is between 0 and 9 |
| LegacyBot.Legacy.Home | MuziatikBot.py:128-135 | the new globals and reply are those of HomeStep |
| LegacyBot.Legacy.GoHouse | MuziatikBot.py:158-194 | the new globals and reply are those of GoHouseStep |
| LegacyBot.Legacy.Feedback | MuziatikBot.py:197-207 | the new globals are those of FeedbackStep |
| LegacyBot.Legacy.What | MuziatikBot.py:223-243 | the new globals are those of WhatStep |
| LegacyBot.Legacy.JustText | MuziatikBot.py:250-312 | the new globals and reply are those of JustTextStep |
| LegacyBot.Legacy.HandleMessage | MuziatikBot.py:106-312 | the handler chosen by Route runs, and the new globals and reply are those of HandleText |

## Left out

- Telegram transport is not modelled: replies, edits, stickers, typing indicators, keyboards, `asyncio.sleep` and polling. Every send is assumed to succeed. The only exception is a send to an unset `who_will_go_house`, which raises after `guest` has flipped.
- Downloading, converting and recognising speech, and deleting temporary files, are foreign libraries and the filesystem. They become the outcome parameter `Transcription`: recognised text, not recognised, or an error.
- `refund_star_payment` is a network call. Its success is the `refundOk` parameter, and the charge id is a parameter. `pre_checkout_handler` is not modelled.
- Database connection failures are not modelled: `connect_db` raising, and the `except` path of `recall` for failures other than a NULL data row. The router's `reachable` parameter stands for one.
- `PgSmallint` follows PostgreSQL 15 and earlier: decimal digits with optional whitespace and sign. The 0x, 0o and 0b prefixes and the digit-group underscores that PostgreSQL 16 accepts in integer input are not modelled. Only ForgetBadIdRaises depends on this.
- Row order: the SELECTs have no ORDER BY. The model lists rows in insertion order.
- Column types: INTEGER range checks on the reserved columns, and any coercion when writing them, are not modelled. Values are stored as given.
- `int()` of a string (`PyInt`) is modelled for ASCII digits with optional surrounding whitespace and sign. Unicode decimal digits such as '٣' and digit-group underscores such as "1_0" are not modelled.
- `str.isdigit` is modelled for ASCII digits only. Unicode digits such as '²', which Python accepts there but `int()` rejects, are not modelled. `str.lower` is modelled for Latin and Cyrillic letters only.
- stable_bot.py is not part of this model. The set of handler names it defines is a parameter of `Dispatch`.
- Handler argument counts are not modelled. For example, bot.py calls beta_bot's `info(message)` with one argument, where beta_bot defines `info(message, bot)`.
- The `Command("start")` filter is the `isStart` parameter of `Route`. The callback handlers `what` and `may_go_house` are not part of the message routing.
- `error`'s and `reminder`'s replies, `my_name` and `cats` are modelled as replies without content.
- `may_go_house` is not modelled. It only sends messages and changes no global.
- In the legacy bot, the sends to MY_CHAT_ID are not modelled, nor the `year` read from the clock. The scheduler job at MuziatikBot.py:321-332 and `send_rm` are not modelled either.
- `create_feedback`, `get_feedback` and `delete_feedback` in db.py are not part of this model.
- `log_event` is not modelled. It only appends to a log file.
- JSON contents that are not an object, and IO errors on writing storage.json, are not modelled. Stored values are `PyText.Value`: None, an int or a string. JSON booleans, floats, lists and nested objects held in storage.json are not modelled.
- BetaBot.VoiceQuota is stated only while the users sequence has room for the handler's four writes. Past that point the model still defines the behaviour (every later remember raises) but proves nothing about it.
