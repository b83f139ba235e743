# Cashier reconciliation engine (Dafny model)

This project models the reconciliation and consumption engine of *cashier*, a
Telegram bot for a paragliding club. The bot does three things:

- it watches the bank account and reports each new transaction, with the
  membership type its amount suggests;
- it lets an operator pair a transaction with a membership for a pilot
  (`/pair <transaction id> <type> <pilot username>`);
- it watches the flights taken off from the club's site. For each new flight
  it consumes a valid membership of the pilot: a daily pass for that day or a
  yearly pass for that year. When the pilot has no such pass, it alerts the
  chat.

The repository holds two versions of the bot, and both are modelled:

- `cashier/telegram_bot/__init__.py` is module `LegacyBot` (`legacy_bot.dfy`).
  It works directly on three Mongo collections, `transactions`, `membership`
  and `flights`. Each collection is one field of the value `Store`: the two
  keyed by `id` are maps, and `membership` is a sequence in store order.
  The unique indices of `setup_mongo_indices` are the invariant
  `IndicesHold`. Each handler is a step function on `Store`, and the lemmas
  talk about those functions. Class `Database` holds the same collections as
  fields. Its methods carry out the handlers statement by statement, and
  each method is proved to end in the state its step function gives.
- `cashier/telegram_bot.py` is module `Bot` (`bot.dfy`). It works through
  storage objects whose code is not part of this model. The model sees them
  only through the bot's calls. `Services` holds the set of flight ids the
  flight storage has (the one piece of storage state the bot reads) and a
  log of every call made: storage calls and chat messages. Class `Cashier`
  holds the same two parts as fields.

Two more modules are shared:

- `Domain` (`domain.dfy`) holds the shared records.
- `PyStr` (`pystr.dfy`) models the Python string operations the command
  parser relies on (`strip`, `split(" ")`, `isnumeric`, `str(int)`).

The unseen collaborators are parameters of the operations that use them:

- `Membership.from_amount` and `Membership.Type.from_amount` are `fromAmount`.
- `Membership.from_str` and `Membership.Type.from_str` are `fromStr`.
- The list of type values is `values`; the `.value` of a type is `typeValue`.
- `Pilot.load_id` is `loadId`.
- `MembershipStorage.get_by_flight` is `getByFlight`.
- `MembershipStorage.create_membership` is `create`.

`fromAmount`, `fromStr`, `loadId` and `create` return a value or raise an
exception (`Outcome`, or `Option<Exception>` for `create`). The exceptions a
handler catches are handled as the source handles them; any other exception
is returned as `raised`. `getByFlight` is modelled as total: it returns a
membership or none and cannot raise (see "Left out"). The clock (`date.today()`) is the
parameter `today`.

Choices made in the model:

- Mongo's `find_one` is `FindOne`: it returns the first document in store
  order that the filter accepts. Without a sort, Mongo returns documents in
  its natural order, which it does not guarantee. The model assumes that
  order is insertion order, so when several memberships match a flight the
  earliest paired one is consumed.
- `used_for` is stored as a `Date` or a year, not as the ISO string.
  `isoformat` is injective on dates, so every comparison the query makes
  comes out the same.
- The notifications are rendered by `views`, a module outside this model.
  They are kept as structured `Message` values. `ReplyText` gives the exact
  text of the answers to `/pair`.
- The regular expression `CMD_PAIR_REGEX` is stated twice. `PairGrammar` is
  the language the pattern denotes, a ghost predicate with the pattern's
  three groups. `ScanPairArgs` is a left-to-right scanner. `ScanIsPairGrammar`
  proves that the two agree in both directions, provided the type values are
  non-empty words without whitespace.

Two behaviours of the source are worth stating plainly:

- In the legacy `pair`, a duplicate-key error from `insert_one` is not
  caught (`__init__.py` lines 107 and 117), so it would escape the handler
  rather than produce the conflict answer. The model runs handlers one at
  a time, so the race that would cause it does not arise.
- The legacy `pair` catches only `ValueError`, so an `aiohttp.ClientError`
  from `load_id` escapes the handler, unanswered and with nothing written
  (`PairLookupEscapes`). The newer `pair` catches `ClientError` too and
  answers with its message (`PairLookupFailureAnswered`).

## Model

| member | source | states |
|---|---|---|
| PyStr.Strip | cashier/telegram_bot/__init__.py:77 | `strip()` returns a string with no whitespace at either end |
| PyStr.IsSpace | cashier/telegram_bot/__init__.py:77 | defined by its body: the ASCII characters `str.isspace()` accepts; specified through `Strip`, `LStrip`, `RStrip` and `StripSurrounded` |
| PyStr.IsNumeric | cashier/telegram_bot/__init__.py:82 | defined by its body: `isnumeric()` is false on the empty string and true on a non-empty run of ASCII digits; used by `ParsePairMsg` and `NatToString` |
| PyStr.LStrip | cashier/telegram_bot/__init__.py:77 | the leading-whitespace half of `strip()`: the result is a suffix, everything cut off is whitespace, and the result does not start with whitespace |
| PyStr.RStrip | cashier/telegram_bot/__init__.py:77 | the trailing half of `strip()`: the result is a prefix, everything cut off is whitespace, and the result does not end with whitespace |
| PyStr.StripSurrounded | cashier/telegram_bot/__init__.py:77 | `strip()` removes exactly the surrounding whitespace: stripping `a + t + b` gives back `t` for blank `a`, `b` and trimmed `t` |
| PyStr.Split | cashier/telegram_bot/__init__.py:77 | `split(" ")` returns at least one piece and no piece contains a space |
| PyStr.SplitJoin | cashier/telegram_bot/__init__.py:77 | joining the pieces of `split(" ")` with single spaces gives the text back |
| PyStr.JoinSplit | cashier/telegram_bot/__init__.py:77 | splitting a space-joined list of space-free pieces gives the pieces back |
| PyStr.SplitLength | cashier/telegram_bot/__init__.py:77-79 | `len(text.split(" "))` is the number of spaces plus one, so the reported argument count is the number of spaces |
| PyStr.NatToString | cashier/telegram_bot/__init__.py:79 | `str(n)` of a count is a non-empty string of digits with no leading zero unless `n` is 0 |
| PyStr.NatToStringValue | cashier/telegram_bot/__init__.py:79 | the digits `str(n)` produces denote `n` |
| LegacyBot.ParsePairMsg | cashier/telegram_bot/__init__.py:74-98 | a text whose stripped form does not have exactly 3 spaces is refused with "Expected 3 arguments, got N", where N is the number of spaces, i.e. `len(parts) - 1`; a non-numeric id is refused with "Transaction ID must be numeric"; an accepted request carries the stripped id, the type `from_str` returned and the pilot `load_id` resolved; on a well-formed command, an exception from `from_str`, or else from `load_id`, is the outcome |
| LegacyBot.ParseParts | cashier/telegram_bot/__init__.py:78-98 | on the split pieces: anything but four pieces is refused with the count of arguments, a non-numeric id is refused, an accepted request carries the stripped pieces and the lookups' results, and an exception of `from_str`, or else of `load_id`, is the outcome |
| LegacyBot.ParsePairMsgAccepts | cashier/telegram_bot/__init__.py:77-98 | a text that strips to four space-free pieces joined by single spaces, with a numeric id and successful lookups, is accepted with the stripped pieces as its arguments |
| LegacyBot.ValidationPrecedesLookups | cashier/telegram_bot/__init__.py:77-85 | while the argument count or the numeric check fails, the outcome is an error and does not depend on `from_str` or `load_id`, so neither lookup has run |
| LegacyBot.TypePrecedesPilot | cashier/telegram_bot/__init__.py:85-95 | when `from_str` raises, its exception is the outcome, whatever `load_id` would do |
| LegacyBot.FindOne | cashier/telegram_bot/__init__.py:111 | `find_one` returns the first document the filter accepts, and returns nothing exactly when no document is accepted |
| LegacyBot.FindByTransaction | cashier/telegram_bot/__init__.py:111 | the lookup by `transaction_id` finds a membership with that id, and finds none exactly when none exists |
| LegacyBot.FindMatch | cashier/telegram_bot/__init__.py:166-173 | the flight's membership query returns the first membership that matches (same pilot, and daily used for that date, yearly used for that year, or unused), and returns nothing exactly when none matches |
| LegacyBot.Matches | cashier/telegram_bot/__init__.py:166-173 | defined by its body: the query's filter, the flight's pilot and a daily pass used on the flight's date, a yearly pass used in its year, or an unused pass; specified by `FindMatch` and `ConsumedPassPeriod` |
| LegacyBot.Consume | cashier/telegram_bot/__init__.py:181-186 | defined by its body: a yearly pass gets the flight's year, a daily pass its date, another type nothing; specified by `ConsumedPassPeriod` and `ConsumeIdempotent` |
| LegacyBot.IndicesHold | cashier/telegram_bot/__init__.py:247-252 | defined by its body: the three unique indices; kept by `PairPreservesIndices`, `ProcessTransactionEffects`, `ProcessFlightMarks` and `Database.Valid` |
| LegacyBot.ConsumedPassPeriod | cashier/telegram_bot/__init__.py:166-186 | once consumed, a daily pass matches exactly its pilot's flights on that date, and a yearly pass exactly its pilot's flights in that year: never reused outside its period |
| LegacyBot.ConsumeIdempotent | cashier/telegram_bot/__init__.py:182-186 | applying the consuming update again changes nothing, and a pass still matches the flight that consumed it |
| LegacyBot.ProcessTransactionStep | cashier/telegram_bot/__init__.py:60-71 | defined by its body; specified by `ProcessTransactionEffects` and `ProcessTransactionTwice`, and `Database.ProcessTransaction` ends in its state |
| LegacyBot.ProcessTransactionEffects | cashier/telegram_bot/__init__.py:60-71 | the transaction is stored whatever the classifier does, and an existing record under that id stays; an unknown amount (`ValueError`) gives one notification with no suggestion; a classified amount gives one notification carrying the transaction and the classifier's type; any other exception of the classifier escapes, after the transaction is stored and with nothing sent; one notification is sent exactly when nothing escapes; memberships, flights and the indices are preserved |
| LegacyBot.ProcessTransactionTwice | cashier/telegram_bot/__init__.py:60-71 | delivering the same transaction twice leaves the collections as one delivery does |
| LegacyBot.PairStep | cashier/telegram_bot/__init__.py:104-124 | defined by its body; specified by `PairInvalidWritesNothing`, `PairLookupEscapes`, `PairConflict`, `PairFresh`, `PairPreservesIndices` and `PairTwice`, and `Database.Pair` ends in its state |
| LegacyBot.PairInvalidWritesNothing | cashier/telegram_bot/__init__.py:104-108 | a refused command leaves all three collections unchanged; a `ValueError` is answered with its message and "Please see /help", and any other exception escapes without an answer |
| LegacyBot.PairLookupEscapes | cashier/telegram_bot/__init__.py:95-108 | on a well-formed command, a `ClientError` from `load_id` escapes the legacy handler with the store and the chat unchanged |
| LegacyBot.PairConflict | cashier/telegram_bot/__init__.py:111-115 | pairing an id that already has a membership leaves the memberships unchanged and answers with the type and pilot username of that membership |
| LegacyBot.PairFresh | cashier/telegram_bot/__init__.py:117-124 | pairing a fresh id appends exactly one membership with the id, type, pilot, today's date and no `used_for`; nothing else changes, "Okay, paired" is answered, and the indices hold |
| LegacyBot.PairPreservesIndices | cashier/telegram_bot/__init__.py:247-252 | every pairing step keeps the unique indices, in particular unique `transaction_id` across memberships |
| LegacyBot.PairTwice | cashier/telegram_bot/__init__.py:111-124 | after a successful pairing, the same request is refused with the grant just made, and the memberships stay as they were |
| LegacyBot.ProcessFlightStep | cashier/telegram_bot/__init__.py:148-189 | defined by its body as `InsertFlight`, `ConsumeOrAlert` and `MarkProcessed` in turn; specified by `ProcessedFlightSkipped`, `ProcessFlightMarks`, `ProcessFlightConsumption`, `ProcessFlightIdempotent` and `SameDayFlightMatchesAgain`, and `Database.ProcessFlight` ends in its state |
| LegacyBot.InsertFlight | cashier/telegram_bot/__init__.py:152-155 | an unseen flight is inserted unprocessed; a stored flight document, and everything else, is left as it is |
| LegacyBot.ConsumeOrAlert | cashier/telegram_bot/__init__.py:166-186 | the consumption step touches no flight and no transaction, keeps the number of memberships, and keeps every membership's `transaction_id` |
| LegacyBot.MarkProcessed | cashier/telegram_bot/__init__.py:188-189 | only the flight's own document changes, and only by becoming processed |
| LegacyBot.ProcessedFlightSkipped | cashier/telegram_bot/__init__.py:152-158 | a flight already stored as processed changes nothing and raises no alert |
| LegacyBot.ProcessFlightMarks | cashier/telegram_bot/__init__.py:152-189 | afterwards the flight is stored and processed; `processed` never goes from true to false; other flight documents and the transactions are unchanged; an existing flight document is not replaced; the indices hold |
| LegacyBot.ProcessFlightConsumption | cashier/telegram_bot/__init__.py:166-186 | with no matching membership, memberships are unchanged and exactly one alert is sent; with one, no alert is sent and only one matching membership changes, by the consuming update of its `used_for` |
| LegacyBot.ProcessFlightIdempotent | cashier/telegram_bot/__init__.py:148-189 | processing a flight twice gives the same store as processing it once |
| LegacyBot.SameDayFlightMatchesAgain | cashier/telegram_bot/__init__.py:166-173 | after a flight consumed a pass, a new flight of the same pilot on the same day finds a pass and raises no alert |
| LegacyBot.DailyPassScenario | cashier/telegram_bot/__init__.py:104-189 | pair a daily pass, then a first flight consumes it for its date, a second flight that day raises no alert, and another pilot's flight raises exactly one; all three flights end processed |
| LegacyBot.Database.constructor | cashier/telegram_bot/__init__.py:247-252 | an empty database satisfies the unique indices |
| LegacyBot.Database.ProcessTransaction | cashier/telegram_bot/__init__.py:60-71 | store, classify and notify in place, ending in the state `ProcessTransactionStep` gives and keeping the indices |
| LegacyBot.Database.Pair | cashier/telegram_bot/__init__.py:103-124 | parse, then check for an existing pairing and insert in place, ending in the state `PairStep` gives for the parsed command and keeping the indices |
| LegacyBot.Database.ApplyPair | cashier/telegram_bot/__init__.py:105-124 | the handler after parsing, ending in the state `PairStep` gives |
| LegacyBot.Database.ProcessFlight | cashier/telegram_bot/__init__.py:148-189 | store an unseen flight unprocessed, skip a processed one, consume or alert, then set `processed` last, ending in the state `ProcessFlightStep` gives and keeping the indices |
| Bot.Span | cashier/telegram_bot.py:37-39 | the run of a character class from a position ends at the first character outside the class, or at the end |
| Bot.TakeWhile | cashier/telegram_bot.py:37-39 | a greedy character class takes the longest prefix of its characters, and the rest follows it |
| Bot.TakeWhileOf | cashier/telegram_bot.py:37-39 | a greedy class takes exactly a run of its characters that no further such character follows |
| Bot.CutEnd | cashier/telegram_bot.py:40 | `$` leaves at most one final line feed after the match, and cuts it off whenever the text ends in one |
| Bot.CutEndOf | cashier/telegram_bot.py:39-40 | after a username token, `$` leaves exactly the optional final line feed |
| Bot.PairGrammar | cashier/telegram_bot.py:33-43 | defined by its body: the language of `CMD_PAIR_REGEX` with its three named groups, an independent reference for the scanner; related to `ScanPairArgs` by `ScanIsPairGrammar` |
| Bot.ScanPairArgs | cashier/telegram_bot.py:89 | defined by its body as greedy stages; specified by `ScanSound`, `ScanComplete` and `ScanIsPairGrammar` |
| Bot.ScanSound | cashier/telegram_bot.py:33-43 | every match the scanner reports is in the pattern's language, with the same three groups |
| Bot.ScanComplete | cashier/telegram_bot.py:33-43 | every string in the pattern's language is matched by the scanner with the same groups, provided the type values are plain words |
| Bot.ScanIsPairGrammar | cashier/telegram_bot.py:33-43 | the scanner returns groups (id, type, username) if and only if the string is digits, whitespace, one of the type values, whitespace and one non-whitespace token |
| Bot.ParsePairArgs | cashier/telegram_bot.py:81-99 | arguments without a match are refused with "Pairing command doesn't match expected format"; an accepted membership carries a matched id, the type `from_str` gave for the matched type value, and the matched username with the id `load_id` gave; after a match, an exception from `from_str`, or else from `load_id`, is the outcome |
| Bot.BuildMembership | cashier/telegram_bot.py:94-99 | a built membership carries the captured id and username, the type `from_str` gave for the captured type value, and the id `load_id` gave; an exception from `from_str`, or else from `load_id`, is the result |
| Bot.ParsePairArgsRejects | cashier/telegram_bot.py:89-91 | arguments outside the pattern's language are refused with the format message |
| Bot.ParsePairArgsAccepts | cashier/telegram_bot.py:92-99 | arguments in the language, with successful lookups, give exactly the captured id, the parsed type and the captured username |
| Bot.ProcessTransactionStep | cashier/telegram_bot.py:69-78 | defined by its body; specified by `ProcessTransactionCalls`, and `Cashier.ProcessTransaction` ends in its state |
| Bot.ProcessTransactionCalls | cashier/telegram_bot.py:69-78 | the transaction is stored first, always; an unknown amount is no error and is followed by one notification without a suggestion; a classified amount is followed by exactly one `send_message` of a notification carrying the transaction and the classifier's type; any other exception of the classifier escapes right after the store; one notification follows exactly when nothing escapes |
| Bot.Caught | cashier/telegram_bot.py:110-111 | defined by its body: a `ValueError` or `ClientError` is answered with its message and a hint to `/help`, anything else escapes; specified by `PairAnswers` |
| Bot.PairStep | cashier/telegram_bot.py:106-112 | defined by its body; specified by `PairAnswers` and `PairLookupFailureAnswered`, and `Cashier.Pair` ends in its state |
| Bot.PairAnswers | cashier/telegram_bot.py:106-112 | "Okay, paired" is answered exactly when parsing succeeded and `create_membership` returned, and only after that call; a `ValueError` or `ClientError` from parsing creates nothing and is answered with its message |
| Bot.PairLookupFailureAnswered | cashier/telegram_bot.py:95-111 | on arguments the pattern accepts, a `ValueError` or `ClientError` from `from_str` or `load_id` creates no membership and is answered with its message and the hint to `/help` |
| Bot.ProcessFlightStep | cashier/telegram_bot.py:123-140 | defined by its body; specified by `StoredFlightSkipped`, `ProcessFlightCalls` and `ProcessFlightTwice`, and `Cashier.ProcessFlight` ends in its state |
| Bot.StoredFlightSkipped | cashier/telegram_bot.py:124-127 | a flight the storage already holds causes no membership update, no alert and no store |
| Bot.ProcessFlightCalls | cashier/telegram_bot.py:128-140 | a new flight gives exactly two calls: one alert and no `set_used_for` when no membership is found, or one `set_used_for` and no alert when one is; the flight is then stored, as the last call and for the first time |
| Bot.ProcessFlightTwice | cashier/telegram_bot.py:123-140 | once processed, a flight is stored, so processing it again changes nothing, whatever the membership storage answers |
| Bot.Cashier.constructor | cashier/telegram_bot.py:205-219 | a bot over a flight storage holding some flights, with no calls made yet |
| Bot.Cashier.ProcessTransaction | cashier/telegram_bot.py:69-78 | the handler in place, ending in the state `ProcessTransactionStep` gives |
| Bot.Cashier.Pair | cashier/telegram_bot.py:106-112 | parse, create and answer in place, ending in the state `PairStep` gives for the parsed arguments |
| Bot.Cashier.ApplyPair | cashier/telegram_bot.py:107-112 | the handler after parsing, ending in the state `PairStep` gives |
| Bot.Cashier.ProcessFlight | cashier/telegram_bot.py:123-140 | the handler in place, ending in the state `ProcessFlightStep` gives |
| Domain.ReplyText | cashier/telegram_bot.py:111-112 | defined by its body: the three answer texts of `pair`, the help hint, the already-paired notice and "Okay, paired", shared by both handlers (`cashier/telegram_bot/__init__.py` lines 108, 113 and 124) |

## Left out

- Concurrency: `asyncio.create_task` fan-out, `watch_transactions`, `watch_flights`, `cron_task` scheduling, `touch_liveness_probe`, `handle_exception` cancellation and `main`. Each item's processing is one sequential step.
- The legacy `process_flight` does not await its `update_one` calls (`__init__.py` lines 184, 186, 189). The writes may therefore complete in any order, so "processed last" is not actually guaranteed there. The model performs them in program order.
- Fire-and-forget alerts: an alert is recorded when it is scheduled, not when it is delivered.
- The race between two concurrent `/pair` commands for one transaction. Handlers run one at a time, so the second sees the first's membership.
- Mongo, HTTP, Sentry, `FioBank`, `ClientSession`, `get_db` and `Container`. The store is an abstract value; only the unique indices are kept, as `IndicesHold`.
- Unseen modules, taken as parameters without bodies: `from_amount`, `from_str`, `Membership.Type` and its values, `Pilot.load_id`, `get_by_flight`, `create_membership`. Also out: `set_used_for`, `store_flight`, `store_transaction` and `get_flights`. In the newer module these appear as logged calls, except that `store_flight` also adds the flight's id to `storedFlights`.
- The legacy `store_transaction` (in `TransactionStorage`, not part of this model) is modelled as insert-if-absent under the unique `id`: a re-delivered transaction keeps the stored record.
- The legacy flight document is `flight.as_dict()`, which is assumed to carry `processed: False` on insertion, since line 156 reads that field.
- `views` message rendering: messages are kept as structured values.
- The `start`, `help_` and `comment` handlers, `guarded_message_handler`, `handle_telegram`, and `message.get_args()`. The newer `Pair` takes the argument string directly.
- The look-back window of the flight watcher (`timedelta`) and configuration loading (`cashier/config.py`).
- Python Unicode: `isspace`, `isnumeric`, `strip()`, `\d`, `\s` and `\S` are restricted to ASCII. In the source, non-ASCII digits and spaces also count.
- Bot.ScanComplete: proved only for type values that are non-empty and free of whitespace and of regex metacharacters. For other values the source pattern could decompose a string in more than one way, and its alternation would not be a literal match.
- No special case for membership types other than daily or yearly: the model keeps the source's behaviour. Such a pass is never marked used, so it keeps matching every flight of its pilot.
- Bot.ProcessFlightStep assumes that after `store_flight(f)` the flight storage's `does_flight_exist(f.id)` is true; `FlightStorage` is not part of this model, and `ProcessFlightTwice` depends on this assumption.
- Exceptions from the storage and chat calls: `get_by_flight`, `set_used_for`, `store_flight`, `store_transaction`, `send_message`, and Mongo's `find_one`, `insert_one` and `update_one`. These calls are modelled as always returning. So the model does not capture the reason the flight is stored, or marked processed, last: a raise before that step leaves the flight to be processed again on the next run.
- Bot.ScanIsPairGrammar: the equivalence with the pattern is proved only for type values that are non-empty and free of whitespace and of regex metacharacters (`PlainTypeValues`), for the same reason as for `ScanComplete`.
- Bot.ParsePairArgsAccepts: proved only for plain type values (`PlainTypeValues`), as it rests on `ScanIsPairGrammar`.
- Bot.PairLookupFailureAnswered: proved only for plain type values (`PlainTypeValues`), as it rests on `ScanIsPairGrammar`.
- Bot.PairGrammar: an empty list of type values is not modelled as the source would treat it. The source pattern then has an empty `membership_type` group and accepts, for example, `"1  u"`, while `PairGrammar` and `ScanPairArgs` accept nothing. `Membership.Type` always has members, so no run of the program meets this case.
