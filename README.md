# MBTA schedule board: response normalisation

This project models the layer of the MBTA departure board (a small Django site) that turns the
transit API's JSON:API response into the objects the board shows. The layer has four parts:

- the entity classes `Schedule`, `Route` and `Prediction`, with their accessors and the station table (`models.py`);
- the per-record parsers `create_route` and `create_prediction`, and the dispatch `parse_included`, which builds the id-keyed route and prediction tables from the response's `included` array;
- the linker `create_schedule`, which parses every schedule record of `data`, links it to its route and optional prediction, and sorts the board by scheduled time;
- the UTC-offset normaliser `fix_UTC_offset`, and the request parameters for the six-hour query window.

Modules, one per part of the program:

- `Wrappers` holds `Option`, `Result`, and the `Error` values that stand for the Python exceptions the layer raises (a failed `assert`, `ValueError`, `TypeError`, `KeyError`, `IndexError`).
- `Models` holds the station table and the three entity classes. Their fields are set once, by the constructor, so they are `const` fields; the accessors are functions of them.
- `Resources` holds the decoded JSON record: a type tag, an id, the attributes the layer reads, and the relationship ids, where null relationship data is `None`.
- `Timestamps` holds the offset normaliser and the "parse the attribute if it is truthy" step. `datetime.strptime` is a parameter `parse`: any function from text to an instant, or `None` where Python raises `ValueError`. An instant is an integer, compared as aware datetimes compare.
- `Parsers` holds `create_route`, `create_prediction` and `parse_included`. The tables are specified by `Table`, a function that says which record each id ends up with.
- `StableSort` holds the stable sort `list.sort(key=...)` as insertion sort. `SortedStableUnique` proves that only one arrangement is sorted and keeps equal keys in input order, so the model agrees with Python's own sort on every input.
- `Linker` holds `create_schedule`. The loop body is `BuildSchedule`, specified by `ScheduleError` (what the body raises, in the order the code checks) and `ScheduleFrom` (what it builds).
- `QueryWindow` holds the query parameters. `ParseClock` and `ParseDate` read the formatted strings back, so the contract states the numbers each field carries rather than how it is formatted.

Points where the code's behaviour is easy to misread:

- Predictions look optional, yet a schedule whose prediction id is not in the prediction table makes `predictions[prediction_id]` raise `KeyError`. The model follows the code: the call fails with `UnresolvedPrediction`.
- `fix_UTC_offset` has no effect on its callers (see "## Findings"). `ParseTime`, and through it every parser and the linker, models the intended step that parses the normalised text. `ParseTimeAsWritten` models the step as the code performs it, and two lemmas relate the two.
- `direction_destinations` arrives as a JSON array. `get_destination` is therefore Python list indexing: negative direction ids count from the end, and any id outside the list raises `IndexError`.
- `list.sort` compares keys. When there are two or more schedules and one of them has neither time, its key is `None` and Python raises `TypeError`. The model returns `UncomparableTimes` in that case; a single schedule is never compared.

## Model

| member | source | states |
|---|---|---|
| Models.GetStationDisplayName | demosite/scheduleboard/models.py:9-20 | None exactly when no table entry has the key; otherwise the display name of the first entry with that key |
| Models.Route.constructor | demosite/scheduleboard/models.py:87-106 | id, short name, long name and destinations are stored as given |
| Models.Route.GetDestination | demosite/scheduleboard/models.py:108-109 | succeeds exactly for direction ids in [-n, n); a non-negative id selects that entry and a negative one counts from the end; otherwise IndexError |
| Models.Route.GetName | demosite/scheduleboard/models.py:111-115 | the short name when it is non-empty, otherwise the long name; the result is truthy exactly when one of the two is |
| Models.Prediction.constructor | demosite/scheduleboard/models.py:126-134 | a falsy status is not stored (stays None); the other fields are stored as given |
| Models.Prediction.GetDisplayTime | demosite/scheduleboard/models.py:136-140 | the arrival time when present, otherwise the departure time; None only when both are absent |
| Models.Prediction.GetStatus | demosite/scheduleboard/models.py:142-146 | "" exactly when the status is absent, empty or the text "None"; any other status is returned unchanged |
| Models.Schedule.constructor | demosite/scheduleboard/models.py:34-55 | the given times, direction, route, stop and prediction are stored; the trip id argument is dropped, so the trip id stays None |
| Models.Schedule.GetScheduledTime | demosite/scheduleboard/models.py:60-64 | the departure time when present, otherwise the arrival time; None only when both are absent |
| Models.Schedule.GetStatus | demosite/scheduleboard/models.py:66-70 | "" when there is no prediction, otherwise the prediction's displayed status; a non-empty result is that prediction's stored status |
| Models.Schedule.GetDestination | demosite/scheduleboard/models.py:72-73 | the route's destination for the schedule's direction: the entry at a non-negative index, the entry counted from the end for a negative one; it fails exactly when that index is outside the list, and a success is always one of the route's destinations |
| Timestamps.FixUtcOffsetDropsColon | demosite/scheduleboard/services.py:32-33 | when the third-to-last character is ':', exactly that character is removed and the rest keep their order; any other string, including one shorter than three characters, is unchanged |
| Timestamps.FixUtcOffsetIdempotent | demosite/scheduleboard/services.py:32-33 | a string ending in ±HH:MM is normalised to one ending in ±HHMM, and normalising again changes nothing |
| Timestamps.FixUtcOffsetKeepsCompact | demosite/scheduleboard/services.py:32-33 | a string already ending in ±HHMM is left unchanged |
| Timestamps.FixUtcOffsetAsWritten | demosite/scheduleboard/services.py:32-33 | the function as written returns None whatever its argument; the rebinding is invisible to its callers |
| Timestamps.FixUtcOffsetAsWrittenHasNoEffect | demosite/scheduleboard/services.py:32-33 | on an API timestamp with a colon offset, the as-written function returns None, while the intended normalisation removes the colon |
| Timestamps.ParseTime | demosite/scheduleboard/services.py:47-54 | the intended step: a falsy attribute gives no instant and no error; a truthy one gives the parse of its normalised text, and it is a MalformedTimestamp error exactly when that parse fails |
| Timestamps.ParseTimeAsWritten | demosite/scheduleboard/services.py:47-54 | the step as written: a falsy attribute gives no instant and no error; a truthy one gives the parse of its unchanged text, and it is a MalformedTimestamp error exactly when that parse fails |
| Timestamps.AsWrittenRejectsColonOffset | demosite/scheduleboard/services.py:19-25 | with a parser that rejects the colon offset and accepts the compact one (Python 3.6 and earlier), the code as written fails on "2020-04-20T23:59:59-04:00" while the intended step returns the instant of "...-0400" |
| Timestamps.AsWrittenAgreesWhenColonAccepted | demosite/scheduleboard/services.py:47-54 | with a parser that treats both offset spellings alike (Python 3.7 and later), the code as written and the intended step give the same result on every attribute |
| Timestamps.OffsetSpellingsParseAlike | demosite/scheduleboard/services.py:49-50 | for any parser, the ±HH:MM and ±HHMM spellings of a timestamp both parse or both fail, and give the same instant |
| Parsers.CreateRoute | demosite/scheduleboard/services.py:73-88 | fails exactly when the type tag is not "route"; otherwise the route carries the record's id, names and destinations |
| Parsers.CreatePrediction | demosite/scheduleboard/services.py:91-109 | fails exactly when the tag is not "prediction" or a time does not parse, with the first such error in code order; otherwise it carries the record's id, parsed times, direction and truthy status |
| Parsers.TableKeys | demosite/scheduleboard/services.py:122-128 | an id is a key of the table exactly when some record of that kind has that id |
| Parsers.TableEntries | demosite/scheduleboard/services.py:122-128 | each entry is a record of the table's kind stored under its own id, and it is the last such record: a later duplicate overwrites an earlier one |
| Parsers.OtherKindsSkipped | demosite/scheduleboard/services.py:122-128 | appending a record of another kind leaves the table unchanged |
| Parsers.ParseIncludedRecord | demosite/scheduleboard/services.py:123-128 | one loop step: a route or prediction is added under its id, any other kind changes nothing, and a bad prediction is the step's error |
| Parsers.ParseIncluded | demosite/scheduleboard/services.py:112-129 | fails exactly when some record fails: an Ok result means no record fails, and an Err result is the error of the first failing record; otherwise both tables have exactly the keys of `Table`, each entry's id is its key, and each entry is parsed from the record `Table` chose |
| Linker.BuildSchedule | demosite/scheduleboard/services.py:46-67 | fails exactly when the record is malformed or does not resolve, with the first error in code order; otherwise it keeps the record's id, times, direction and stop, drops the trip id, links the route table entry, and has a prediction exactly when the prediction data is not null |
| Linker.SortedByScheduledTime | demosite/scheduleboard/services.py:69 | once every schedule that is compared has a time, the sorted board is non-decreasing in scheduled time |
| Linker.CreateSchedule | demosite/scheduleboard/services.py:35-70 | the first malformed record's error and no list; otherwise one schedule per record, built from it in order, and the result is that list stably sorted: a permutation of it, non-decreasing in scheduled time, with equal times in input order; it fails with UncomparableTimes when two or more schedules are sorted and one has no time |
| StableSort.SortIsSorted | demosite/scheduleboard/services.py:69 | the sorted sequence is non-decreasing in the key |
| StableSort.SortIsPermutation | demosite/scheduleboard/services.py:69 | the sorted sequence has the same elements with the same multiplicities |
| StableSort.SortIsStable | demosite/scheduleboard/services.py:69 | for every key, the elements with that key keep their input order |
| StableSort.SortedStableUnique | demosite/scheduleboard/services.py:69 | two sequences that are both sorted and have the same elements per key, in the same order, are equal |
| StableSort.StableSortIsSort | demosite/scheduleboard/services.py:69 | any sorted rearrangement that keeps equal keys in input order is exactly the modelled sort, so it is what the library sort returns |
| QueryWindow.StrRoundTrip | demosite/scheduleboard/services.py:154 | `str` of a natural number is all digits and reads back as the number, in at most two digits below 100 and four below 10000 |
| QueryWindow.ZFillKeepsValue | demosite/scheduleboard/services.py:154 | `zfill` keeps the value and digit-only shape of a numeral and pads it to the width |
| QueryWindow.ZeroPaddedRoundTrip | demosite/scheduleboard/services.py:151-152 | a two- or four-digit zero-padded field has exactly that width and reads back as its number |
| QueryWindow.ClockRoundTrip | demosite/scheduleboard/services.py:151 | an HH:MM string of two padded fields reads back as its hours and minutes |
| QueryWindow.DateRoundTrip | demosite/scheduleboard/services.py:152 | a YYYY-MM-DD string of padded fields reads back as its year, month and day |
| QueryWindow.BuildQuery | demosite/scheduleboard/services.py:150-164 | exactly six parameters; the stop is the station; min_time reads back as the reference hour and minute; max_time as the hour plus six (06 to 29, never wrapped) and the same minute; the date as the reference date (never rolled over); the sort and include values are fixed |
| QueryWindow.WindowPastMidnight | demosite/scheduleboard/services.py:150-154 | at 23:30 on 2020-04-20 the window is 23:30 to 29:30 on 2020-04-20 |

## Left out

- The HTTP request, `response.json()` and the `logger.debug` calls (demosite/scheduleboard/services.py:155-157, 165-178) are network I/O and logging. The decoded `data` and `included` arrays are inputs.
- `datetime.strptime` and the `%z` format are a parameter `parse`, not a model. An instant is an integer; naive and aware datetimes are not distinguished.
- A JSON key that is missing from a record (a `KeyError` on `element["attributes"][...]`) cannot occur: the record datatype always has every key. Only null relationship data is modelled, as `MissingRelationship`.
- A `direction_destinations` that is not a list, and a direction id that is not an integer, are not modelled: the model's destinations are always a list and its direction ids are integers.
- Route colours, text colours, direction names and route type are not stored. They are pass-through values that nothing in this layer reads.
- `Schedule.__str__` is not modelled. It only formats text for debugging.
- `list.sort` sorts the list in place. The model sorts a sequence value that the method then returns, so aliasing of the Python list is not captured.
- Timestamps.ParseTime: models the intended program, which parses the normalised text; the code as written parses the unchanged text (`ParseTimeAsWritten`). `Parsers.CreatePrediction`, `Parsers.ParseIncluded`, `Linker.BuildSchedule` and `Linker.CreateSchedule` use `ParseTime`, so they too describe the corrected program. They coincide with the code whenever the parser accepts both offset spellings (`Timestamps.AsWrittenAgreesWhenColonAccepted`).
- QueryWindow.BuildQuery: for years below 1000 the date is written with four zero-padded digits. The C library's `%Y` may write fewer digits, and that spelling is not modelled.

## Findings

| source | as written | input that shows it | evidently intended | confidence | as-written member | corrected member |
|---|---|---|---|---|---|---|
| demosite/scheduleboard/services.py:32-33 | `fix_UTC_offset` rebinds its own parameter and returns nothing, so the callers at lines 49, 53, 101 and 105 pass the unchanged string to `strptime` | "2020-04-20T23:59:59-04:00": the colon is still there when it is parsed | return the string with the offset colon removed, and parse that string | high; not executed | Timestamps.AsWrittenRejectsColonOffset | Timestamps.FixUtcOffset |
