# OpenElectricity MQTT pipeline — a Dafny model of its core

The repository streams Australian power-station readings through MQTT.
The **producer** (`src/mqtt_publisher_loop.py`) loads a cleaned CSV and
replays it round after round. It sends a facility's row only when that
facility's power or CO2 reading changed since the last message sent for it.
The **consumer** (`src/map_app_streamlit.py`) is a Streamlit map. It reloads
the received records when the data file changes and harmonizes their schema.
It then plays them back: a five-minute cursor moves through business time.
For each tick the app shows the latest row per facility at or before the
cursor, and three KPIs (facility count, total power, total emissions).

The model is plain Dafny, in nine modules:

- `Wrappers` (`wrappers.dfy`): `Option` and `Result`.
- `Calendar` (`calendar.dfy`): UTC instants and the ISO text `YYYY-MM-DDTHH:MM:SSZ`, with a format/parse round trip.
- `Frame` (`frame.dfy`): a DataFrame as a column set plus rows of cells.
  - Cell values are `Null` (None/NaN/NaT), numbers, text and parsed instants.
  - `float()` / `pd.to_numeric(errors="coerce")` read signed decimals.
  - `pd.to_datetime` and `str` of a non-text value are parameters (`Pandas`).
- `Seqs` (`seqs.dfy`): order-preserving filters (boolean indexing) and maps.
- `Sorting` (`sorting.dfy`): `sort_values(["_ts", "facility_code"], kind="stable")` as a stable insertion sort.
  - Proved: the result is sorted, a permutation of the input, and stable on equal keys.
- `Colors` (`colors.dfy`): `make_color_map`.
- `Harmonize` (`harmonize.dfy`): `_valid_lat_lon` and `_harmonize`.
- `Playback` (`playback.dfy`):
  - the cursor, the window, the latest row per facility and the KPIs;
  - the `Session` class, holding the `st.session_state` entries and the reload gate, manual refresh and the per-rerun tick.
- `Publisher` (`publisher.dfy`):
  - `_iso_utc` and `_load_csv`;
  - the per-row replay with its `last_vals` memory;
  - the `Publisher` class, which runs one round at a time and holds `last_vals`, `round_idx` and the messages handed to the broker;
  - `run`, with its exit codes.

File contents, the data file's modification time and Ctrl-C are inputs of the model; the broker is not modelled; playback time moves only by the fixed `PLAYBACK_DELTA` steps.
A run receives the CSV existence test and the sequence of what `_load_csv`
reads in each round (`None` when the read fails). The interrupt is modelled
as that sequence running out.

## Model

| member | source | states |
|---|---|---|
| Harmonize.ValidLatLonAfterCoerce | src/map_app_streamlit.py:57-65 | `_valid_lat_lon` gives the same verdict on a value and on its `to_numeric` coercion, so the coercion at line 111 before the filter at line 114 changes no verdict |
| Harmonize.Tonnes | src/map_app_streamlit.py:93 | a value that converts to a number x becomes x/1000 tonnes; anything else becomes missing |
| Harmonize.Prepare | src/map_app_streamlit.py:74-111 | the prepared table keeps every row; its columns are the input's plus the eight required ones, `emissions_tonnes` and `_ts` |
| Harmonize.Harmonize | src/map_app_streamlit.py:72-115 | the result has every canonical column, and every kept row has coordinates that pass `_valid_lat_lon` |
| Harmonize.PreparedRow | src/map_app_streamlit.py:76-111 | each prepared row relates to its input row as follows: aliased coordinates, name and power come from the column or its alias, coerced; labels are copied or None; the timestamp comes from `timestamp` or `time` and `_ts` parses it; tonnes are derived from `co2_kg` or `emissions` only when `emissions_tonnes` is absent; other columns pass through unchanged |
| Harmonize.HarmonizeSelectsRows | src/map_app_streamlit.py:113-115 | the output rows are the prepared rows at a strictly increasing list of input positions (table order kept), each harmonized from its input row |
| Harmonize.HarmonizeKeepsValid | src/map_app_streamlit.py:114 | an input row is kept if and only if its aliased coordinates pass `_valid_lat_lon` (modelled by `Harmonize.ValidLatLon`, lines 57-65) |
| Colors.ColorMap | src/map_app_streamlit.py:52-55 | the keys are exactly the fuel labels (empty fuel names read as "Unknown") plus "Unknown"; no key is empty; "Unknown" is always the grey `#BAB0AC` |
| Colors.ColorMapByPosition | src/map_app_streamlit.py:53-55 | the i-th distinct label, in order of first appearance, gets palette colour i mod 10, except "Unknown" |
| Colors.UniquePrefix | src/map_app_streamlit.py:54 | `dict.fromkeys` keeps first occurrences: adding more fuels never moves an earlier label, so no earlier colour changes |
| Colors.Unique | src/map_app_streamlit.py:54 | the distinct labels hold each input label exactly once |
| Playback.MinTs | src/map_app_streamlit.py:222 | the earliest parsed `_ts`: it belongs to some row and bounds every parsed `_ts` from below; NaT only when no row parses |
| Playback.MaxTs | src/map_app_streamlit.py:223 | the latest parsed `_ts`: it belongs to some row and bounds every parsed `_ts` from above; NaT only when no row parses |
| Playback.MinNotAfterMax | src/map_app_streamlit.py:222-223 | both extremes exist together, and the earliest is not after the latest |
| Playback.InitCursor | src/map_app_streamlit.py:226-227 | a missing cursor starts at the earliest instant; an existing cursor is kept |
| Playback.AdvanceCursor | src/map_app_streamlit.py:230-234 | the cursor never moves back and never passes the latest instant; it moves forward exactly when playing and still before the end, and is unchanged otherwise |
| Playback.AdvanceStep | src/map_app_streamlit.py:36 | an advancing tick moves exactly `PLAYBACK_DELTA` (five minutes), capped at the latest instant |
| Playback.TicksReachEnd | src/map_app_streamlit.py:229-234 | with n ticks of five minutes covering the distance, playback reaches the latest instant and stays there |
| Playback.TicksProgress | src/map_app_streamlit.py:229-234 | before reaching the end, n ticks advance the cursor by exactly n times five minutes |
| Playback.Window | src/map_app_streamlit.py:237 | the window holds exactly the rows whose `_ts` is at or before the cursor; every row in it has a parsed `_ts`; a NaT cursor gives an empty window |
| Playback.FindFacility | src/map_app_streamlit.py:239 | finds a position holding the facility, or reports that no entry holds it |
| Playback.LatestIsLatest | src/map_app_streamlit.py:239 | `Playback.Latest`, the fold modelling line 239, gives a latest set: it has one row per facility id, for every facility of the window; each chosen row is a window row with an id and is not earlier than any window row of its facility |
| Playback.IdsOfDistinct | src/map_app_streamlit.py:253 | on rows with distinct, present facility ids, `nunique` equals the row count |
| Playback.SumColumnAppend | src/map_app_streamlit.py:254-255 | a column total over concatenated rows is the sum of the parts |
| Playback.SumColumnPermutation | src/map_app_streamlit.py:254-255 | totals do not depend on row order, so the unspecified order of the latest set does not matter |
| Playback.SumColumnSkipsMissing | src/map_app_streamlit.py:254-255 | with `fillna(0)`, a total equals the total over the rows that hold a number |
| Playback.ComputeKpis | src/map_app_streamlit.py:253-255 | an empty latest set gives (0, 0.0, 0.0); the facility count never exceeds the number of rows shown; total power and total emissions are the sums of `power_mw` and `emissions_tonnes` over the latest set with missing values counted as 0 (`SumColumn`, see `SumColumnSkipsMissing`) |
| Playback.KpisOfLatest | src/map_app_streamlit.py:239-253 | on a latest set, the facility KPI equals both the number of rows shown and the number of distinct facility ids in the window |
| Playback.ViewAt | src/map_app_streamlit.py:237-256 | the view shows the window at the cursor; its latest set holds one row per facility of the window, each not earlier than any window row of its facility; the facility KPI equals the number of distinct facilities in the window and the number of rows shown; the KPIs are `ComputeKpis` of the latest set, so the totals are the missing-as-0 sums over it; the last update is the window's latest `_ts`, never after the cursor; a rerun is requested exactly when playback can still advance (lines 291-292) |
| Playback.Loaded | src/map_app_streamlit.py:205 | an empty read installs an empty table; anything else installs its harmonized form |
| Playback.Session.constructor | src/map_app_streamlit.py:169-176 | the session starts with mtime -1, an empty table and no cursor |
| Playback.Session.ManualRefresh | src/map_app_streamlit.py:189-191 | the stored mtime becomes -1, so the next unpaused rerun with any real mtime reloads; data and cursor are kept |
| Playback.Session.Reload | src/map_app_streamlit.py:196-206 | when not paused and the mtime differs, the data becomes the harmonized read and the mtime is stored; otherwise nothing changes; the cursor is never touched |
| Playback.Session.Tick | src/map_app_streamlit.py:213-242 | with no data the page waits and nothing changes; otherwise the cursor is initialised and advanced as above, and the view is that of the new cursor |
| Calendar.FormatIsoZ | src/mqtt_publisher_loop.py:33 | `strftime("%Y-%m-%dT%H:%M:%SZ")` yields text of the ISO shape |
| Calendar.ParseFormatIsoZ | src/mqtt_publisher_loop.py:33 | parsing the formatted text gives the instant with its sub-seconds dropped |
| Calendar.WholeSeconds | src/mqtt_publisher_loop.py:33 | dropping sub-seconds moves the instant back by exactly its nanoseconds |
| Calendar.ReadDigitsOfDigits | src/mqtt_publisher_loop.py:33 | a zero-padded field reads back as the number written |
| Frame.ToFloat | src/mqtt_publisher_loop.py:93-94 | `float()` returns a number as itself; a missing value or a timestamp does not convert |
| Frame.Coerce | src/mqtt_publisher_loop.py:51-52 | `to_numeric(errors="coerce")` gives a number exactly when the value converts, and that number; otherwise missing |
| Frame.CoerceIdempotent | src/map_app_streamlit.py:110-111 | coercing twice is coercing once |
| Frame.FirstDotIsFirst | src/mqtt_publisher_loop.py:51-52 | the decimal-point search finds the first dot, or reports that there is none |
| Sorting.ValueOrder | src/mqtt_publisher_loop.py:56 | the order on `_ts` and `facility_code` values is reflexive, total, antisymmetric and transitive |
| Sorting.KeyOrder | src/mqtt_publisher_loop.py:56 | the (`_ts`, `facility_code`) key order is a total order |
| Sorting.SortRowsCorrect | src/mqtt_publisher_loop.py:56 | the sort (`Sorting.SortRows`) yields sorted rows and a permutation of its input; rows with equal keys keep their input order |
| Publisher.IsoUtc | src/mqtt_publisher_loop.py:29-35 | the result is "" exactly when the value does not parse as a date; otherwise it is ISO text that parses back to the instant with its sub-seconds dropped |
| Publisher.Missing | src/mqtt_publisher_loop.py:40-44 | a column is reported missing exactly when it is required and absent |
| Publisher.LoadCsv | src/mqtt_publisher_loop.py:38-57 | a failed read and missing columns are errors; otherwise the result is the loaded rows (`Publisher.LoadRows`), sorted by (`_ts`, `facility_code`), each with ISO `...Z` timestamp text naming its `_ts` and numeric coordinates |
| Publisher.LoadedRowTime | src/mqtt_publisher_loop.py:49-54 | a loaded row's `timestamp` is the normalised text and its `_ts` the instant with sub-seconds dropped |
| Publisher.LoadedRowCoordinates | src/mqtt_publisher_loop.py:51-53 | a loaded row's coordinates are the numbers its input held |
| Publisher.LoadRowsSelects | src/mqtt_publisher_loop.py:48-56 | loading is: keep the rows with a parseable timestamp and numeric coordinates, transform them, sort |
| Publisher.LoadRowsCorrect | src/mqtt_publisher_loop.py:48-57 | the loaded rows (`Publisher.LoadRows`) are a permutation of the transformed loadable rows; they are sorted by (`_ts`, `facility_code`) and stable on equal keys; each has ISO text, a matching `_ts` and numeric coordinates |
| Publisher.Measure | src/mqtt_publisher_loop.py:93-94 | a missing power or CO2 value reads as 0.0, and a number as itself |
| Publisher.MessageOf | src/mqtt_publisher_loop.py:101-111 | the message carries the facility key, the row's coordinates, the reading and `str` of the row's timestamp; name, region and fuel are `str` of the row's value when present, and "Unknown", "" and "" when missing |
| Publisher.MessageTimes | src/mqtt_publisher_loop.py:18-110 | on loaded rows, the k-th message carries ISO `...Z` timestamp text that names the `_ts` of the row it was made from |
| Publisher.MessageTimesAscend | src/mqtt_publisher_loop.py:56-110 | on a table `_load_csv` returns, every message's timestamp parses, and no later message carries an earlier time |
| Publisher.ReplayMemory | src/mqtt_publisher_loop.py:119 | after a round, `last_vals` is the old memory updated with the pair of each message sent, in order |
| Publisher.ReplaySendsChanges | src/mqtt_publisher_loop.py:96-99 | no message repeats the pair last sent for its facility |
| Publisher.ReplayInOrder | src/mqtt_publisher_loop.py:91-111 | the k-th message is made from the row at the k-th sent position, and the sent positions strictly increase |
| Publisher.MessagesSorted | src/mqtt_publisher_loop.py:56-91 | on a sorted table, messages go out in (`_ts`, `facility_code`) order |
| Publisher.ReplayRemembersLast | src/mqtt_publisher_loop.py:77-119 | after a round that did not crash, each facility with rows holds its last row's reading; every other entry is as before |
| Publisher.ReplayCrashes | src/mqtt_publisher_loop.py:93-94 | a round crashes exactly when some row's power or CO2 text does not convert with `float` |
| Publisher.QuietReplay | src/mqtt_publisher_loop.py:96-99 | when every reading equals the facility's remembered pair, the round sends nothing and changes nothing |
| Publisher.SecondRoundQuiet | src/mqtt_publisher_loop.py:77-119 | replaying a table whose facility readings never vary sends nothing the second time |
| Publisher.SilentFacility | src/mqtt_publisher_loop.py:96-119 | a round that sends nothing for a facility leaves its `last_vals` entry as it was, and every row of that facility carried exactly the remembered reading |
| Publisher.ReplayResendsVarying | src/mqtt_publisher_loop.py:96-119 | a facility with two different readings in the table gets at least one message in every round over it that does not crash |
| Publisher.SecondRoundQuietIffSteady | src/mqtt_publisher_loop.py:77-119 | for a table that does not crash, the second replay sends nothing and changes nothing if and only if no facility's reading varies within the table |
| Publisher.ReplayStep | src/mqtt_publisher_loop.py:92-119 | one more row of `Publisher.Replay`, the model of lines 90-120: a crash on an unreadable reading; a skip on an unchanged reading; otherwise one message and a memory update |
| Publisher.ReplayStaysCrashed | src/mqtt_publisher_loop.py:93-94 | after a crash, later rows change nothing |
| Publisher.Publisher.constructor | src/mqtt_publisher_loop.py:77-79 | the publisher starts with empty memory, round 0 and nothing sent |
| Publisher.Publisher.PublishRound | src/mqtt_publisher_loop.py:81-120 | the round index grows by one; a load error skips the round and reports the error; otherwise the rows are replayed over `last_vals`, and the state and outcome are those of `NextRound` |
| Publisher.Publisher.PublishRows | src/mqtt_publisher_loop.py:90-120 | the per-row loop ends in the state `Replay` describes: new memory, the messages appended to the outbox, the crash flag |
| Publisher.NextRound | src/mqtt_publisher_loop.py:81-88 | after a crash, or when the load fails, a round leaves the state as it was |
| Publisher.Loads | src/mqtt_publisher_loop.py:84 | each round's load is `_load_csv` of that round's contents |
| Publisher.RememberAppend | src/mqtt_publisher_loop.py:119 | recording two message batches in turn is recording their concatenation |
| Publisher.RoundsRemember | src/mqtt_publisher_loop.py:77-119 | across all rounds of `Publisher.Rounds`, `last_vals` is exactly what recording every message sent, in order, leaves |
| Publisher.RoundsStep | src/mqtt_publisher_loop.py:81-88 | one more round extends the run by `NextRound` |
| Publisher.RoundsStayCrashed | src/mqtt_publisher_loop.py:93-94 | rounds after a crash contribute nothing |
| Publisher.Run | src/mqtt_publisher_loop.py:65-128 | a missing CSV ends with `MissingCsv` and sends nothing (exit code 1); otherwise the messages are those of the rounds, and the run ends `Failed` (exit 1) if a round crashed, else `Interrupted` (exit 0); `ExitCode` of the end is 0 exactly when the CSV exists and no round crashed |
| Publisher.SuppressesRepeat | src/mqtt_publisher_loop.py:92-119 | readings (10, 500), (10, 500), (12, 500) of one facility give two messages, 10 then 12, and memory (12, 500) |

## Left out

- The user interface: page layout, the popup and marker rendering, the legend, the fuel multiselect (lines 261-263), the map's centre and zoom memory (`map_view`), and the sleeps between ticks. They render and do not decide data.
- File access: `_mtime`, `read_json`/`read_csv` and the existence tests are inputs. `Reload` receives the mtime and the table read; `Run` receives the CSV existence test and each round's read.
- The MQTT client: connect, `loop_start`, `publish` and `wait_for_publish` are not modelled. A message counts as sent when it is handed to the broker. A publish timeout is not checked by the source either.
- The counters and log lines printed by `run`, the argument parser and `_build_client`.
- `KeyboardInterrupt` is modelled as the round contents running out. The `finally` disconnect is not modelled.
- `pd.to_datetime` is a parameter (`Pandas.toDatetime`): pandas' date grammar and its 1677-2262 range are not modelled. `Calendar` gives only the fixed `...Z` format and its inverse.
- The `_ts` parse of line 54 (`Publisher.ParsedTs`) re-parses text that `_iso_utc` has just written in the fixed `...Z` format, so it is modelled by `Calendar.ParseIsoZ` rather than by the `Pandas.toDatetime` parameter. By `ParseFormatIsoZ` that parse always succeeds, so the `_ts` NaT filter of line 55 never drops a row in the model.
- `str()` of a non-text cell (used for `facility_code`, name, region and fuel) is also a parameter.
- Frame.ToFloat: it reads signed decimals only. Exponents, surrounding whitespace, underscores, `inf` and `nan` text are not parsed, so text "nan" counts as unconvertible rather than NaN. Python's NaN-never-equal change test, which always resends a NaN reading, is therefore not modelled.
- Reals are exact: floating-point rounding in `/ 1000.0` and in the KPI sums is not modelled.
- Playback.LatestIsLatest: it states which rows are chosen, not their order. pandas' `sort_values` default sort is not stable, so among rows of one facility with equal `_ts` the source leaves the choice unspecified. Any of them satisfies the contract.
- Frame.Coerce: `to_numeric` of a parsed timestamp is modelled as missing. The source coerces only columns that hold numbers or text.
- The app recomputes the window from the session's table on every rerun. The model does not carry `df_window` between reruns, and neither does the source.

## Behaviour worth noting

The model follows the code:

- The cursor is not reset when the data reloads or on manual refresh (`Session.Reload`, `Session.ManualRefresh`). Rows of the new data at or before the cursor all show at once, and the cursor does not move back to replay them. Rows after the cursor show only as playback reaches them.
- `_harmonize` keeps an existing `emissions_tonnes` column (only coerced), even when `co2_kg` is present.
- A failed CSV read or missing columns skip the round and are retried. They are never fatal; only a missing file at start is.
- A `float` conversion error on a power or CO2 value is not caught: it ends the process with exit code 1 in the middle of a round, after part of the round was sent (`ReplayCrashes`, `Run`).
- `last_vals` persists across rounds. A second replay of the same table is quiet if and only if each facility's reading is constant within it (`SecondRoundQuietIffSteady`). A facility whose readings vary gets at least one message in every round that does not crash. A round that sends nothing for a facility only ever sees its remembered reading (`SilentFacility`), and two different readings cannot both equal it (`ReplayResendsVarying`).
