# pylarexx data listeners, modelled in Dafny

pylarexx reads sensor readings and hands each one to its configured *data
listeners* through `onNewData`. This project models the two listeners in
`datalogger/DataListener.py` that keep state:

- **RecentValuesListener** keeps the latest reading of every sensor in a dict
  (`values`), filed under the reading's `sensorid`. It starts a TCP server when
  constructed; if that fails, every later reading that carries a usable
  `sensorid` retries the start until one succeeds (`ready`). Every client that connects gets the whole dict as text,
  one `'\n'`-terminated line per sensor, in the dict's order.
- **FileOutListener** appends one line per reading to a log file. Its `status`
  is `'not initialized'`, `'ready'` or `'error'`. While not ready, each reading
  retries opening the file. A failure while writing runs `cleanup`, which drops
  the file and resets the status, so the next reading opens it again.

Modules:

- `Wrappers` (wrappers.dfy): `Option`, for Python's `None` and for conversions
  that can fail.
- `Text` (text.dfy): `%d` of an integer (`DecimalText`), `int()` of a decimal
  string (`ParseInt`), occurrence counting, and `join`/`split` on one character.
- `Readings` (readings.dfy): the reading record, the `params` dict, and the
  signal column that both listeners write.
- `RecentValues` (recent_values.dfy): the dict (`Table`), the query response
  (`QueryLine`, `Items`, `Render`), the server (`QueryServer`, whose `Setup` is
  the per-connection handler) and `RecentValuesListener`.
- `FileOut` (file_out.dfy): the log line (`FileLine`) and `FileOutListener`.

How the model stands in for the environment:

- The dict keeps Python's insertion order. `Table.keys` lists the ids in the
  order `values.items()` yields them. Assigning to a known key keeps its place;
  a new key goes last.
- The request handler class is defined inside `openListeningPort` and uses the
  listener's own `values` dict. So `QueryServer` holds the same `Table` object
  as the listener, and each `Setup` call reads the table as it is at that
  moment. `RecentValuesListener.server` stands for the server object that the
  daemon thread keeps alive; the source stores no such field on the listener.
- Whether the server starts (`bindOk`), whether `open(filename, 'a')` succeeds
  (`openOk`) and whether formatting and writing a line succeed (`writeOk`) are
  given to the methods as booleans. `int(port)` is modelled exactly for integer
  ports and for decimal strings. A string that is not a decimal number makes
  the start fail whatever `bindOk` says.
- `RecentValuesListener.history` (ghost) is every reading delivered so far. The
  listener invariant ties the table to it: `entries == Latest(history)` and
  `keys == FirstSeen(history)`. The lemmas about `Latest` and `FirstSeen` state
  last-write-wins in terms of delivery order.
- `FileOutListener.appended` (ghost) is the sequence of lines written to the
  file. The ghost counters `openCount` and `closeCount` show that at most one
  file is open at a time, and that it is open exactly when the status is
  `'ready'`.

Behaviour of the code worth noting:

- A query line separates the cooked value from its unit with a space
  (`'%d,%f %s,...'`), not a comma. A line therefore has six comma-separated
  columns for any reading whose text fields hold no comma or newline
  (`QueryLineColumns`); `QueryLineExample` shows one such line.
- FileOutListener's `except` branch calls `logging.ERROR(...)`. `logging.ERROR`
  is an integer constant, so the call raises `TypeError` after `cleanup` has
  run, and the error leaves `onNewData`. `FileOut.FileOutListener.OnNewData`
  reports this as `raised`.

## Model

| member | source | states |
|---|---|---|
| Readings.SignalText | datalogger/DataListener.py:103-106 | the signal column is `-` when the reading has no signal and the signal's text otherwise; `-` appears for no present signal whose text is not `-`; both listeners use this one definition (the second copy is at lines 75-78) |
| Text.DecimalText | datalogger/DataListener.py:107 | `%d` of an integer is non-empty, made of digits with a leading `-` exactly for negative numbers, so it never holds a comma or a newline |
| Text.ParseInt | datalogger/DataListener.py:120 | `int()` of a string succeeds exactly on an optional sign followed by one or more ASCII digits; unsigned and `+` texts are non-negative, `-` texts non-positive |
| Text.ParseIntSigns | datalogger/DataListener.py:120 | a `+` in front of a digit string keeps its value and a `-` negates it |
| Text.ParseIntDecimalText | datalogger/DataListener.py:118-120 | `int()` of the `%d` text of any integer gives back that integer |
| Readings.Get | datalogger/DataListener.py:50 | `params.get(key, default)` gives the value stored under the key when there is one and the default otherwise (also lines 117-118) |
| Readings.ToInt | datalogger/DataListener.py:120 | `int(port)` succeeds exactly for an integer or for a string that is an integer literal |
| Readings.ToIntAgrees | datalogger/DataListener.py:120 | an integer port and its decimal text give the same number |
| RecentValues.ListenAddress | datalogger/DataListener.py:117-120 | host defaults to `'localhost'` and port to 4711; an integer port is used as it is; a string port gives the number `int()` reads from it; the start is impossible exactly when the port is a string that `int()` rejects |
| RecentValues.Table.constructor | datalogger/DataListener.py:90 | `{}`: a dict with no keys and no entries |
| RecentValues.Table.Put | datalogger/DataListener.py:130 | `values[k] = v` maps k to v and keeps every other entry; a known key keeps its place in the order, a new key is appended; keys stay distinct and match the entries |
| RecentValues.Items | datalogger/DataListener.py:102 | `values.items()` yields one pair per listed key, in key order; each pair holds its key's current value; when every entry's key is listed, the ids shown are exactly the dict's keys; when keys are distinct, no id is shown twice |
| RecentValues.Render | datalogger/DataListener.py:101-108 | the response is empty exactly when the table is empty |
| RecentValues.QueryServer.Setup | datalogger/DataListener.py:100-109 | each connection's response is the concatenation, in `items()` order, of the query line of every (id, reading) pair in the table at that moment |
| RecentValues.QueryServer.constructor | datalogger/DataListener.py:96-98 | the server's handler reads the listener's own table object, not a copy |
| RecentValues.QueryColumns | datalogger/DataListener.py:107 | a query line has six columns, and each is free of commas and newlines when the reading's text fields are |
| RecentValues.QueryLineFrame | datalogger/DataListener.py:107 | a query line starts with the `%d` text of the id followed by a comma, and ends with a newline |
| RecentValues.QueryLineColumns | datalogger/DataListener.py:107 | a query line ends in its only newline, and the text before it splits at the commas back into exactly: id, cooked value and unit (one column), timestamp, signal, type, name |
| RecentValues.QueryLineExample | datalogger/DataListener.py:107 | id 3, cooked `21.400000`, unit `°C`, timestamp 1700000000, no signal, type `DS18B20`, name `kitchen` gives the columns `3`, `21.400000 °C`, `1700000000`, `-`, `DS18B20`, `kitchen` |
| RecentValues.RenderLineCount | datalogger/DataListener.py:101-108 | with plain columns the response holds exactly one newline per table entry |
| RecentValues.RenderAt | datalogger/DataListener.py:102-107 | the response is the lines of the entries before an entry, that entry's line, then the lines of the entries after it |
| RecentValues.RenderPutNew | datalogger/DataListener.py:129-130 | a reading for a new id adds its line after all the earlier lines, which stay unchanged |
| RecentValues.RenderPutExisting | datalogger/DataListener.py:129-130 | a reading for a known id replaces that id's line at its place; every other line stays unchanged |
| RecentValues.ItemsPutNew | datalogger/DataListener.py:130 | assigning a new key appends one (key, value) pair to `items()` |
| RecentValues.ItemsPutExisting | datalogger/DataListener.py:130 | assigning a known key replaces its pair in `items()` in place |
| RecentValues.LatestDomain | datalogger/DataListener.py:129-130 | after any sequence of readings, the table has an entry for exactly the ids that some reading carried; its key order lists exactly those ids, each once |
| RecentValues.LatestWins | datalogger/DataListener.py:130 | the entry for an id is the last reading delivered with that id, whatever the timestamps of it and of the earlier ones |
| RecentValues.LatestIsDelivered | datalogger/DataListener.py:130 | every entry is a delivered reading, filed under its own id, and no reading delivered after it had that id |
| RecentValues.FirstSeenPlace | datalogger/DataListener.py:130 | every delivered id has a place in the key order |
| RecentValues.ResponseShowsLastReading | datalogger/DataListener.py:101-109 | after any sequence of readings, the response shows each id's last delivered reading as its line, at the place where the id was first seen |
| RecentValues.RecentValuesListener.constructor | datalogger/DataListener.py:88-92 | empty table, no readings, exactly one start attempt, and `ready` holds exactly when that start succeeded; then a fresh server listens on `ListenAddress(params)` |
| RecentValues.RecentValuesListener.OpenListeningPort | datalogger/DataListener.py:94-127 | one start attempt on the configured address; success starts a server over the listener's table and sets `ready`; failure changes nothing but the attempt count; `ready` is never reset |
| RecentValues.RecentValuesListener.OnNewData | datalogger/DataListener.py:129-132 | stores the reading under its id (last write wins), keeps every other entry and every key, records it in the history, and retries the start exactly when not ready; a successful retry gives a fresh server on `ListenAddress(params)`, and a ready listener keeps its server |
| FileOut.FileColumns | datalogger/DataListener.py:79 | a log line has seven columns, and each is free of commas and newlines when the reading's text fields are |
| FileOut.FileLineFrame | datalogger/DataListener.py:79 | a log line starts with the `%d` text of the sensor id followed by a comma, and ends with a newline |
| FileOut.FileLineColumns | datalogger/DataListener.py:79 | a log line ends in its only newline, and splits at the commas into exactly seven columns: id, raw value, cooked value and unit, timestamp, signal, name, type |
| FileOut.FileOutListener.constructor | datalogger/DataListener.py:48-52 | file name from `params` (default `/tmp/pylarexx.out`), then one open: `'ready'` with the file open on success, `'error'` with no file on failure; nothing written yet |
| FileOut.FileOutListener.OpenLogfile | datalogger/DataListener.py:60-67 | success opens the file and sets `'ready'`; failure sets `'error'` and leaves no file open |
| FileOut.FileOutListener.Cleanup | datalogger/DataListener.py:54-58 | with a file open, closes and drops it and sets `'not initialized'`; with none, changes nothing |
| FileOut.FileOutListener.OnNewData | datalogger/DataListener.py:69-82 | reopens exactly when not `'ready'`; writes the reading's line exactly when `'ready'` after that and the write succeeds; a failed write runs `cleanup` and the error escapes (`raised`); at most one file is ever open |

## Left out

- TCP machinery: `socketserver.TCPServer`, `ThreadingMixIn`, `serve_forever`, `sendall` and the UTF-8 encoding of the response. Only the response string is modelled. Whatever makes a start fail (a taken port, a host that is not a string, a port out of range, a thread that does not start) is the `bindOk` argument.
- Threads: the daemon server thread, and handlers reading `values` while `onNewData` changes it. The model is sequential: each `Setup` call sees the table between two deliveries.
- Real file I/O: `open`, `write` and `close` are the `openOk` and `writeOk` outcomes plus the `appended` ghost sequence. A write that fails part-way appends nothing in the model. `close()` is taken to succeed.
- `sensor.rawToCooked`, `sensor.unit`, `.name` and `.type` belong to sensor objects that are not part of this model. Their outputs are fields of the reading record. The `%f` text of the cooked value and `str(signal)` are opaque strings.
- Raw values and timestamps are integers. The `%d` truncation of a float value is not modelled.
- A reading without `sensorid`, or with a value that cannot be a dict key, raises at `self.values[data['sensorid']] = data` itself: nothing is stored, the start is not retried, and the error leaves `onNewData`.
- A reading that carries a usable `sensorid` but lacks another field, or whose other fields have the wrong type, raises while its line is formatted. In FileOutListener this is one way `writeOk` is false. `onNewData` of RecentValuesListener stores such a reading without formatting it, so the bad reading stays in `values`. From then on every query's `setup` raises at that entry, and each connection is closed with no response, until a new reading for that id replaces it. The model has no malformed readings, so it does not capture this.
- LoggingListener: it only logs, through `time.strftime` and `.2f` float formatting, and keeps no state.
- The `DataListener` base class: the two listeners are separate classes with their own `OnNewData`, and no common interface type is declared. `params` is kept as a constant field.
- Logging calls are not modelled. The one exception is the `TypeError` raised by `logging.ERROR(...)`, which is reported as `raised`.
- Configuration values other than strings and integers (floats, booleans, lists) are not modelled.
- Text.ParseInt: accepts an optional sign followed by ASCII digits. Python's `int()` also accepts surrounding whitespace, `_` between digits and non-ASCII digits; the model reads such ports as starting failures.
- FileOut.FileOutListener.OpenLogfile: requires that no file is open (status not `'ready'`). Both callers in the source meet this. The model therefore does not capture the handle that a second open would leak (the source marks this with `TODO: close file`).
- Before the first successful open, FileOutListener has no `fd` attribute at all; the model writes None for it. The two are indistinguishable, because `cleanup` is only reached after a successful open.
