# Bounded sensor history and temperature conversion

This project models the core of a telemetry sampler for an HTU21 temperature and
humidity sensor. Once per interval, the sampler loads a JSON history document. If
no document exists, it builds a base one. It then appends the newest reading,
drops one reading when the history is longer than the configured maximum,
recomputes `count`, stamps `updated` and writes the document back. The model also
covers the helpers that express a Celsius reading in four scales and tag each
value with its unit symbol.

- `temperature.dfy`, module `Temperature`: `Convert.temperature` and
  `Format.temperatures` from `axe/util.py`. These are pure functions over `real`.
  The linear formulas hold exactly; floating-point rounding is not modelled.
- `history.dfy`, module `History`: the document (`Doc`), `create_base_object`,
  `read_file` and the `reset` branch as functions.
  - Storage is an `Option<Doc>` value. `None` means there is no history file.
  - The loop body is the class `Document`, whose method `AppendCycle` updates
    the loaded document in place. `RunCycle` strings load, append and write
    together.
  - The specification function `Cycle` and the lemmas about it, `Appended` and
    `Replay`, state the buffer's invariants. They are: the length bound is
    kept, `count` equals the number of readings, at most one reading is
    evicted, the oldest reading goes first, and the latest `maxCount` readings
    are retained over any number of cycles.

The sensor reading, the clock and the configuration are parameters. The
maximum count and the interval are integers. `updated` is stamped from one
captured instant `now` that carries both the ISO string and the epoch seconds.

### Where the model departs from the code as written

- The base document's `data` is created as `{}` (history.py:47) but is used as a
  list (history.py:73). The model uses a sequence.
- The loop reaches document entries as attributes and calls `push`
  (`data.data.push`, history.py:73-81). A loaded JSON dictionary supports
  neither. The model reads these as the evident field updates and list append.
- Eviction: history.py:76 calls `pop()`, which removes the reading just
  appended (see Findings). The model evicts the oldest reading. It still evicts
  at most one per cycle, as the code does. It does not trim repeatedly until the
  length equals the maximum.
- `MAX_COUNT` and `SLEEP_DURATION` come from `os.getenv` and would be strings
  when set (history.py:10-11). The model takes them as integers.
- The source writes the file in place. Storage here is an abstract value that
  is replaced whole, so a torn write cannot be expressed.

## Model

| member | source | states |
|---|---|---|
| `Temperature.Convert` | axe/util.py:12-22 | the Celsius value is returned unchanged; Fahrenheit is 9/5·C + 32, Rankine is Fahrenheit + 459.67, Kelvin is C + 273.15; the derived identity Rankine = Kelvin · 9/5 holds |
| `Temperature.CelsiusFromKelvin` | axe/util.py:16 | inverse of the Kelvin formula: converting its result gives back the Kelvin value |
| `Temperature.CelsiusFromFahrenheit` | axe/util.py:14 | inverse of the Fahrenheit formula: converting its result gives back the Fahrenheit value |
| `Temperature.ConvertRoundTrip` | axe/util.py:14-16 | Celsius is recovered from the Kelvin and from the Fahrenheit value of its conversion |
| `Temperature.ConvertStrictlyIncreasing` | axe/util.py:14-16 | every one of the four scales is strictly increasing in Celsius |
| `Temperature.Format` | axe/util.py:37-44 | the four values are carried over unchanged (stripping the symbols gives back the input), tagged with the symbols °C, °F, °R, K in that order |
| `History.BaseObject` | history.py:44-54 | the base document has no readings, count 0, the configured interval and the creation stamp; it satisfies the document invariant for every non-negative maximum |
| `History.ReadFile` | history.py:37-42 | a stored document is returned unchanged; with no stored document the result is the empty base document for the configured interval |
| `History.Reset` | history.py:63-67 | whatever was stored, storage afterwards holds a document with no readings, count 0 and the configured interval |
| `History.ResetThenLoad` | history.py:63-67 | loading right after a reset yields exactly the base document written by the reset, count 0 |
| `History.Appended` | history.py:73-76 | the length grows by one unless it then exceeds the maximum, when it stays the same; the result is the old readings plus the new one, minus the oldest when one is evicted; below the maximum it is old + [reading]; at the maximum it is old[1..] + [reading]; a length within the maximum stays within it |
| `History.AppendedAsWritten` | history.py:73-76 | the code as written: below the maximum the reading is appended; at or above it the readings are left exactly as they were |
| `History.Cycle` | history.py:73-81 | one cycle yields the appended readings, count equal to their number, the interval unchanged, and both `updated` entries equal to the one captured stamp; a well-formed document stays well-formed |
| `History.Document.Load` | history.py:71 | the loaded object holds exactly the fields of the given document |
| `History.Document.AppendCycle` | history.py:73-81 | in place, the document becomes `Cycle` of its old value: readings as `Appended`, count equal to their number, interval unchanged, `updated` equal to `now`, the length bound kept |
| `History.RunCycle` | history.py:71-83 | the written document is one cycle applied to the loaded (or initialised) document; its count matches its readings and its stamp is `now`; the first cycle with no file writes just the new reading and the configured interval; a well-formed stored document stays well-formed |
| `History.ReplayKeepsLatest` | history.py:70-83 | starting within the bound, any number of cycles leaves exactly the `maxCount` most recent readings, in chronological order (all of them while there are fewer) |
| `History.EvictOldestScenario` | history.py:73-78 | with maximum 3, cycles with epochs 100, 160, 220, 280 from the base document leave epochs [160, 220, 280], count 3 and the last stamp |
| `History.EvictNewestScenario` | history.py:76 | as written, the same four appends leave epochs [100, 160, 220]: the newest reading is dropped once the history is full |

## Findings

| source | as written | input that shows it | evidently intended | confidence | as-written member | corrected member |
|---|---|---|---|---|---|---|
| history.py:76 | `data.data.pop()` removes the last element, which is the reading appended on line 73; once the history is full, every later cycle leaves the readings unchanged | maximum 3, readings with epochs 100, 160, 220, 280 give epochs [100, 160, 220] | evict the oldest reading, giving [160, 220, 280] and keeping the most recent samples | high; not executed | `History.EvictNewestScenario` | `History.EvictOldestScenario` |

## Left out

- Dew point (`Convert.calculateDewPoint`, axe/util.py:25-32): it uses floating-point `pow` and `log10`, is singular at 100 % relative humidity, and calls names that do not exist (`Convert.convertTemperature`, `Format.Temperatures`).
- `Format.humidity` (axe/util.py:47-50) and the humidity part of a reading: they depend on the dew point. `Reading` carries only its stamp and its formatted temperature.
- `get_reading` (history.py:20-31): it reads the sensor and the clock. The reading is a parameter of the cycle. Its humidity clamp `max(rh, 100)` (history.py:23) is inverted and is not modelled.
- `Format.float` (axe/util.py:53-54): rounding of floats is outside an exact `real` model.
- JSON file I/O (`File.read`, `File.write`, axe/util.py:56-65; `write_file` and `os.path.exists`, history.py:33-42): storage is an `Option<Doc>` value, and a write is the document returned by `RunCycle`. A corrupt or unparsable file is not modelled.
- Sensor driver `Htu21.read` (axe/util.py:68-73): hardware access.
- `TimeStamp` (axe/util.py:75-87): clock reads and ISO formatting. Timestamps are `Stamp` parameters. The code as written would fail, since it calls `Timestamp.epoch` from `sqlite3` and calls `time(date_time)`.
- Signal handling and `sys.exit` (history.py:56-60), `sleep` and the endless loop itself (history.py:70, 84): one cycle is modelled, and repeated cycles appear only in `Replay`.
- Logging (history.py:13-16, 34, 39, 41, 65), environment parsing (history.py:10-11) and command-line handling (history.py:63, where `len(sys.argv > 1)` would raise). The reset is modelled as its own operation.
- main.py: an HTTP route with a hard-coded reading. Its `convertTemperature` duplicates axe/util.py with rounding and a different Rankine offset (484.87).
