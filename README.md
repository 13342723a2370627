# mmWave radar sensor component, modelled in Dafny

This project models the logic of the `Mmwave` sensor component in
`src/main.py`. The component wraps an `LD2410` radar driver for a robotics
module registry. It owns two things:

- **The frame-to-reading decoder** (`get_readings`), in `readings.dfy`,
  module `Readings`. It is pure. Its inputs are whether the component holds
  a handle and what the driver's `get_data()` gives. Its result is the
  six-key dictionary `detection_status`, `moving_distance_cm`,
  `moving_energy`, `static_distance_cm`, `static_energy`,
  `overall_distance_cm`, or an exception that escapes. The dictionary is a
  `map<string, FieldValue>`, so "every path returns the same six keys" is a
  proved fact (`Shaped`) and not a consequence of the types.
- **The radar-handle lifecycle** (`new`, `reconfigure`), in `adapter.dfy`,
  module `Adapter`. Class `Mmwave` has the field `radar: Option<Ld2410>`.
  Each driver step (`stop()`, the `LD2410(...)` construction, `start()`,
  `get_data()`) is an abstract call. Whether it raises is an input: a
  `DriverOutcomes` value, or a `Fetch` for `get_data()`. A ghost log
  `calls` records every driver call and whether it raised.
  `ReconfigureTrace` gives the exact calls of one `reconfigure`.
  `Running(log)` gives the handles that were started and not stopped since.

`wrappers.dfy` holds the `Option` datatype (Python's value-or-`None`).

How Python details are modelled:

- `data` from `get_data()` is `Option<seq<Item>>`. `None` and the empty list
  are falsy. `Item` is a Python list of numbers (`ListItem`) or anything
  else (`OtherItem`), which is what `isinstance(data[0], list)` tests.
- Unpacking `data[0]` into six names raises `ValueError` unless it has
  exactly six elements. The model returns that as `Raised(ValueError)`.
  The source does not catch it.
- An exception from `get_data()` is not caught either. It is
  `Raised(DriverError)`.
- `if self.radar:` and `if not self.radar:` are read as "a handle is held".
  A driver object is truthy.
- `{...}.get(detection_type, "Unknown")` is a lookup in the map
  `StatusTable`, with a default.

Three details of the code shape the model:

- Only a *list* is accepted as `data[0]`. A tuple frame gives "No Data".
- A list frame whose length is not 6 raises `ValueError`. `get_readings`
  does not catch it.
- `do_command` and `get_geometries` are nested in `get_readings` after
  every `return`, so they are never defined (see "Left out").

## Model

| member | source | states |
|---|---|---|
| Readings.DetectionStatus | src/main.py:107-112 | the status is "Unknown" exactly when the detection type is not one of the table's keys 0-3; it is never "Error" or "No Data" |
| Readings.DetectionType | src/main.py:107-112 | reverse lookup of the table: it gives a type exactly when some table entry maps that type to the text, and none when no entry does |
| Readings.DetectionStatusTable | src/main.py:107-112 | 0, 1, 2 and 3 map to "No Target", "Moving Target", "Static Target" and "Moving and Static Targets"; every other value maps to "Unknown" |
| Readings.DetectionStatusRoundTrip | src/main.py:107-112 | the table is injective on 0-3: reverse lookup of the status of a table type recovers that type |
| Readings.DetectionTypeRoundTrip | src/main.py:107-112 | a type recovered by reverse lookup looks up to the same status text |
| Readings.ZeroReading | src/main.py:92-99 | the degraded reading has all six keys, the given status and the five numbers 0 |
| Readings.FrameReading | src/main.py:115-122 | a decoded frame gives a reading with exactly the six keys, a text status and five numeric fields |
| Readings.FrameFieldsCopied | src/main.py:104-122 | elements 1-5 of the frame appear unchanged and in order as the five numeric fields; the status is the table lookup of element 0 |
| Readings.FrameRoundTrip | src/main.py:104-122 | a frame whose type is in the table can be recovered from its reading |
| Readings.ReadingRoundTrip | src/main.py:104-122 | conversely, every well-formed reading with a table status is the decoding of the frame recovered from it |
| Readings.UnknownTypesIndistinguishable | src/main.py:107-112 | two frames that differ only in an out-of-table type decode to the same reading |
| Readings.DecodeData | src/main.py:103-132 | after `get_data()`: a returned reading always has the six keys; `ValueError` escapes exactly when `data` is non-empty, `data[0]` is a list, and its length is not 6 |
| Readings.ReadingsFor | src/main.py:90-132 | every returned reading has exactly the six keys; an exception escapes exactly when a handle is held and either `get_data()` raises (the driver's error) or `data[0]` is a list whose length is not 6 (`ValueError`); without a handle the call always returns |
| Readings.StatusIdentifiesPath | src/main.py:90-132 | status "Error" exactly when there is no handle; "No Data" exactly when the handle's data is falsy or `data[0]` is not a list; both are zero-filled; otherwise the fields are the frame's and the status is its table lookup |
| Readings.MovingTargetExample | src/main.py:103-122 | the frame `[[1, 150, 80, 0, 0, 150]]` gives "Moving Target" with distances 150, 0, 150 and energies 80, 0 |
| Adapter.Mmwave.New | src/main.py:38-41 | the driver calls are exactly one reconfigure from no handle: a construction, then `start()` on the handle it built if it did not raise; the component ends either with no handle or with that fresh handle on `/dev/ttyUSB0`, started; `stop()` is never called; no handle runs except the one held |
| Adapter.Mmwave.Reconfigure | src/main.py:57-78 | the driver calls are exactly `ReconfigureTrace`: stop of the old handle, then construction, then `start()` of the new one, each only if the previous step did not raise; the field ends with the new handle if no step raised, otherwise with none; nothing escapes; with a `stop()` that does not raise, no handle runs except the one held, provided none did before |
| Adapter.Mmwave.GetReadings | src/main.py:81-132 | the outcome is `ReadingsFor` of the held handle and the driver's data; `get_data()` is called, and logged, only when a handle is held; the handle does not change |
| Adapter.ReconfigureRunning | src/main.py:66-78 | after one reconfigure, the running handles are unchanged if `stop()` raised; otherwise the old handle has stopped, and the new handle runs exactly when the whole reconfiguration succeeded |
| Adapter.ReconfigureKeepsNoStrayHandle | src/main.py:66-78 | if `stop()` does not raise, "no running handle other than the held one" is preserved by reconfigure |
| Adapter.StopFailureDropsRunningHandle | src/main.py:66-78 | if `stop()` raises on a running handle, the field ends absent while that handle, as far as the calls show, is still running |
| Adapter.ReconfigureOrder | src/main.py:67-73 | an existing handle is stopped first; nothing is constructed if that stop raises; `start()` is called only on the handle just constructed, right after its construction |

## Left out

- The `LD2410` driver and `serial`: UART framing, firmware commands and the
  background polling thread. Their steps are abstract calls whose failure is
  an input. What a failed `stop()` or `start()` leaves running inside the
  driver is not known. `Running` counts only successful starts and stops.
- A handle whose `start()` raised is dropped without `stop()`. Whatever its
  construction opened (the serial port) is not tracked.
- `time.sleep(2)` after `start()`, and all logging calls. They have no
  effect on the component's state.
- `super().new` already calls `reconfigure` once, before line 39 creates
  the `radar` attribute. In that call `if self.radar:` fails on the missing
  attribute, and the `except Exception` sets `radar` to none before any
  driver call. The final state and the driver calls are therefore the same
  as in the single `reconfigure` that `Mmwave.New` models.
- `validate_config`, which always returns an empty list, and the framework
  plumbing: `MODEL`, the rest of `super().new`, the `config`, `dependencies`, `extra` and
  `timeout` parameters, `async`, and `Module.run_from_registry`.
- `do_command` and `get_geometries`: local functions nested in `get_readings`
  after every `return`. They are never reached or defined, and would only
  raise `NotImplementedError`.
- `vjsyong_example.py`: a hardware demo made of driver calls and prints. Its
  decoding repeats the one modelled here.
- Values in a frame are modelled as integers. Python copies whatever the
  driver puts there unchanged. Python's dictionary key order is not modelled.
- Concurrency between `reconfigure`, `get_readings` and the driver's polling
  thread is not modelled. Each method is one atomic step.
