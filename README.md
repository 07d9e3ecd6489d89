# Cistern node and TDS calibration tool: a Dafny model

This project models the decision logic of the cistern node firmware (an ESP32
board that measures the water level with an ultrasonic sensor and the water
quality with a TDS probe). The node drives a pump relay, takes pump commands over
MQTT and takes calibration commands on a UART. The project also models the
small calibration tool, which has its own console; the tool is modelled with
the node's TDS engine.

Hardware and SDK services are inputs to the model:

- an ADC sampler (attempt index → sample or failure);
- the outcome of an ultrasonic echo (a measured distance or one of the two timeouts);
- the per-call status of every NVS read and write;
- whether the shared-record lock was obtained in time;
- whether MQTT is connected;
- the clock in microseconds.

The NVS namespace is a `map<string, real>`. The module statics of each C file
become the fields of a class. Most class methods are proved against a pure
specification function whose properties are proved as lemmas. The methods with
no such function (`SetPumpRelay`, `ReadSensorData`, `ReadUltrasonic`,
`IsConnected`, `Disconnect`, `DoShow`) state their whole new state and return
value directly in their contracts.

| module (file) | models |
|---|---|
| `Esp` (esp.dfy) | `esp_err_t` codes, out-pointers (`Ptr`), 32-bit truncation |
| `CString` (cstring.dfy) | C strings: NUL termination, `strcmp`, `strcasecmp`, `strncmp` |
| `Storage` (storage.dfy) | `storage_save_float` / `storage_load_float` over a key→value map |
| `AdcDriver` (adc_driver.dfy) | the `adc_read_raw` averaging loop |
| `Tds` (tds.dfy) | the two-point calibration engine: offset, gain, last raw reading, persistence |
| `Sensor` (sensor.dfy) | classification, the sensor record, the ultrasonic/TDS readers, the calibration wrappers |
| `Tasks` (tasks.dfy) | the pump relay, the mutex-guarded shared record, `tasks_init`, one sensor-loop iteration |
| `Cistern` (cistern.dfy) | `main.c` of the node: MQTT commands, the automatic pump rule, publishing, the UART line reader, the console newline strip |
| `CalibrationConsole` (calibration_console.dfy) | `console_task` of the calibration tool |
| `Wifi` (wifi.dfy) | the WiFi retry machine, `wifi_is_connected`, `wifi_disconnect`, the argument check of `wifi_init` |

Where the behaviour of the code and the system's design description differ,
the model follows the code:

- **Order of the automatic pump rules.** The control task tests "level low and
  water not dirty" before "level high or water dirty". The design's rule table
  tests the high level first, then dirty water, then the low level. The two
  orders give the same decision on every input, because a level cannot be both
  below 20 cm and above 180 cm. `Cistern.AutoRelayFollowsRuleTable` proves this.
- **Manual mode.** The design says the loop drives the relay from the override
  mode on every tick. In the code, the MQTT handler sets the relay once when the
  command arrives, and while the override is on the control task leaves the
  relay alone.
- **Failed TDS read.** The design treats a failed TDS read as a sentinel that is
  classified as clean. In the code, `sensor_read_tds` never fails once given a
  destination. A negative ppm is clamped to 0 (which classifies as clean), and
  the record's negative-value branch is never taken.
- **Failed level read.** A failed level read is stored as −1 cm. The automatic
  rule then counts it as a low level and starts the pump unless the water is
  dirty (`Cistern.FailedLevelCountsAsLow`).

## Model

| member | source | states |
|---|---|---|
| Esp.ToU32 | Proyecto/Nodo_Cisterna/components/sensors/sensor.c:316 | a cast to `uint32_t` gives a value below 2^32 that is unchanged when it already fits |
| CString.CStr | Proyecto/Nodo_Cisterna/main/main.c:219 | the C string in a buffer is its longest NUL-free prefix, ended by the terminator or by the end of the buffer |
| CString.StrNEqIsPrefix | Proyecto/Nodo_Cisterna/main/main.c:51 | `strncmp(a, lit, len(a)) == 0` holds exactly when a is a prefix of lit |
| Storage.Written | Proyecto/Nodo_Cisterna/components/storage/storage.c:25-39 | a successful write binds the key to the value and keeps every other key; a failed write changes nothing |
| Storage.ReadOutcome | Proyecto/Nodo_Cisterna/components/storage/storage.c:41-57 | a read succeeds exactly when the NVS call succeeds and the key is present |
| Storage.Nvs.SaveFloat | Proyecto/Nodo_Cisterna/components/storage/storage.c:25-39 | returns the NVS status and updates the map as `Written` says |
| Storage.Nvs.LoadFloat | Proyecto/Nodo_Cisterna/components/storage/storage.c:41-57 | returns the outcome `ReadOutcome` gives, with the stored value on success |
| AdcDriver.EffectiveSamples | Proyecto/Calibrar_TDS/components/adc_driver/adc_driver.c:50 | a non-positive sample count becomes 10; a positive one is kept |
| AdcDriver.Failures | Proyecto/Calibrar_TDS/components/adc_driver/adc_driver.c:52-60 | at most n of n attempts fail |
| AdcDriver.SumOk | Proyecto/Calibrar_TDS/components/adc_driver/adc_driver.c:51-60 | the sum of the successful readings is never negative when the readings are not |
| AdcDriver.CDiv | Proyecto/Calibrar_TDS/components/adc_driver/adc_driver.c:61 | C integer division: for a ≥ 0, q·b ≤ a < q·b + b; for a < 0, q·b − b < a ≤ q·b (the quotient is truncated toward zero) |
| AdcDriver.AverageTruncates | Proyecto/Calibrar_TDS/components/adc_driver/adc_driver.c:50-62 | the result is the sum of the successful readings divided by the effective sample count (failures included), truncated toward zero |
| AdcDriver.ReadRaw | Proyecto/Calibrar_TDS/components/adc_driver/adc_driver.c:48-63 | the loop returns the sum of the successful readings among the first `samples` attempts, divided by `samples` |
| AdcDriver.SumOkUsesFirstAttempts | Proyecto/Calibrar_TDS/components/adc_driver/adc_driver.c:52-60 | the sum depends only on the first n attempts |
| AdcDriver.AverageUsesExactlyTheAttempts | Proyecto/Calibrar_TDS/components/adc_driver/adc_driver.c:50-62 | two samplers that agree on the first `samples` (or 10) attempts give the same average |
| AdcDriver.SumOkOfFailures | Proyecto/Calibrar_TDS/components/adc_driver/adc_driver.c:54-58 | failed attempts add nothing to the sum and are all counted as failures |
| AdcDriver.AllFailuresGiveZero | Proyecto/Calibrar_TDS/components/adc_driver/adc_driver.c:51-62 | when every attempt fails the result is 0 |
| AdcDriver.SumOkBounded | Proyecto/Calibrar_TDS/components/adc_driver/adc_driver.c:51-60 | readings in [0, M] give a sum in [0, successes × M] |
| AdcDriver.AverageBounded | Proyecto/Calibrar_TDS/components/adc_driver/adc_driver.c:51-62 | readings in [0, M] give an average in [0, M] |
| AdcDriver.SumOkOfConstant | Proyecto/Calibrar_TDS/components/adc_driver/adc_driver.c:52-60 | when every success reads v, the sum is successes × v |
| AdcDriver.FailuresDiluteAverage | Proyecto/Calibrar_TDS/components/adc_driver/adc_driver.c:54-61 | failed attempts still count in the divisor: with constant readings v the result is (successes × v) / samples |
| Tds.PointA | Proyecto/Nodo_Cisterna/components/tds/tds.c:50-54 | point A makes the raw value the offset and keeps the gain |
| Tds.PointB | Proyecto/Nodo_Cisterna/components/tds/tds.c:56-65 | point B keeps the offset; a raw value equal to the offset changes nothing; otherwise gain × (raw − offset) = 1 |
| Tds.Ppm | Proyecto/Nodo_Cisterna/components/tds/tds.c:41-47 | a reading at the offset is 0 ppm; one at the gain's reciprocal distance is 1000 ppm |
| Tds.ZeroAtPointA | Proyecto/Nodo_Cisterna/components/tds/tds.c:41-54 | after point A at a, a raw reading of a gives 0 ppm |
| Tds.FullScaleAtPointB | Proyecto/Nodo_Cisterna/components/tds/tds.c:41-65 | after A(a) then B(b) with a ≠ b, a raw reading of b gives 1000 ppm |
| Tds.TwoPointLine | Proyecto/Nodo_Cisterna/components/tds/tds.c:41-65 | after A(a), B(b) with a ≠ b, every reading x gives 1000 × (x − a)/(b − a) |
| Tds.RejectedPointBKeepsReadings | Proyecto/Nodo_Cisterna/components/tds/tds.c:58-61 | a rejected point B leaves every calibrated reading as it was |
| Tds.Save | Proyecto/Nodo_Cisterna/components/tds/tds.c:67-73 | the offset is written first; its failure is returned with nothing written; otherwise the gain write's status is returned; Ok exactly when both succeed, and then both values are stored and every other key is kept; a failed gain write after a good offset write leaves the offset written |
| Tds.Load | Proyecto/Nodo_Cisterna/components/tds/tds.c:75-88 | each field is replaced only when its own read succeeds; Ok exactly when one of them does, Fail with the calibration unchanged otherwise |
| Tds.SaveLoadRoundTrip | Proyecto/Nodo_Cisterna/components/tds/tds.c:67-88 | after a successful save, a load with working reads returns Ok and exactly the saved calibration, whatever was in RAM |
| Tds.LoadIdempotent | Proyecto/Nodo_Cisterna/components/tds/tds.c:22-31 | loading twice from the same store (as `tds_init` and then `sensor_init` do) equals loading once |
| Tds.CaptureA | Proyecto/Nodo_Cisterna/components/sensors/sensor.c:232-237 | taking point A from a fresh sample stores that sample as the last raw reading, makes it the offset with the gain kept (so it reads 0 ppm), and leaves the store alone |
| Tds.CaptureB | Proyecto/Nodo_Cisterna/components/sensors/sensor.c:239-244 | taking point B from a fresh sample keeps the offset; the sample reads 1000 ppm unless it equals the offset, in which case nothing changes |
| Tds.Persist | Proyecto/Nodo_Cisterna/components/sensors/sensor.c:246-254 | saving reports the save's status and changes only the store |
| Tds.TdsEngine.constructor | Proyecto/Nodo_Cisterna/components/tds/tds.c:18-20 | initially offset 0, gain 1, last raw 0 |
| Tds.TdsEngine.Init | Proyecto/Nodo_Cisterna/components/tds/tds.c:22-31 | initialisation loads the stored calibration as `Load` says |
| Tds.TdsEngine.ReadRaw | Proyecto/Nodo_Cisterna/components/tds/tds.c:33-39 | the raw reading is the average of 20 ADC attempts, and it is kept as the last raw reading |
| Tds.TdsEngine.ReadPpm | Proyecto/Nodo_Cisterna/components/tds/tds.c:41-47 | a fresh raw reading is calibrated with the current offset and gain |
| Tds.TdsEngine.Calibrated | Proyecto/Nodo_Cisterna/components/tds/tds.c:44-46 | a raw value at the offset reads 0; one at the gain's reciprocal distance from the offset reads 1000; with a non-zero gain, any other raw value reads non-zero; the result is the calibrated reading `Ppm` |
| Tds.TdsEngine.SetCalibrationPointA | Proyecto/Nodo_Cisterna/components/tds/tds.c:50-54 | the offset becomes the reading; the gain is kept |
| Tds.TdsEngine.SetCalibrationPointB | Proyecto/Nodo_Cisterna/components/tds/tds.c:56-65 | the calibration becomes `PointB` of the old one |
| Tds.TdsEngine.SaveCalibration | Proyecto/Nodo_Cisterna/components/tds/tds.c:67-73 | status and store are those `Save` describes |
| Tds.TdsEngine.LoadCalibration | Proyecto/Nodo_Cisterna/components/tds/tds.c:75-88 | status and calibration are those `Load` describes |
| Sensor.Index | Proyecto/Nodo_Cisterna/components/sensors/sensor.h:9-13 | every water state is a valid index 0..2 into the label table |
| Sensor.Classify | Proyecto/Nodo_Cisterna/components/sensors/sensor.c:292-301 | below 300 is clean, 300 to 600 inclusive is medium, above 600 is dirty (each an if-and-only-if) |
| Sensor.ClassifyMonotone | Proyecto/Nodo_Cisterna/components/sensors/sensor.c:294-300 | a larger TDS value never gives a cleaner state |
| Sensor.Timestamp | Proyecto/Nodo_Cisterna/components/sensors/sensor.c:316 | the timestamp fits in 32 bits and, while the seconds since boot fit, is exactly the whole seconds of the microsecond clock |
| Sensor.ClampPpm | Proyecto/Nodo_Cisterna/components/sensors/sensor.c:276-280 | the reported TDS is never negative: a negative ppm becomes 0 and any other ppm is kept |
| Sensor.Record | Proyecto/Nodo_Cisterna/components/sensors/sensor.c:306-340 | the level is the distance when the ultrasonic read succeeded and −1 otherwise; the TDS is the clamped ppm and the state is its classification; the timestamp is the 32-bit seconds count |
| Sensor.Sensors.constructor | Proyecto/Nodo_Cisterna/components/sensors/sensor.c:18-23 | the pins start unset (−1) and the engine starts uncalibrated |
| Sensor.Sensors.Init | Proyecto/Nodo_Cisterna/components/sensors/sensor.c:38-126 | stores the pins; returns the first GPIO error; on success loads the calibration twice, which equals loading once |
| Sensor.Sensors.LevelStatus | Proyecto/Nodo_Cisterna/components/sensors/sensor.c:136-184 | with a destination, the level read returns Ok exactly when both pins are set and the echo was measured, INVALID_STATE exactly when a pin is unset, and TIMEOUT otherwise |
| Sensor.Sensors.ReadUltrasonic | Proyecto/Nodo_Cisterna/components/sensors/sensor.c:136-184 | a null destination gives INVALID_ARG before an unset pin gives INVALID_STATE; a timeout writes 0.0 and returns TIMEOUT; a measurement writes the distance |
| Sensor.Sensors.ReadTds | Proyecto/Nodo_Cisterna/components/sensors/sensor.c:272-282 | null gives INVALID_ARG; otherwise Ok with the clamped ppm of a fresh sample |
| Sensor.Sensors.ReadAll | Proyecto/Nodo_Cisterna/components/sensors/sensor.c:306-340 | null gives INVALID_ARG; otherwise Ok, even when a sensor fails, with the record `Record` describes |
| Sensor.Sensors.DoCalA | Proyecto/Nodo_Cisterna/components/sensors/sensor.c:232-237 | one fresh raw sample becomes point A |
| Sensor.Sensors.DoCalB | Proyecto/Nodo_Cisterna/components/sensors/sensor.c:239-244 | one fresh raw sample is applied as point B |
| Sensor.Sensors.DoSave | Proyecto/Nodo_Cisterna/components/sensors/sensor.c:246-254 | the store becomes what `Save` writes |
| Sensor.Sensors.DoShow | Proyecto/Nodo_Cisterna/components/sensors/sensor.c:256-261 | reports the current offset and gain and changes nothing |
| Tasks.TaskSystem.constructor | Proyecto/Nodo_Cisterna/components/tasks/tasks.c:17-24 | no mutex, relay pin unset, relay off, zeroed shared record |
| Tasks.TaskSystem.Init | Proyecto/Nodo_Cisterna/components/tasks/tasks.c:29-87 | null config gives INVALID_ARG; errors are reported in initialisation order; the relay pin is set only after the mutex and sensors succeed; once they succeed, the relay's GPIO status is the result; success leaves the relay off; the sensor pins are stored exactly when the mutex was created; the calibration changes only when sensor initialisation succeeds, and then becomes the double load from the store |
| Tasks.RelayWritesAfter | Proyecto/Nodo_Cisterna/components/tasks/tasks.c:164-180 | a relay request adds one GPIO write, on the relay pin with level 1 exactly for ON, exactly when the pin is set and the state changes; otherwise the writes are kept |
| Tasks.TaskSystem.SetPumpRelay | Proyecto/Nodo_Cisterna/components/tasks/tasks.c:164-180 | an unset pin gives INVALID_STATE with nothing changed; otherwise the state becomes the request; the GPIO writes are those `RelayWritesAfter` gives, one write of 1/0 exactly when the state changes |
| Tasks.TaskSystem.ReadSensorData | Proyecto/Nodo_Cisterna/components/tasks/tasks.c:138-159 | null, then no mutex, then lock timeout are reported in that order with the output untouched; on success the output is the shared record |
| Tasks.TaskSystem.SensorLoopStep | Proyecto/Nodo_Cisterna/components/tasks/tasks.c:105-120 | the shared record is replaced by a fresh record only when the lock was obtained |
| Cistern.Payload | Proyecto/Nodo_Cisterna/main/main.c:53-56 | the copied payload holds at most 31 characters and no NUL, and is the data itself when that fits |
| Cistern.CommandOf | Proyecto/Nodo_Cisterna/main/main.c:49-72 | an event is a pump command only when it is MQTT data on an accepted topic, and ON, OFF, AUTO exactly when its payload then equals on, off, auto ignoring case |
| Cistern.Decode | Proyecto/Nodo_Cisterna/main/main.c:61-72 | ON, OFF and AUTO are recognised exactly when the payload equals them ignoring case |
| Cistern.DecodeIgnoresCase | Proyecto/Nodo_Cisterna/main/main.c:61-72 | payloads equal up to case decode to the same command |
| Cistern.TopicAcceptsExactlyPrefixes | Proyecto/Nodo_Cisterna/main/main.c:51 | a topic is accepted exactly when it is a prefix of cistern_control (the empty topic included) |
| Cistern.AutoRelay | Proyecto/Nodo_Cisterna/main/main.c:110-123 | the pump is switched on exactly when the level is below 20 cm and the water is not dirty, off exactly when the level is above 180 cm or the water is dirty, and left alone otherwise |
| Cistern.AutoRelayFollowsRuleTable | Proyecto/Nodo_Cisterna/main/main.c:110-123 | the code's rule order gives the same decision as the high, dirty, low rule table |
| Cistern.DirtyWaterStopsPump | Proyecto/Nodo_Cisterna/main/main.c:112-121 | dirty water always switches the pump off, whatever the level |
| Cistern.FailedLevelCountsAsLow | Proyecto/Nodo_Cisterna/main/main.c:112-118 | the −1 level of a failed read switches the pump on unless the water is dirty |
| Cistern.BandHoldsRelay | Proyecto/Nodo_Cisterna/main/main.c:112-122 | between 20 and 180 cm with water that is not dirty no rule fires |
| Cistern.Publications | Proyecto/Nodo_Cisterna/main/main.c:125-146 | a tick publishes four values under four distinct topics: the level with 2 decimals, the TDS with 1, the state label, and ON exactly when the pump is on |
| Cistern.StateLabelsDistinct | Proyecto/Nodo_Cisterna/main/main.c:126 | distinct water states are published under distinct labels |
| Cistern.Assemble | Proyecto/Nodo_Cisterna/main/main.c:254-276 | the buffer stays below 128; a line end completes the buffered line exactly when it is non-empty and empties the buffer; other bytes are appended while there is room and dropped after that |
| Cistern.AssembleText | Proyecto/Nodo_Cisterna/main/main.c:272-276 | typing bytes never overflows the buffer |
| Cistern.AssembleTextTruncates | Proyecto/Nodo_Cisterna/main/main.c:273-275 | typed text is kept up to 127 characters and the rest is dropped |
| Cistern.TypedLineIsDispatched | Proyecto/Nodo_Cisterna/main/main.c:255-271 | a typed line followed by CR or LF is handed over (truncated to 127) when non-empty and ignored when empty |
| Cistern.UartCommandOf | Proyecto/Nodo_Cisterna/main/main.c:259-269 | calA, calB, save and show are recognised exactly when the line equals them ignoring case |
| Cistern.UartStep | Proyecto/Nodo_Cisterna/main/main.c:251-279 | one read attempt keeps the buffer below 128 |
| Cistern.UartRun | Proyecto/Nodo_Cisterna/main/main.c:251-279 | any sequence of read attempts keeps the buffer below 128 |
| Cistern.Dispatch | Proyecto/Nodo_Cisterna/main/main.c:259-269 | calA and calB take a fresh sample as point A / B and leave the store alone; save writes what `Save` writes and keeps the calibration; show and unknown lines change nothing |
| Cistern.OnlyCalibrationCommandsChangeCalibration | Proyecto/Nodo_Cisterna/main/main.c:259-269 | save, show and unknown lines leave the calibration unchanged |
| Cistern.UartLineAssembler.constructor | Proyecto/Nodo_Cisterna/main/main.c:249-250 | a fresh 128-byte buffer with index 0 |
| Cistern.UartLineAssembler.Feed | Proyecto/Nodo_Cisterna/main/main.c:254-276 | the buffer and the completed line are those `Assemble` gives, and a completed line is NUL-terminated in place |
| Cistern.ReplLine | Proyecto/Nodo_Cisterna/main/main.c:218-223 | the command is the C string minus one trailing CR or LF and a CR before it: "x\r\n" gives "x", "x\n" or "x\r" gives "x", and a string with no line end is kept |
| Cistern.ReplLineEmpty | Proyecto/Nodo_Cisterna/main/main.c:218-225 | the command is empty exactly when the C string is empty or only one of "\n", "\r", "\r\n", "\r\r" |
| Cistern.ReplRuns | Proyecto/Nodo_Cisterna/main/main.c:225 | a line is handed to the console unless it is one of those empty forms |
| Cistern.Controller.constructor | Proyecto/Nodo_Cisterna/main/main.c:95 | automatic mode (main.c:33); the task's local snapshot starts zeroed here, a value that is never read because the control tick acts only after a successful `tasks_read_sensor_data` |
| Cistern.Controller.HandleMqttEvent | Proyecto/Nodo_Cisterna/main/main.c:44-75 | ON/OFF set the relay (with the GPIO writes `RelayWritesAfter` gives) and the override; AUTO clears the override without touching the relay; anything else changes nothing |
| Cistern.Controller.ControlTick | Proyecto/Nodo_Cisterna/main/main.c:104-150 | without the snapshot nothing happens; with the override on the relay is untouched; otherwise the relay and its GPIO writes follow the automatic rule through `RelayWritesAfter`; the four values are published when MQTT is connected |
| Cistern.Controller.RunUart | Proyecto/Nodo_Cisterna/main/main.c:249-279 | the reader's buffer and the engine after a sequence of read attempts are those `UartRun` gives |
| CalibrationConsole.ScanEnd | Proyecto/Calibrar_TDS/main/main.c:33 | the scan stops at the first newline or terminator, or at the end |
| CalibrationConsole.CutAtNewline | Proyecto/Calibrar_TDS/main/main.c:33 | the cut keeps the buffer's size |
| CalibrationConsole.CutKeepsTextBeforeNewline | Proyecto/Calibrar_TDS/main/main.c:33 | after the cut, the line is exactly the text before its first newline; anything after it is discarded |
| CalibrationConsole.StripNewline | Proyecto/Calibrar_TDS/main/main.c:33 | the in-place loop leaves the buffer as `CutAtNewline` describes |
| CalibrationConsole.Step | Proyecto/Calibrar_TDS/main/main.c:27-53 | calA and calB apply point A / B to a fresh sample; save saves once and replies success iff Ok; show, empty and unknown lines change nothing; an unknown non-empty line prints the usage |
| CalibrationConsole.ReadCommand | Proyecto/Calibrar_TDS/main/main.c:28-33 | the command matched is the line's text before its first newline, as `CommandText` gives it |
| CalibrationConsole.HandleLine | Proyecto/Calibrar_TDS/main/main.c:32-52 | the engine, store and reply after one line are those `Step` gives |
| CalibrationConsole.RunConsole | Proyecto/Calibrar_TDS/main/main.c:23-54 | the engine, store and replies after a sequence of fgets results are those of the fold of `Step` |
| Wifi.Handle | Proyecto/Nodo_Cisterna/components/wifi/wifi.c:27-55 | STA_START connects; DISCONNECTED connects and counts a retry below 5, and sets FAIL without connecting at 5; GOT_IP resets the count and sets CONNECTED; other events change nothing |
| Wifi.RetryCountBounded | Proyecto/Nodo_Cisterna/components/wifi/wifi.c:21-22 | 0 ≤ retry count ≤ 5 holds after any event sequence |
| Wifi.ConnectedIsSticky | Proyecto/Nodo_Cisterna/components/wifi/wifi.c:27-55 | no event clears CONNECTED, not even a later disconnection |
| Wifi.FailedIsSticky | Proyecto/Nodo_Cisterna/components/wifi/wifi.c:27-55 | no event clears FAIL |
| Wifi.DisconnectionsExhaustRetries | Proyecto/Nodo_Cisterna/components/wifi/wifi.c:34-44 | k disconnections issue min(k, 5 − retries) connects and no disconnect, raise the count to at most 5, and set FAIL exactly when k exceeds the retries left |
| Wifi.Station.constructor | Proyecto/Nodo_Cisterna/components/wifi/wifi.c:17-22 | no event group, no retries, no bits, no SDK calls |
| Wifi.Station.Init | Proyecto/Nodo_Cisterna/components/wifi/wifi.c:60-72 | a null SSID or password gives INVALID_ARG with nothing changed; a failed event group gives FAIL; otherwise the bits start clear and the bring-up outcome is returned |
| Wifi.Station.HandleEvent | Proyecto/Nodo_Cisterna/components/wifi/wifi.c:27-55 | the status and SDK calls change as `Handle` says, and the retry bound is kept |
| Wifi.Station.IsConnected | Proyecto/Nodo_Cisterna/components/wifi/wifi.c:155-163 | connected exactly when the event group exists and CONNECTED is set |
| Wifi.Station.Disconnect | Proyecto/Nodo_Cisterna/components/wifi/wifi.c:168-174 | the SDK is asked to disconnect, and its result returned, only when connected; otherwise Ok with no SDK call |

## Left out

- Ultrasonic pulse timing: the busy-wait GPIO polling against the microsecond
  timer and the speed-of-sound conversion. The echo is an input: a measured
  distance or one of the two timeouts.
- Floating point: offset, gain, ppm and level are `real`, so there is no
  rounding, NaN or infinity. The `raw - offset == 0.0f` guard becomes
  `raw == offset`. `adc_read_voltage` and the `%.2f`/`%.1f` formatting of
  published values are left out; a published number is the value with its
  decimal count.
- AdcDriver.ReadRaw: the accumulator is a `long`, which is 32 bits on the ESP32.
  Here it is unbounded, so its overflow (possible only for very large sample
  counts) is not modelled.
- Storage.Written: any non-Ok write status is modelled as "nothing written".
  This includes a `set_u32` that succeeded followed by a failed `commit`, whose
  effect on the stored value is not modelled.
- NVS internals (`nvs_open`, `set_u32`/`get_u32`, `commit`, handles): the
  namespace is a map and every call's status is an input. How a float is stored
  as 32 bits is not modelled.
- MQTT transport: connection, publishing and QoS are left out. The connected flag
  is an input, and the publications of a tick are returned as a list.
- Concurrency: task creation, delays, mutex waits and the unsynchronised
  override flag. Each step is sequential, and lock success is an input.
- Cistern.ReplLine: `console_repl_task` (main.c:185-231) is never started by
  `app_main`, which creates only the sensor task and the UART command task
  (main.c:364-372). `ReplLine`, `ReplLineEmpty` and `ReplRuns` therefore model
  code the firmware does not run.
- `app_main` sequences, UART driver set-up, `esp_console` registration, heap
  monitoring and the linker stub. The esp_console `cmd_*` handlers behave like
  the `sensor_do_*` wrappers that are modelled.
- Logging and the text of console messages. The calibration console's replies
  are a datatype.
- The tank node (`Node_Tank`) and the MQTT demo.
- The `wifi_init` SDK bring-up after the event group (netif, event loop,
  handler registration, mode, credentials, start) is reduced to one outcome
  input. Copying the SSID and password into the configuration is not modelled.
- The calibration tool's own `tds.c` is not part of this model. Its console is
  modelled against the node's engine, which has the same interface.
- The node's own `adc_driver.c` is not part of this model. Only its header is
  (Proyecto/Nodo_Cisterna/components/adc_driver/adc_driver.h:7-11, "Read averaged
  raw ADC value"; its `adc_init` takes one channel). The node's `tds_read_raw`
  (tds.c:36) is modelled on the assumption that `adc_read_raw` behaves like the
  calibration tool's averaging loop (`AdcDriver.ReadRaw`,
  Calibrar_TDS/components/adc_driver/adc_driver.c:48-63).
- The fgets buffer bounds (64 bytes in the calibration tool, 256 in the
  node's console) are not modelled. A line is any text read before the terminator.
- Getters (`tds_get_offset`, `tds_get_gain`, `tasks_get_pump_relay_state`) are
  field reads of the classes.
- The sampling period of the sensor loop and the publish interval.
