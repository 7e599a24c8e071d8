# SolarWeatherBox power cycle, in Dafny

This project models the core of the SolarWeatherBox firmware. The box is an ESP8266 weather station. It wakes from deep sleep, publishes its readings to an MQTT broker, and goes back to sleep. Its state across sleeps is a small block in the RTC retention memory, sealed by a CRC.

The model covers:

- **Data** (`data.dfy`): the RTC block (`RtcData`), its checksum (`getCRC`, `setCRC`, `isValid`), and the time accessors of `MyData`.
- **DeepSleep** (`deep_sleep.dfy`): `MyDeepSleep`, covering:
  - when the box has to sleep;
  - the countdown to the next sleep;
  - how one sleep is sized: a sleep longer than an hour is split into one-hour steps, and the rest is kept in the RTC block;
  - restoring the block after wake-up.
- **Mqtt** (`mqtt.dfy`): `MyMqtt`, covering:
  - the publish cycle of `handleClient`: at most 25 connection attempts, nine retained topics, and the connection, send and send-error counters;
  - `myPublish` and `mySubscribe`;
  - `waitingForMqtt`;
  - the inbound command callback, which may change two options through the static `g_myOptions` pointer.
- **Options** (`options.dfy`, `options_lemmas.dfy`): `MyOptions`, covering:
  - its defaults;
  - `load`, which reads `key=value` lines, stops at the first bad line and does not roll back;
  - `save`, which writes sixteen lines with `println`. What it writes loads back to the same options.
- **Text** (`text.dfy`): the library calls these rely on: `indexOf`, `replace`, `readStringUntil('\n')`, `atol`/`atoi` and `String(long)`.
- **Config** (`config.dfy`): the compile-time defaults.

How the model is built:

- Each class that the firmware updates in place is a Dafny `class` with the same fields. Its methods state their new state through a value view: `RtcData.Image()`, `Options.Values()` and `MyMqtt.State()`.
- A pure function specifies each method, and lemmas about those functions state the properties.
- The hardware and the helpers defined outside these files are parameters:
  - `crc32` is a `Crc32` step function;
  - `millis()` is a `Millis` value below 2^32;
  - `secondsElapsed` is an `Elapsed` predicate;
  - the published measurement texts are `Readings`.
- The broker client `PubSubClient` is modelled by what the firmware can observe of it:
  - whether it is connected;
  - the answers it will give to successive connect, publish and subscribe requests;
  - the messages it has accepted.
- The RTC memory read and write become an `RtcImage` passed in or returned.
- The options file becomes its whole text: `None` when it cannot be opened.

Three details of the code are followed as written:

- `mySubscribe` (Mqtt.h:94) builds its topics as `<name>/<id>/<suffix>`. `mqttCallback` (Mqtt.h:196, 200) compares the arriving topic with `mqttName + "/DeepSleep"` and `mqttName + "/SendEverySec"`, without the id. `Mqtt.CommandSubscriptionsNeverMatch` proves that subscribing through `mySubscribe` to either command sub-topic never yields a topic the callback acts on, whatever the name and the id. `handleClient` has its `mySubscribe` call commented out, so nothing is subscribed at all.
- `handleClient` sets `lastMqttPublishSec` to `getActiveTimeSec()` (Mqtt.h:174), the seconds since this boot. It does not use the cumulative `getActiveTimeSumSec()`, although the field is kept in the RTC block across sleeps.
- `deepSleepTimeRestSec` is used by `DeepSleep.h` but is not declared in the `RtcData` shown in `Data.h`. The model adds it as a field of the block. The `RtcData` constructor zeroes it, and `getCRC` does not fold it, because `getCRC` names all the fields it folds.

## Model

| member | source | states |
|---|---|---|
| Text.IndexOf | solarweather/Options.h:91 | -1 exactly when the character is absent; otherwise the position of its first occurrence |
| Text.Remove | solarweather/Options.h:102-103 | the result has no occurrence of the character, is no longer than the input, keeps only its characters, and is the input itself when the character is absent |
| Text.RemoveAppend | solarweather/Options.h:102-103 | removing a character distributes over concatenation |
| Text.NextLine | solarweather/Options.h:90 | the line has no line feed; the text is the line, a line feed and the rest, or else the whole text with nothing left; a non-empty text shrinks |
| Text.NextLineOf | solarweather/Options.h:90 | a line without a line feed, followed by one, is read back as exactly that line and that rest |
| Text.LongText | solarweather/Options.h:164-175 | String(long) is non-empty and holds no line feed, carriage return or '=' |
| Text.Atol | solarweather/Options.h:99 | by its definition, atol (and the atoi of Mqtt.h:197, 201): leading white space skipped, an optional sign, then the value of the decimal digits that follow, 0 when there are none |
| Text.AtolSign | solarweather/Options.h:99 | blank text reads as 0, and a negative value needs a leading '-' |
| Text.AtolOfLongText | solarweather/Options.h:99 | atol reads back what String(long) wrote, whatever non-digit text follows |
| Data.Seal | solarweather/Data.h:112-115 | setCRC on an image: the result is sealed and differs from the input only in crcValue |
| Data.ActiveTimeSec | solarweather/Data.h:148-151 | getActiveTimeSec is millis()/1000 rounded down: sec*1000 <= millis < sec*1000+1000 |
| Data.RtcData.IsValid | solarweather/Data.h:106-109 | valid exactly when the stored crcValue equals the checksum getCRC computes over the fields |
| Data.RtcData.constructor | solarweather/Data.h:92-103 | all counters zero and crcValue = getCRC(), so a fresh block is valid |
| Data.RtcData.GetCrc | solarweather/Data.h:118-132 | the checksum is the fold from 0 over activeTimeSum, deepSleepTimeSum, deepSleepStart, lastBme280Read, lastMqttPublish, connErr, sendCount, connErr |
| Data.RtcData.SetCrc | solarweather/Data.h:112-115 | only crcValue changes, and afterwards isValid holds |
| Data.RtcData.Assign | solarweather/DeepSleep.h:73 | the record copy makes the block equal to the copied image |
| Data.FoldSteps | solarweather/Data.h:120-131 | the eight straight-line crc32 steps are the fold over the field list |
| Data.MyData.constructor | solarweather/Data.h:135-145 | secondsToDeepSleep is -1, awakeTimeOffsetSec is 0, and the block is a fresh zeroed sealed RtcData |
| Data.MyData.ActiveTimeSumSec | solarweather/Data.h:154-157 | the stored active-time sum plus this cycle's whole seconds of millis(): sum - stored is millis/1000 rounded down |
| Data.MyData.DeepSleepTimeSumSec | solarweather/Data.h:160-163 | by its definition, the deep-sleep sum stored in the RTC block; MyDeepSleep.Sleep adds each sleep's length to it |
| Data.UncoveredFieldsKeepSeal | solarweather/Data.h:122-129 | changing mqttSendErrorCount or deepSleepTimeRestSec changes neither the checksum nor validity |
| Data.SealIdempotent | solarweather/Data.h:112-131 | setCRC twice gives the same block as setCRC once |
| Data.ActiveTimeSumMonotone | solarweather/Data.h:154-157 | within a wake cycle getActiveTimeSumSec never decreases as millis grows |
| DeepSleep.SleepStep | solarweather/DeepSleep.h:109-123 | a sleep never exceeds 3600 s; with a remainder pending, slept + new remainder = remainder; otherwise the configured time is split the same way when it reaches an hour, and taken whole with the remainder untouched when below; a new positive remainder means a full hour was slept |
| DeepSleep.RemainderDrains | solarweather/DeepSleep.h:109-123 | a pending remainder t is slept off in StepsFor(t) steps, each positive and at most an hour, that add up to t; every step but the last leaves a remainder and the last leaves 0 |
| DeepSleep.ConfiguredDrains | solarweather/DeepSleep.h:109-123 | a configured sleep c with no remainder pending splits the same way into steps that add up to c |
| DeepSleep.ThreeHoursAndTenSeconds | solarweather/DeepSleep.h:109-123 | 3·3600+10 s is slept as 3600, 3600, 3600, 10, leaving 2·3600+10, 3600+10, 10, 0 |
| DeepSleep.RemainderForcesSleep | solarweather/DeepSleep.h:92-93 | a pending remainder means sleep, whatever the options say |
| DeepSleep.GracePeriod | solarweather/DeepSleep.h:95-99 | with no remainder, never sleep while the cumulative active time is at most 120 s |
| DeepSleep.CountdownAgrees | solarweather/DeepSleep.h:79-101 | with deep sleep on and no remainder, a negative countdown means sleep is due and a due sleep never shows a positive countdown; at a zero countdown the two agree iff the active-time sum exceeds 120 s |
| DeepSleep.CountdownIsLaterDeadline | solarweather/DeepSleep.h:81-86 | the defining characterization of the countdown's max: it is the later of the active-time deadline and the grace-period deadline, no earlier than either and equal to one |
| DeepSleep.StandardCycle | solarweather/DeepSleep.h:90-123 | with 60 s active, 900 s sleep and deep sleep on, past the grace period, 61 s awake means sleep, for exactly 900 s with no remainder |
| DeepSleep.MyDeepSleep.constructor | solarweather/DeepSleep.h:51-55 | keeps references to the options and the data |
| DeepSleep.MyDeepSleep.HaveToSleep | solarweather/DeepSleep.h:90-101 | the defining characterization of haveToSleep: a pending remainder means sleep; with none, sleep iff deep sleep is on, the active-time sum exceeds 120 s and this cycle's active time reaches activeTimeSec |
| DeepSleep.MyDeepSleep.UpdateTimeToSleep | solarweather/DeepSleep.h:79-87 | secondsToDeepSleep becomes -1 with deep sleep off, otherwise max(activeTimeSec - awake time, 120 - active-time sum); nothing else changes |
| DeepSleep.MyDeepSleep.Sleep | solarweather/DeepSleep.h:107-128 | the sleep length and the new remainder are SleepStep's; the block gains this cycle's active time, getDeepSleepTimeSumSec grows by the slept seconds, and the block is resealed; the block written is that valid block |
| DeepSleep.MyDeepSleep.Begin | solarweather/DeepSleep.h:62-76 | the block read replaces the current one exactly when its checksum matches; begin always returns true |
| DeepSleep.WrittenBlockRestored | solarweather/DeepSleep.h:125-128 | the block sleep writes passes begin's check after wake-up and is adopted unchanged |
| DeepSleep.InvalidBlockIgnored | solarweather/DeepSleep.h:69-70 | a block whose checksum does not match leaves the data as it was |
| Options.ParseKey | solarweather/Options.h:106-141 | a recognised key names exactly that option; an unrecognised one names none of the sixteen |
| Options.ParseKeyName | solarweather/Options.h:106-137 | every option name is recognised as its option |
| Options.PlainKeyName | solarweather/Options.h:160-175 | no option name contains '=' or a line feed |
| Options.Clean | solarweather/Options.h:102-103 | the cleaned value holds no carriage return and no line feed |
| Options.SplitLine | solarweather/Options.h:91-98 | no split exactly when the line has no '='; otherwise the key has no '=' and the line is key, '=', value |
| Options.Options.constructor | solarweather/Options.h:59-77 | the defaults: check interval 60, active 60, sleep 900, send every 900, deep sleep and MQTT off, WiFi connection on, debug off, the configured strings and port |
| Options.Options.Set | solarweather/Options.h:106-137 | the assignment of one recognised line: a bool takes atol != 0, a string the cleaned text, a number the atol value |
| Options.Options.SetFlag | solarweather/Options.h:106-123 | the named bool option takes the value; nothing else changes |
| Options.Options.SetWifiText | solarweather/Options.h:108-113 | the named WiFi string takes the text; nothing else changes |
| Options.Options.SetMqttText | solarweather/Options.h:124-135 | the named MQTT string takes the text; nothing else changes |
| Options.Options.SetNumber | solarweather/Options.h:114-137 | the named number option takes the value; nothing else changes |
| Options.Options.Load | solarweather/Options.h:80-150 | the result and the new options are LoadFile's: a missing file fails and changes nothing; otherwise lines apply in order until the first bad one |
| Options.Options.Save | solarweather/Options.h:153-180 | an unwritable file gives false and no text; otherwise true and exactly the sixteen lines of SaveText |
| OptionsProperties.LoadLine | solarweather/Options.h:89-143 | one loop step: the first line is applied, and a rejected line ends loading with failure |
| OptionsProperties.LoadAppend | solarweather/Options.h:89-143 | loading a + b is loading a, then b from where a ended, unless a failed |
| OptionsProperties.SplitLineAt | solarweather/Options.h:91-98 | the key is the text before the first '='; the value keeps any later '=' |
| OptionsProperties.MissingSeparatorRejected | solarweather/Options.h:93-95 | a line without '=' is rejected |
| OptionsProperties.UnknownKeyRejected | solarweather/Options.h:138-141 | a key naming no option is rejected, whatever the value |
| OptionsProperties.KnownKeyAccepted | solarweather/Options.h:97-137 | a line naming an option assigns the cleaned text and the atol value of what follows the first '=' |
| OptionsProperties.KnownKeyLine | solarweather/Options.h:89-137 | load assigns a known line and goes on with the rest |
| OptionsProperties.LineWithoutSeparator | solarweather/Options.h:89-95 | load stops at a line without '=' and fails, with the options unchanged by it |
| OptionsProperties.UnknownKeyLine | solarweather/Options.h:89-141 | load stops at an unknown key and fails |
| OptionsProperties.NoRollback | solarweather/Options.h:89-143 | when a rejected line follows lines that loaded, the result keeps their assignments and reports failure |
| OptionsProperties.LoadEmptyOrMissing | solarweather/Options.h:85-89 | an empty file gives true and changes nothing; a missing file gives false |
| OptionsProperties.AssignTwice | solarweather/Options.h:106-137 | a second assignment to the same option replaces the first |
| OptionsProperties.FlagTwice | solarweather/Options.h:106-123 | the same, for the bool options |
| OptionsProperties.WifiTextTwice | solarweather/Options.h:108-113 | the same, for the WiFi strings |
| OptionsProperties.MqttTextTwice | solarweather/Options.h:124-135 | the same, for the MQTT strings |
| OptionsProperties.NumberTwice | solarweather/Options.h:114-137 | the same, for the number options |
| OptionsProperties.DuplicateKey | solarweather/Options.h:89-137 | when a file names an option twice, the later line wins |
| OptionsProperties.AtolBoolText | solarweather/Options.h:160-168 | a saved bool, with the carriage return println adds, loads back as the same bool |
| OptionsProperties.CleanSavedText | solarweather/Options.h:102-103 | a saved string without line breaks, with println's carriage return, is cleaned back to itself |
| OptionsProperties.AssignSaved | solarweather/Options.h:97-137 | loading the value text of one saved line assigns exactly the saved option |
| OptionsProperties.AssignSavedFlag | solarweather/Options.h:106-123 | the same, for the bool options |
| OptionsProperties.AssignSavedNumber | solarweather/Options.h:114-137 | the same, for the number options |
| OptionsProperties.SavedValueOneLine | solarweather/Options.h:160-175 | a saved value holds no line feed when the strings hold none |
| OptionsProperties.SavedLineShape | solarweather/Options.h:160-175 | a saved line is name, '=', value, carriage return, line feed |
| OptionsProperties.LoadSavedLine | solarweather/Options.h:89-175 | after text that loaded, loading one more saved line succeeds and takes that option from the saved values |
| OptionsProperties.CopyAll | solarweather/Options.h:160-175 | taking all sixteen options in save order gives the saved values |
| OptionsProperties.LoadSavedHead | solarweather/Options.h:160-167 | the first eight saved lines load as those eight options |
| OptionsProperties.SaveLoad | solarweather/Options.h:80-175 | loading what save wrote succeeds and restores every option, provided no string option holds a line break |
| Mqtt.PublishTopic | solarweather/Mqtt.h:109 | the topic is the MQTT name, '/', then the id and the sub-topic |
| Mqtt.Attempts | solarweather/Mqtt.h:142-154 | at most 25 attempts; connected iff one of the first 25 answers accepts; the attempts stop at the first acceptance; failure means all 25 were made |
| Mqtt.PublishOneAccounting | solarweather/Mqtt.h:104-112 | one publish with a payload takes one broker answer and is either retained or exactly one more send error |
| Mqtt.PublishSeqAccounting | solarweather/Mqtt.h:102-115 | over a sequence of publishes: each one with a payload takes one broker answer and is either retained or one more send error; earlier retained messages are kept; the send error count never falls |
| Mqtt.MeasurementsComplete | solarweather/Mqtt.h:160-167 | with every reading present, all eight measurement messages have a payload |
| Mqtt.PublishAllAccounting | solarweather/Mqtt.h:160-168 | the publishes of a cycle: send errors plus retained messages equal the number of non-empty publishes, one answer each |
| Mqtt.PublishSeqAccepted | solarweather/Mqtt.h:102-115 | when the broker accepts all, the messages are retained in order and no error is counted |
| Mqtt.AllPublished | solarweather/Mqtt.h:160-168 | when the broker accepts all: every message in order, then the unchanged error count |
| Mqtt.FirstPublishRefused | solarweather/Mqtt.h:160-168 | when only the first is refused: one more error, the rest published in order, and the count published last includes the refusal |
| Mqtt.CycleTouchesOnlyCounters | solarweather/Mqtt.h:137-177 | a cycle changes only connErr, sendCount, sendErr and lastMqttPublishSec, which becomes the time of the cycle; subscriptions are untouched |
| Mqtt.CycleWithoutConnection | solarweather/Mqtt.h:141-157 | a cycle left disconnected made all 25 attempts, each refused, counts one connection error and publishes nothing |
| Mqtt.CycleConnected | solarweather/Mqtt.h:158-170 | a connected cycle adds one send, no connection error and at most nine send errors; with every reading present, errors plus retained messages come to nine |
| Mqtt.CycleAlreadyConnected | solarweather/Mqtt.h:141 | an already connected client makes no attempt |
| Mqtt.CycleConnectsAtFirstAcceptance | solarweather/Mqtt.h:142-154 | a disconnected client connects at the first accepted attempt within 25 and makes no more |
| Mqtt.CycleAllAccepted | solarweather/Mqtt.h:160-168 | a connected cycle where all are accepted retains the nine topics in order, with the send error count unchanged |
| Mqtt.CycleFirstRefused | solarweather/Mqtt.h:160-169 | a connected cycle where only the temperature is refused: one more send error, the other eight in order, the count published last includes it |
| Mqtt.CommandTopicsDiffer | solarweather/Mqtt.h:196-203 | the two command topics are never the same text |
| Mqtt.DeepSleepCommand | solarweather/Mqtt.h:196-199 | on the deep sleep topic the flag becomes atoi(payload) != 0 and nothing else changes |
| Mqtt.SendEveryCommand | solarweather/Mqtt.h:200-203 | on the interval topic mqttSendEverySec becomes atoi(payload) and nothing else changes |
| Mqtt.OtherMessagesIgnored | solarweather/Mqtt.h:184-203 | no topic, no payload, an empty payload, one over 200 bytes, or any other topic leave the options as they were |
| Mqtt.SubscribedTopicNeverMatches | solarweather/Mqtt.h:94 | a topic mySubscribe builds for a sub-topic is never the name-plus-suffix topic the callback compares with for that same sub-topic |
| Mqtt.CommandSubscriptionsNeverMatch | solarweather/Mqtt.h:196-201 | mySubscribe's topic for either command sub-topic equals neither topic the callback acts on, for any name and id |
| Mqtt.OptionsSlot.constructor | solarweather/Mqtt.h:179 | g_myOptions starts as NULL |
| Mqtt.MqttCallback | solarweather/Mqtt.h:182-205 | the options the slot points to change exactly as Command says; with a null slot nothing may change |
| Mqtt.MyMqtt.constructor | solarweather/Mqtt.h:73-80 | publishInProgress is false and g_myOptions points to these options |
| Mqtt.MyMqtt.Destroy | solarweather/Mqtt.h:81-84 | g_myOptions is cleared |
| Mqtt.MyMqtt.MySubscribe | solarweather/Mqtt.h:89-97 | subscribes to name/id/sub-topic; the result is the broker's answer |
| Mqtt.MyMqtt.MyPublish | solarweather/Mqtt.h:102-115 | an empty value returns false and changes nothing; otherwise the broker's answer decides between retained and one more send error; nothing else changes |
| Mqtt.MyMqtt.HandleClient | solarweather/Mqtt.h:137-177 | no cycle unless the interval elapsed and none is running, and then nothing changes; otherwise the client and block become Cycle's and publishInProgress ends false |
| Mqtt.MyMqtt.RunCycle | solarweather/Mqtt.h:141-174 | connection attempts, then a connection error or the publishes plus one send, and the time of the cycle |
| Mqtt.MyMqtt.ConnectWithRetry | solarweather/Mqtt.h:141-155 | the client ends as AfterConnect says: unchanged when connected, else Attempts' outcome with that many answers used |
| Mqtt.MyMqtt.PublishCycle | solarweather/Mqtt.h:160-168 | the nine publishes in order leave the client and block as AfterPublish says |
| Mqtt.MyMqtt.WaitingForMqtt | solarweather/Mqtt.h:118-124 | waitingForMqtt holds whenever handleClient would start a cycle and throughout a running cycle, and outside a running cycle exactly when one would start |
| Mqtt.FirstSuccess | solarweather/Mqtt.h:143-145 | the first accepted attempt i gives i + 1 attempts and a connection |
| Mqtt.AllRefused | solarweather/Mqtt.h:143 | 25 refusals give no connection after 25 attempts |

## Left out

- `MyMqtt::begin` (Mqtt.h:127-134) only passes the server, the port and the callback to the broker library. The library is not part of this model.
- `BME280.h` and `Voltage.h` are sensor and ADC drivers built on floating point. The measurements enter the model as the texts `handleClient` publishes (`Readings`).
- Floating point is not modelled:
  - `getPowerConsumption`;
  - the `DEEP_SLEEP_CORRECT` factor and the microsecond conversion of `ESP.deepSleep`;
  - the unused `atof` in `load`;
  - `String(double)`.
- I/O is not modelled: the RTC memory, SPIFFS, WiFi shutdown, `ESP.deepSleep`, delays, `WiFi.RSSI`, and all `MyDbg` logging. The logging includes the mis-parenthesised log expression in `mqttCallback`, which has no effect on state.
- The broker library's own behaviour is not modelled: its state codes, its checks on topic and payload size, and its refusal to publish while disconnected. Its answers are a scripted sequence in the client's state.
- `crc32`, `secondsElapsed`, `formatInterval` and `millis` are defined outside the shown files. They are parameters with no body.
- Writing `payload[len] = '\0'` past the payload buffer is memory-level behaviour. The payload is a string of `len` characters.
- Copying the RTC block as raw bytes is memory-level behaviour. It is modelled as copying the record.
- `Data.ActiveTimeSec`: the `long` width is not modelled. Counters, time sums and `atol` results are unbounded integers, so 32-bit overflow of sums and counters is not captured. atol on out-of-range text is undefined behaviour in C; here it gives the exact value.
- `Data.ActiveTimeSumMonotone`: it holds for one `millis` run. The wrap of `millis()` after about 49.7 days is not modelled.
- Re-entrancy of `handleClient` through `publishInProgress` is not exercised. The flag is set and cleared within one call, and nothing in these files calls `handleClient` from inside it.
- The other members of `MyData` (the float sensor values, the IP and status strings, the console lists) are not used by the core and are not modelled.
