# WaterUp plant pot: settings store and plant-care constants

A Dafny model of two parts of the WaterUp plant-pot firmware.

- **The settings store** (`lib/Configuration/Configuration.cpp`). The firmware keeps three
  settings records: LED colour, MQTT intervals and plant care. They are file-scope globals that
  every `Configuration` object shares. Here they are the fields of one `SettingsStore` object,
  and each `Configuration` holds a reference to it. A `Configuration` owns five EEPROM
  addresses. Its constructors lay the three records out back to back from a base offset. The
  methods `ResetToDefaults`, the two overloads of each setter and the three getters change or
  read the shared records. Each method is specified by a function on record values (`Reset`,
  `SetLed`, `SetMqtt`, `SetMqttRecord`, `SetPlantCare`). Lemmas about those functions state
  what the source does, including the two oddities described below. `Run` applies a sequence
  of store calls, so invariants can be proved over every sequence of calls.
- **Plant-care constants** (`lib/Care/PlantCare.h`). These are the two-tier reservoir
  constants, with the geometry given in the header's comments, and the `WarningType` enumeration.
  Its explicit codes 1..5 are the `uint8_t` values handed to `publishWarning`.

Files: `integers.dfy` (the `uint8_t`/`uint16_t` types and C++'s unsigned conversions),
`configuration.dfy` (module `Configuration`) and `plant_care.dfy` (module `PlantCare`).

Integer widths are explicit. Each cast in `resetToDefaults` is `ToUint8` or `ToUint16`, that is,
reduction modulo 2^8 or 2^16. This also covers `(uint8_t)DEFAULT_SETTING_MQTT_RESERVOIR_WARNING_THRESHOLD`
being stored into the 16-bit `resendWarningInterval`. The address getters return `uint8_t`, and
the model applies that conversion to their results. Record field types follow the setters'
parameter types.

The record sizes (`sizeof`), `DEFAULT_EEPROM_ADDRESS_OFFSET` and the `DEFAULT_SETTING_*` values
are defined in `Configuration.h`, which is not part of this model. They are constants without a
value: the sizes are positive, the offset is a natural number and the defaults are arbitrary
integers. Every property is proved for all of their values.

Two oddities of the code are modelled as written:

- The parameter and field names pair ping with ping and statistic with statistic, but
  `setMQTTSettings` (Configuration.cpp:89, 91) crosses them and then overwrites
  `resendWarningInterval` with the threshold (line 92); the model keeps the assignments as
  written (`SetMqttRecordAsWritten`).
- `resetToDefaults` does not give every MQTT field a default: the second write of
  `resendWarningInterval` (line 47) replaces the first, and `publishReservoirWarningThreshold` is
  never written (`ResetRestoresDefaults`). No method in `Configuration.cpp` writes that field, so
  under any sequence of these calls it keeps its zero-initialised value (`ThresholdAlwaysZero`).
  Loading the records from EEPROM, which this file does not contain, would overwrite it.

## Model

| member | source | states |
|---|---|---|
| `Integers.ToUint8` | lib/Configuration/Configuration.cpp:40-51 | the `(uint8_t)` casts (lines 40-42, 47 and 51): the result is a byte congruent to its argument modulo 256, and equals it when it already fits |
| `Integers.ToUint16` | lib/Configuration/Configuration.cpp:44-46 | the `(uint16_t)` casts (lines 44-46, 49 and 50): congruent modulo 65536, and the identity on values that fit |
| `Configuration.SettingsStore.constructor` | lib/Configuration/Configuration.cpp:9-11 | the shared records start zero-initialised |
| `Configuration.Configuration.constructor` | lib/Configuration/Configuration.cpp:13-20 | the default constructor's addresses are the layout of `DEFAULT_EEPROM_ADDRESS_OFFSET`, and the object satisfies the layout invariant `Valid` |
| `Configuration.Configuration.WithOffset` | lib/Configuration/Configuration.cpp:22-29 | the offset constructor's addresses are the layout of its `uint8_t` argument |
| `Configuration.Configuration.ResetToDefaults` | lib/Configuration/Configuration.cpp:37-58 | the shared records become `Reset` of what they were, after the source's ten writes in order |
| `Configuration.Configuration.GetStartAddress` | lib/Configuration/Configuration.cpp:60-63 | returns the base offset converted to `uint8_t` |
| `Configuration.Configuration.GetEndAddress` | lib/Configuration/Configuration.cpp:65-68 | returns offset plus total record size as `uint8_t`; end minus start is the total size modulo 256, and exactly the total size when the region ends below 256 |
| `Configuration.Configuration.SetLedSettingsRecord` | lib/Configuration/Configuration.cpp:70-73 | the record overload has the same effect as the field overload on the record's fields |
| `Configuration.Configuration.SetLedSettings` | lib/Configuration/Configuration.cpp:75-80 | the shared records become `SetLed` of what they were; nothing else changes |
| `Configuration.Configuration.SetMqttSettingsRecord` | lib/Configuration/Configuration.cpp:82-85 | forwards statistic, resend, ping and threshold in that order to the field overload |
| `Configuration.Configuration.SetMqttSettings` | lib/Configuration/Configuration.cpp:87-93 | the shared records become `SetMqtt` of what they were, after the four writes as written |
| `Configuration.Configuration.SetPlantCareSettingsRecord` | lib/Configuration/Configuration.cpp:95-98 | the record overload has the same effect as the field overload on the record's fields |
| `Configuration.Configuration.SetPlantCareSettings` | lib/Configuration/Configuration.cpp:100-106 | the shared records become `SetPlantCare` of what they were |
| `Configuration.Configuration.GetLedSettings` | lib/Configuration/Configuration.cpp:108-111 | returns the shared LED record and modifies nothing |
| `Configuration.Configuration.GetMqttSettings` | lib/Configuration/Configuration.cpp:113-116 | returns the shared MQTT record and modifies nothing |
| `Configuration.Configuration.GetPlantCareSettings` | lib/Configuration/Configuration.cpp:118-121 | returns the shared plant-care record and modifies nothing |
| `Configuration.LayoutContiguous` | lib/Configuration/Configuration.cpp:24-28 | the MQTT record starts where the LED record ends, the plant-care record where the MQTT record ends, and the region ends where the plant-care record ends |
| `Configuration.LayoutBounds` | lib/Configuration/Configuration.cpp:24-28 | start = LED address = the offset, and end - start = the sum of the three record sizes |
| `Configuration.LayoutPartition` | lib/Configuration/Configuration.cpp:24-28 | an address lies in [start, end) iff it lies in one of the three records, and no two records share an address |
| `Configuration.LayoutInjective` | lib/Configuration/Configuration.cpp:22-29 | two offsets give the same layout iff they are equal |
| `Configuration.EightBitFieldsAgree` | lib/Configuration/Configuration.cpp:60-68 | with 8-bit address fields that wrap at every addition, the getters would return the same bytes as with exact fields |
| `Configuration.ConstructorsAgree` | lib/Configuration/Configuration.cpp:13-29 | the default constructor and the offset constructor called with `DEFAULT_EEPROM_ADDRESS_OFFSET` yield identical addresses over the same store |
| `Configuration.ConstructorsAgreeOnGetters` | lib/Configuration/Configuration.cpp:13-68 | for every default offset, the default constructor and the offset constructor given that offset as `uint8_t` report the same start and end bytes |
| `Configuration.SharedAcrossInstances` | lib/Configuration/Configuration.cpp:9-11 | a colour set through one `Configuration` is read back through another one over the same store |
| `Configuration.ResetRestoresDefaults` | lib/Configuration/Configuration.cpp:40-51 | after a reset: LED and plant-care records are their (cast) defaults, ping and statistic intervals are their defaults, `resendWarningInterval` is the reservoir-threshold default, and `publishReservoirWarningThreshold` is unchanged |
| `Configuration.ResetIdempotent` | lib/Configuration/Configuration.cpp:37-51 | a second reset changes nothing |
| `Configuration.ResetForgetsSetters` | lib/Configuration/Configuration.cpp:37-51 | two images with the same threshold field reset to the same image |
| `Configuration.SetLedThenGet` | lib/Configuration/Configuration.cpp:75-80 | after `setLedSettings(r, g, b)` the LED record is (r, g, b), and the MQTT and plant-care records are unchanged |
| `Configuration.SetLedRecordStoresRecord` | lib/Configuration/Configuration.cpp:70-73 | the record overload stores exactly the given record |
| `Configuration.SetPlantCareThenGet` | lib/Configuration/Configuration.cpp:100-105 | after `setPlantCareSettings` the plant-care record is exactly the given fields, and the other records are unchanged |
| `Configuration.SetPlantCareRecordStoresRecord` | lib/Configuration/Configuration.cpp:95-98 | the record overload stores exactly the given record |
| `Configuration.SetMqttRecordAsWritten` | lib/Configuration/Configuration.cpp:82-93 | record overload as written: ping gets the statistic interval, statistic gets the ping interval, `resendWarningInterval` gets the threshold, the threshold field and the other records are unchanged |
| `Configuration.SetMqttIgnoresResendArgument` | lib/Configuration/Configuration.cpp:89-92 | the field overload's result does not depend on its `resendWarningInterval` argument |
| `Configuration.MqttGetSetRoundTrip` | lib/Configuration/Configuration.cpp:82-93 | writing back the MQTT record just read leaves the store unchanged iff ping = statistic and resend = threshold |
| `Configuration.ThresholdNeverWritten` | lib/Configuration/Configuration.cpp:37-121 | no sequence of resets and setters changes `publishReservoirWarningThreshold` |
| `Configuration.ThresholdAlwaysZero` | lib/Configuration/Configuration.cpp:10 | starting from the zero-initialised globals, the threshold field is 0 after any sequence of calls |
| `Configuration.ResendIntervalFitsByte` | lib/Configuration/Configuration.cpp:37-93 | every surviving write of `resendWarningInterval` stores an 8-bit value, so, starting from an image whose field is below 256, as the zero-initialised globals are, the field stays below 256 over any sequence of calls |
| `Configuration.ResetLastWins` | lib/Configuration/Configuration.cpp:37-58 | any sequence of calls followed by a reset gives the same records as a reset of the starting image |
| `PlantCare.ReservoirTopSize` | lib/Care/PlantCare.h:13-15 | `RESERVOIR_TOP_SIZE` = `RESERVOIR_TOP_HEIGHT` x `RESERVOIR_TOP_1CM3` (30 x 500 = 15000) |
| `PlantCare.ReservoirBottomSize` | lib/Care/PlantCare.h:17-19 | `RESERVOIR_BOTTOM_SIZE` = `RESERVOIR_BOTTOM_HEIGHT` x `RESERVOIR_BOTTOM_1CM3` (10 x 900 = 9000) |
| `PlantCare.ReservoirSize` | lib/Care/PlantCare.h:20-25 | `RESERVOIR_SIZE` = top size + bottom size |
| `PlantCare.ReservoirGeometry` | lib/Care/PlantCare.h:13-24 | the constants agree with the comment formulas: per-centimetre volumes 30·30 − 20·20 and 30·30, tier sizes 30·(30·30 − 20·20) and 10·(30·30) |
| `PlantCare.WarningCode` | lib/Care/PlantCare.h:34-41 | each warning's code lies in 1..5 and so fits the `uint8_t` given to `publishWarning` |
| `PlantCare.WarningOfCode` | lib/Care/PlantCare.h:34-41 | the inverse of the enumerator values: defined exactly on 1..5, and it returns the warning whose code is the argument |
| `PlantCare.WarningCodeRoundTrip` | lib/Care/PlantCare.h:34-41 | decoding a warning's code gives the warning back |
| `PlantCare.WarningCodesDistinct` | lib/Care/PlantCare.h:34-41 | two warnings have the same code iff they are the same warning |
| `PlantCare.WarningCodesOnto` | lib/Care/PlantCare.h:34-41 | every code in 1..5 is the code of some warning |

## Left out

- `Configuration::setup` (`EEPROM.begin` and `delay`), `printConfiguration`, `debugEepromAddresses` and all `Serial` output: these are I/O only.
- `memoryDump` and `clearEEPROM`: their bodies are commented out, so they do nothing.
- Loading and saving the records to EEPROM: `Configuration.cpp` does not contain it. A load would overwrite the shared records, and that is not modelled.
- The width of the five address fields, which is declared in `Configuration.h`: the fields are exact natural numbers, and the getters apply the `uint8_t` conversion. `EightBitFieldsAgree` shows the getters' results would be the same with 8-bit fields.
- ConstructorsAgree: stated only for a `DEFAULT_EEPROM_ADDRESS_OFFSET` below 256, because the offset constructor takes a `uint8_t` and would truncate a larger value; `ConstructorsAgreeOnGetters` covers every default offset at the level of the getters' bytes.
- The struct layouts and the default values of `Configuration.h`: these are abstract constants, as described above.
- `lib/Communication/Communication.h`: it contains only declarations (WiFi, TLS fingerprint check, MQTT publish and subscribe, JSON decoding, listener tags). Their definitions are outside the modelled files.
- The `PlantCare` methods (`setup`, `takeCareOfPlant`, `checkWaterReservoir`, `checkMoistureLevel`, `giveWater`, `switchWaterPump`, `publishPotStatistic`, `publishPotWarning`) and the `waterPumpState` field: their definitions are outside the modelled files, so any conversion, threshold or throttling logic would be invented.
- The I/O pin definitions and the empty `RESERVOIR_BOTTOM_CONTENT` macro of `PlantCare.h`: hardware wiring, and a macro with no content.
