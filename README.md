# Lightbulb switch firmware — a Dafny model

The firmware runs an ESP8266 module as a single-relay HomeKit light switch.
The relay sits on GPIO 2 and a push button on GPIO 0. A single press toggles
the relay and tells HomeKit about the new value. A long press schedules a
background task. That task erases the WiFi configuration, then the HomeKit
pairing, and then restarts the module. A HomeKit client that writes the
switch's `On` characteristic makes the firmware drive the relay from the
stored value. At start-up the accessory is named `LightBulb-XXXXXX` after the
last three bytes of the station MAC address.

The model has five modules:

- `Counting` (counting.dfy): a generic `Count` of the elements of a sequence that satisfy a predicate.
- `Effects` (effects.dfy): the effects the firmware issues into its collaborators, as `Effect` values.
  - GPIO: `GpioEnableOutput`, `GpioWrite`.
  - HomeKit: `Notify`, `HomekitReset`.
  - FreeRTOS: `SpawnReset`, `Delay`.
  - WiFi configuration: `WifiReset`.
  - SDK: `Restart`.
  - It also defines the level of the last relay write in a trace (`LastLevel`) and the invariant that every notify comes straight after a write of the value it announces (`NotifyPaired`).
- `Dispatch` (dispatch.dfy): what `button_callback` does, as a pure function `ButtonStep` of the relay state and the classified event. `Run` applies it to a whole sequence of events. `ResetSequence` is the reset task's fixed sequence of effects. The lemmas state the device's guarantees about these functions.
- `Naming` (naming.dfy): the `"LightBulb-%02X%02X%02X"` name as a function of three bytes, and a decoder that is its inverse.
- `Firmware` (firmware.dfy): the firmware's global state as the class `Lightbulb`. Its fields are:
  - `relayOn`: `switch_on.value.bool_value`.
  - `outputLevel`: the level last written to GPIO 2.
  - `trace`: the append-only effect trace.
  - `name`: the `name` characteristic.

  There is one method per modelled C function. Each method is proved against the `Effects`, `Dispatch` and `Naming` functions. Each keeps the object invariant `Valid()`: `outputLevel` is the last level written in the trace, and every notify is paired with its write.

Two facts about the code shape the model:

- `switch_on_callback` (main.c:65-67) ignores its `on` argument and drives the relay from `switch_on.value.bool_value`. HomeKit stores a client's value there before it calls the callback. So `SwitchOnCallback` takes `on` and does not use it.
- The header comment (main.c:7) says a 10-second hold resets the WiFi settings, while `button_create` receives 4000 (main.c:180). What that number means is defined in `button.h`, which is not part of this model.

## Model

| member | source | states |
|---|---|---|
| Effects.Level | main.c:54-56 | the level written for a relay state is 1 exactly when the relay is on, and 0 otherwise |
| Dispatch.SpawnResetEffects | main.c:92-95 | reset_configuration issues exactly one effect, and it schedules the reset task |
| Dispatch.ButtonStep | main.c:98-112 | the relay state flips exactly on a single press; every notify issued follows a write of the same value; a long press or an unknown event issues no relay write and no notify |
| Dispatch.SinglePressEffects | main.c:100-104 | a single press negates the relay state, then issues one write of the new level to GPIO 2, then one notify of the new value, and nothing else; afterwards the pin carries the level of the new state |
| Dispatch.TwoPressesRestore | main.c:102-103 | two consecutive single presses restore the original relay state, and the pin then carries that state's level |
| Dispatch.LongPressEffects | main.c:106-108 | a long press leaves the relay state unchanged and only schedules the reset task: no write, no notify |
| Dispatch.OtherEffects | main.c:109-110 | an unknown event changes nothing and issues no effect |
| Dispatch.RunCounts | main.c:98-112 | over any sequence of events, the number of relay writes and the number of notifies each equal the number of single presses, and the number of reset tasks scheduled equals the number of long presses |
| Dispatch.RunParity | main.c:100-102 | over any sequence of events, the relay ends in its starting state exactly when the number of single presses is even |
| Dispatch.RunMirrorsRelay | main.c:100-104 | over any sequence of events, every notify directly follows a write of the value it announces; once a single press has occurred, the pin carries the level of the final relay state; with no single press, the pin keeps its level |
| Dispatch.ResetSequence | main.c:74-86 | the reset task issues five effects. WiFi reset comes first and restart comes last, and restart occurs nowhere else. The HomeKit reset lies strictly between them. A 1000 ms delay sits between WiFi reset and HomeKit reset, and another between HomeKit reset and restart; every delay is 1000 ms. No relay write and no notify are issued |
| Naming.HexDigit | main.c:163-167 | each value 0..15 maps to an upper-case hex digit that decodes back to that value |
| Naming.Hex2 | main.c:163-167 | "%02X" of a byte is exactly two upper-case hex digits whose value, high digit first, is the byte |
| Naming.AccessoryName | main.c:163-167 | the name always has length 16, begins with "LightBulb-", and ends in six upper-case hex digits |
| Naming.NameRoundTrip | main.c:163-167 | decoding the last six characters of the name recovers MAC bytes 3, 4 and 5 |
| Naming.NameParseSound | main.c:163-167 | every string the decoder accepts is the formatted name of the bytes it returns |
| Naming.NameInjective | main.c:163-167 | different values of MAC bytes 3 to 5 give different names |
| Firmware.Lightbulb.constructor | main.c:45-50 | initial state: the switch characteristic defaults to on, the name to "LightBulb", and nothing has been written or notified |
| Firmware.Lightbulb.RelayWrite | main.c:54-56 | drives GPIO 2 to `on ? 1 : 0`; the output level becomes that level; exactly one write is appended; the relay state is untouched |
| Firmware.Lightbulb.GpioInit | main.c:59-62 | makes GPIO 2 an output, then writes the stored relay state to it; afterwards the pin carries the relay state |
| Firmware.Lightbulb.SwitchOnCallback | main.c:65-67 | writes the already-stored relay state to GPIO 2 and ignores its `on` argument; it issues no notify; afterwards the pin carries the relay state |
| Firmware.Lightbulb.ResetConfiguration | main.c:92-95 | appends only the spawning of the reset task; the relay state and the output are unchanged |
| Firmware.Lightbulb.ResetConfigurationTask | main.c:70-89 | appends exactly the reset sequence: WiFi reset, 1000 ms delay, HomeKit reset, 1000 ms delay, restart; the relay state and the output are unchanged |
| Firmware.Lightbulb.ButtonCallback | main.c:98-112 | a single press negates the relay state and appends a write of the new level followed by a notify of the new value, after which the pin carries the relay state. A long press changes no state and appends only the reset-task spawn. An unknown event changes nothing. The notify/write pairing invariant is kept |
| Firmware.Lightbulb.CreateAccessoryName | main.c:159-170 | the name characteristic becomes the formatted name of MAC bytes 3 to 5, of length 16, and it decodes back to those bytes; nothing else changes |

## Left out

- Button debounce and the press/long-press classifier live in `button.h`, which is not part of this model. `ButtonCallback` takes an event that has already been classified, and the 4000 passed to `button_create` is not modelled.
- The HomeKit accessory and server configuration tables (main.c:45-50 apart from the two initial values, main.c:125-153) are static data for the HomeKit library.
- `on_wifi_ready`, `homekit_server_init`, `wifi_config_init`, `uart_set_baud` and the order of calls in `user_init` (main.c:155-157, main.c:172-183) are library start-up and I/O. So is the diagnostic printed when `button_create` fails.
- Storing a client's value in `switch_on` before `switch_on_callback` runs is done by the HomeKit library, not by this code. It is not modelled.
- `switch_identify` and `switch_identify_task` (main.c:114-121) spawn a task that only deletes itself. They have no observable behaviour to state.
- FreeRTOS scheduling is not modelled as concurrency. Each handler runs atomically in the model. In the C code, the toggle, write and notify at main.c:102-104 are not protected against `switch_on_callback` or against the HomeKit server's store into `switch_on.value`, which run on another task; those interleavings are not modelled.
- Scheduling effects: `xTaskCreate` is the `SpawnReset` effect and `vTaskDelay` is the `Delay` effect. `vTaskDelete(NULL)` after `sdk_system_restart` (main.c:88) is not modelled; whether it runs before the module resets depends on the SDK.
- Firmware.Lightbulb.ResetConfigurationTask: delays are recorded in milliseconds. The conversion `1000 / portTICK_PERIOD_MS` into scheduler ticks is not modelled, and neither is the rounding it may introduce.
- Firmware.Lightbulb.CreateAccessoryName: `sdk_wifi_get_macaddr` becomes the `mac` parameter. The `snprintf` length query and the `malloc` of the heap buffer (main.c:163-166) are not modelled. A failed `malloc` is not modelled either.
- `printf` diagnostics produce no behavioural output and are not modelled.
- `outputLevel` starts at 0. That value stands for "nothing written yet". The pin's electrical level at power-on is not modelled.
- Dispatch.SinglePressEffects: `Notify` is a recorded effect that triggers nothing further. The HomeKit library may run the change callbacks of `switch_on` (which include `switch_on_callback`, registered at main.c:45-47) from inside `homekit_characteristic_notify` (main.c:104). That library is not part of this model, so "nothing else" covers only main.c's own calls.
- Dispatch.RunCounts: the counts of relay writes cover only main.c's own calls. A write that `switch_on_callback` might perform when the library dispatches the notify is not modelled.
- Firmware.Lightbulb.ButtonCallback: the trace after a single press holds main.c's own write and notify. The notify's possible dispatch to `switch_on_callback` inside the HomeKit library is not modelled.
