// The observable effects of the firmware: every call the core makes into
// the GPIO layer, the HomeKit server, WiFi configuration, the scheduler and
// the SDK's restart primitive, recorded as one append-only trace.
module Effects {

  /** The GPIO pin wired to the relay (relay_gpio). */
  const RelayGpio: int := 2

  datatype Effect =
    | GpioEnableOutput(pin: int)    // gpio_enable(pin, GPIO_OUTPUT)
    | GpioWrite(pin: int, level: int) // gpio_write(pin, level)
    | Notify(on: bool)              // homekit_characteristic_notify(&switch_on, value)
    | SpawnReset                    // xTaskCreate(reset_configuration_task, ...)
    | WifiReset                     // wifi_config_reset()
    | Delay(ms: nat)                // vTaskDelay, in milliseconds
    | HomekitReset                  // homekit_server_reset()
    | Restart                       // sdk_system_restart()

  /** The level relay_write drives for a relay state: `on ? 1 : 0`. */
  function Level(on: bool): (level: int)
    ensures level == 0 || level == 1
    ensures level == 1 <==> on
  {
    if on then 1 else 0
  }

  predicate IsRelayWrite(e: Effect) { e.GpioWrite? && e.pin == RelayGpio }
  predicate IsNotify(e: Effect) { e.Notify? }
  predicate IsSpawnReset(e: Effect) { e.SpawnReset? }

  /** The level of the last write to the relay pin in `t`, or `initial` when there is none. */
  function LastLevel(t: seq<Effect>, initial: int): int
  {
    if t == [] then initial
    else if IsRelayWrite(t[|t| - 1]) then t[|t| - 1].level
    else LastLevel(t[..|t| - 1], initial)
  }

  /** Appending effects continues from the level the prefix left behind. */
  lemma {:induction false} LastLevelAppend(a: seq<Effect>, b: seq<Effect>, initial: int)
    ensures LastLevel(a + b, initial) == LastLevel(b, LastLevel(a, initial))
  {
    if b == [] {
      assert a + b == a;
    } else {
      var n := |a + b|;
      assert (a + b)[n - 1] == b[|b| - 1];
      assert (a + b)[..n - 1] == a + b[..|b| - 1];
      LastLevelAppend(a, b[..|b| - 1], initial);
    }
  }

  /** Effects that write nothing to the relay pin leave its level as it was. */
  lemma {:induction false} LastLevelNoWrite(t: seq<Effect>, initial: int)
    requires forall i :: 0 <= i < |t| ==> !IsRelayWrite(t[i])
    ensures LastLevel(t, initial) == initial
  {
    if t != [] {
      LastLevelNoWrite(t[..|t| - 1], initial);
    }
  }

  /**
   * Every notify in the trace comes immediately after a write of the same
   * value to the relay pin: the remote-visible value is never announced
   * before the output has been driven to it.
   */
  ghost predicate NotifyPaired(t: seq<Effect>)
  {
    forall i :: 0 <= i < |t| && t[i].Notify? ==>
      0 < i && t[i - 1] == GpioWrite(RelayGpio, Level(t[i].on))
  }

  lemma NotifyPairedAppend(a: seq<Effect>, b: seq<Effect>)
    requires NotifyPaired(a) && NotifyPaired(b)
    ensures NotifyPaired(a + b)
  {
    forall i | 0 <= i < |a + b| && (a + b)[i].Notify?
      ensures 0 < i && (a + b)[i - 1] == GpioWrite(RelayGpio, Level((a + b)[i].on))
    {
      if i >= |a| {
        assert (a + b)[i] == b[i - |a|];
        assert (a + b)[i - 1] == b[i - 1 - |a|];
      }
    }
  }
}
