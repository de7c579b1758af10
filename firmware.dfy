// The firmware's global state and its handlers. The C program keeps the
// relay state in the HomeKit characteristic `switch_on` and the accessory
// name in the characteristic `name`; both are globals the handlers update in
// place. Here they are fields of one object, together with the level last
// driven on the relay pin and the trace of every effect issued so far.
module Firmware {
  import opened Effects
  import opened Dispatch
  import opened Naming

  /** The name characteristic's initial value, before the MAC-derived name replaces it. */
  const DefaultName: string := "LightBulb"

  class Lightbulb {
    /** switch_on.value.bool_value */
    var relayOn: bool
    /** The level last written to the relay pin (0 before the first write). */
    var outputLevel: int
    /** Every effect issued so far, oldest first; only ever appended to. */
    var trace: seq<Effect>
    /** name.value */
    var name: string

    /**
     * The object invariant: `outputLevel` is the level of the last relay
     * write in the trace, and every notify follows a write of the value it
     * announces.
     */
    ghost predicate Valid()
      reads this
    {
      outputLevel == LastLevel(trace, 0) && NotifyPaired(trace)
    }

    /** The output pin carries the relay state. */
    ghost predicate Synced()
      reads this
    {
      outputLevel == Level(relayOn)
    }

    /** The static initialisers: the characteristic defaults to on, the name to "LightBulb". */
    constructor ()
      ensures Valid()
      ensures relayOn && outputLevel == 0 && trace == [] && name == DefaultName
    {
      relayOn := true;
      outputLevel := 0;
      trace := [];
      name := DefaultName;
    }

    /** relay_write: drives the relay pin to `on ? 1 : 0`. */
    method RelayWrite(on: bool)
      requires Valid()
      modifies this
      ensures Valid()
      ensures outputLevel == Level(on)
      ensures trace == old(trace) + [GpioWrite(RelayGpio, Level(on))]
      ensures relayOn == old(relayOn) && name == old(name)
    {
      LastLevelAppend(trace, [GpioWrite(RelayGpio, Level(on))], 0);
      NotifyPairedAppend(trace, [GpioWrite(RelayGpio, Level(on))]);
      outputLevel := Level(on);
      trace := trace + [GpioWrite(RelayGpio, Level(on))];
    }

    /** gpio_init: makes the relay pin an output and drives it to the stored relay state. */
    method GpioInit()
      requires Valid()
      modifies this
      ensures Valid() && Synced()
      ensures trace == old(trace) + [GpioEnableOutput(RelayGpio), GpioWrite(RelayGpio, Level(relayOn))]
      ensures relayOn == old(relayOn) && name == old(name)
    {
      LastLevelAppend(trace, [GpioEnableOutput(RelayGpio)], 0);
      NotifyPairedAppend(trace, [GpioEnableOutput(RelayGpio)]);
      trace := trace + [GpioEnableOutput(RelayGpio)];
      RelayWrite(relayOn);
    }

    /**
     * switch_on_callback: HomeKit calls it after storing a client's value in
     * the characteristic. It drives the pin from that stored value, ignores
     * its `on` argument and notifies nobody.
     */
    method SwitchOnCallback(on: bool)
      requires Valid()
      modifies this
      ensures Valid() && Synced()
      ensures trace == old(trace) + [GpioWrite(RelayGpio, Level(old(relayOn)))]
      ensures relayOn == old(relayOn) && name == old(name)
    {
      RelayWrite(relayOn);
    }

    /** reset_configuration: schedules the reset task and returns at once. */
    method ResetConfiguration()
      requires Valid()
      modifies this
      ensures Valid()
      ensures trace == old(trace) + SpawnResetEffects()
      ensures relayOn == old(relayOn) && outputLevel == old(outputLevel) && name == old(name)
    {
      LastLevelAppend(trace, SpawnResetEffects(), 0);
      NotifyPairedAppend(trace, SpawnResetEffects());
      trace := trace + SpawnResetEffects();
    }

    /**
     * reset_configuration_task: erase the WiFi configuration, wait, erase
     * the HomeKit pairing, wait, restart.
     */
    method ResetConfigurationTask()
      requires Valid()
      modifies this
      ensures Valid()
      ensures trace == old(trace) + ResetSequence()
      ensures relayOn == old(relayOn) && outputLevel == old(outputLevel) && name == old(name)
    {
      LastLevelNoWrite(ResetSequence(), outputLevel);
      LastLevelAppend(trace, ResetSequence(), 0);
      NotifyPairedAppend(trace, ResetSequence());
      trace := trace + ResetSequence();
    }

    /** button_callback: dispatches a classified button event; `gpio` is unused. */
    method ButtonCallback(gpio: int, event: ButtonEvent)
      requires Valid()
      modifies this
      ensures Valid()
      ensures relayOn == ButtonStep(old(relayOn), event).relayOn
      ensures trace == old(trace) + ButtonStep(old(relayOn), event).effects
      ensures name == old(name)
      ensures event.SinglePress? ==>
        relayOn == !old(relayOn) && Synced() &&
        trace == old(trace) + [GpioWrite(RelayGpio, Level(relayOn)), Notify(relayOn)]
      ensures event.LongPress? ==>
        relayOn == old(relayOn) && outputLevel == old(outputLevel) &&
        trace == old(trace) + [SpawnReset]
      ensures event.Other? ==>
        relayOn == old(relayOn) && outputLevel == old(outputLevel) && trace == old(trace)
      ensures old(Synced()) ==> Synced()
    {
      match event
      case SinglePress =>
        relayOn := !relayOn;
        RelayWrite(relayOn);
        LastLevelAppend(trace, [Notify(relayOn)], 0);
        NotifyPairedAppend(trace[..|trace| - 1], trace[|trace| - 1..] + [Notify(relayOn)]);
        assert trace == trace[..|trace| - 1] + trace[|trace| - 1..];
        trace := trace + [Notify(relayOn)];
      case LongPress =>
        ResetConfiguration();
      case Other(_) =>
    }

    /** create_accessory_name: names the accessory after bytes 3 to 5 of the MAC address. */
    method CreateAccessoryName(mac: seq<Byte>)
      requires |mac| == 6
      requires Valid()
      modifies this
      ensures Valid()
      ensures name == AccessoryName(mac[3], mac[4], mac[5])
      ensures |name| == NameLength && ParseAccessoryName(name) == Some((mac[3], mac[4], mac[5]))
      ensures relayOn == old(relayOn) && outputLevel == old(outputLevel) && trace == old(trace)
    {
      name := AccessoryName(mac[3], mac[4], mac[5]);
      NameRoundTrip(mac[3], mac[4], mac[5]);
    }
  }
}
