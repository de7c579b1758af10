// The action dispatcher of the light switch as pure functions: what
// button_callback does to the relay state and which effects it issues, the
// same over a whole sequence of button events, and the fixed effect
// sequence of the reset task. The class in firmware.dfy is proved against
// these functions.
module Dispatch {
  import opened Counting
  import opened Effects

  /** An already-classified event from the button driver; `Other` is the `default:` branch. */
  datatype ButtonEvent = SinglePress | LongPress | Other(code: int)

  /** The relay state after an event, and the effects issued while handling it. */
  datatype Outcome = Outcome(relayOn: bool, effects: seq<Effect>)

  predicate IsSinglePress(e: ButtonEvent) { e.SinglePress? }
  predicate IsLongPress(e: ButtonEvent) { e.LongPress? }

  /** What reset_configuration issues: it only schedules the reset task. */
  function SpawnResetEffects(): (t: seq<Effect>)
    ensures Count(t, IsSpawnReset) == 1 && |t| == 1
  {
    [SpawnReset]
  }

  /** button_callback on relay state `on`. */
  function ButtonStep(on: bool, event: ButtonEvent): (r: Outcome)
    ensures r.relayOn == (on != event.SinglePress?)
    ensures NotifyPaired(r.effects)
    ensures !event.SinglePress? ==> Count(r.effects, IsRelayWrite) == 0 && Count(r.effects, IsNotify) == 0
  {
    match event
    case SinglePress =>
      Outcome(!on, [GpioWrite(RelayGpio, Level(!on)), Notify(!on)])
    case LongPress =>
      Outcome(on, SpawnResetEffects())
    case Other(_) =>
      Outcome(on, [])
  }

  /** button_callback applied to each event of `events` in turn. */
  function Run(on: bool, events: seq<ButtonEvent>): Outcome
    decreases |events|
  {
    if events == [] then Outcome(on, [])
    else
      var first := ButtonStep(on, events[0]);
      var rest := Run(first.relayOn, events[1..]);
      Outcome(rest.relayOn, first.effects + rest.effects)
  }

  /**
   * The effect sequence of reset_configuration_task. It erases the WiFi
   * configuration first, then the HomeKit pairing, then restarts, with a
   * one-second pause between the steps; it drives no output and issues no
   * notify.
   */
  function ResetSequence(): (t: seq<Effect>)
    ensures |t| == 5
    ensures t[0] == WifiReset && t[|t| - 1] == Restart
    ensures IndexOf(t, WifiReset) < IndexOf(t, HomekitReset) < IndexOf(t, Restart) == |t| - 1
    ensures forall i :: 0 <= i < |t| - 1 ==> t[i] != Restart
    ensures t[1] == Delay(1000) && t[3] == Delay(1000)
    ensures forall i :: 0 <= i < |t| && t[i].Delay? ==> t[i].ms == 1000
    ensures Count(t, IsRelayWrite) == 0 && Count(t, IsNotify) == 0
  {
    [WifiReset, Delay(1000), HomekitReset, Delay(1000), Restart]
  }

  // ---------------------------------------------------------------------
  // Properties of a single event

  /** A single press negates the relay state, writes it, then notifies it, and nothing else. */
  lemma SinglePressEffects(on: bool)
    ensures ButtonStep(on, SinglePress).relayOn == !on
    ensures ButtonStep(on, SinglePress).effects == [GpioWrite(RelayGpio, Level(!on)), Notify(!on)]
    ensures Count(ButtonStep(on, SinglePress).effects, IsRelayWrite) == 1
    ensures Count(ButtonStep(on, SinglePress).effects, IsNotify) == 1
    ensures LastLevel(ButtonStep(on, SinglePress).effects, 0) == Level(ButtonStep(on, SinglePress).relayOn)
  {
    var t := ButtonStep(on, SinglePress).effects;
    assert t[1..] == [Notify(!on)];
    assert t[..1] == [GpioWrite(RelayGpio, Level(!on))];
  }

  /** Two consecutive single presses restore the relay state and the output level. */
  lemma {:induction false} TwoPressesRestore(on: bool, initial: int)
    ensures Run(on, [SinglePress, SinglePress]).relayOn == on
    ensures LastLevel(Run(on, [SinglePress, SinglePress]).effects, initial) == Level(on)
  {
    var es := [SinglePress, SinglePress];
    assert es[1..] == [SinglePress];
    assert [SinglePress][1..] == [];
    assert Run(on, []) == Outcome(on, []);
    var r1 := Run(!on, [SinglePress]);
    assert r1 == Outcome(on, [GpioWrite(RelayGpio, Level(on)), Notify(on)]);
    var t := Run(on, es).effects;
    assert t == [GpioWrite(RelayGpio, Level(!on)), Notify(!on), GpioWrite(RelayGpio, Level(on)), Notify(on)];
    assert t[..|t| - 1] == [GpioWrite(RelayGpio, Level(!on)), Notify(!on), GpioWrite(RelayGpio, Level(on))];
  }

  // LongPressEffects and OtherEffects state on ButtonStep what the LongPress
  // and Other clauses of Lightbulb.ButtonCallback state on the object.

  /** A long press keeps the relay state and only schedules the reset task. */
  lemma LongPressEffects(on: bool)
    ensures ButtonStep(on, LongPress) == Outcome(on, [SpawnReset])
  {
  }

  /** An unrecognised event changes nothing and issues nothing. */
  lemma OtherEffects(on: bool, code: int)
    ensures ButtonStep(on, Other(code)) == Outcome(on, [])
  {
  }

  // ---------------------------------------------------------------------
  // Properties of a sequence of events

  /**
   * Over any sequence of button events: one relay write and one notify per
   * single press, and one reset task per long press.
   */
  lemma {:induction false} RunCounts(on: bool, events: seq<ButtonEvent>)
    ensures Count(Run(on, events).effects, IsRelayWrite) == Count(events, IsSinglePress)
    ensures Count(Run(on, events).effects, IsNotify) == Count(events, IsSinglePress)
    ensures Count(Run(on, events).effects, IsSpawnReset) == Count(events, IsLongPress)
    decreases |events|
  {
    if events != [] {
      var first := ButtonStep(on, events[0]);
      var rest := Run(first.relayOn, events[1..]);
      RunCounts(first.relayOn, events[1..]);
      CountAppend(first.effects, rest.effects, IsRelayWrite);
      CountAppend(first.effects, rest.effects, IsNotify);
      CountAppend(first.effects, rest.effects, IsSpawnReset);
      match events[0]
      case SinglePress =>
        SinglePressEffects(on);
      case LongPress =>
      case Other(_) =>
    }
  }

  /** The relay ends in its starting state exactly when the number of single presses is even. */
  lemma {:induction false} RunParity(on: bool, events: seq<ButtonEvent>)
    ensures Run(on, events).relayOn == (on != (Count(events, IsSinglePress) % 2 == 1))
    decreases |events|
  {
    if events != [] {
      RunParity(ButtonStep(on, events[0]).relayOn, events[1..]);
    }
  }

  /**
   * Over any sequence of button events every notify follows a write of the
   * same value, and once a single press has occurred the relay pin carries
   * the level of the final relay state.
   */
  lemma {:induction false} RunMirrorsRelay(on: bool, events: seq<ButtonEvent>, initial: int)
    ensures NotifyPaired(Run(on, events).effects)
    ensures Count(events, IsSinglePress) == 0 ==> LastLevel(Run(on, events).effects, initial) == initial
    ensures Count(events, IsSinglePress) > 0 ==>
      LastLevel(Run(on, events).effects, initial) == Level(Run(on, events).relayOn)
    decreases |events|
  {
    if events != [] {
      var first := ButtonStep(on, events[0]);
      var rest := Run(first.relayOn, events[1..]);
      RunMirrorsRelay(first.relayOn, events[1..], LastLevel(first.effects, initial));
      NotifyPairedAppend(first.effects, rest.effects);
      LastLevelAppend(first.effects, rest.effects, initial);
      match events[0]
      case SinglePress =>
        SinglePressEffects(on);
        RunParity(first.relayOn, events[1..]);
      case LongPress =>
      case Other(_) =>
    }
  }

  // ---------------------------------------------------------------------
  // The reset task

  /** Position of the first occurrence of `e` in `t`, or |t| when absent. */
  function IndexOf(t: seq<Effect>, e: Effect): (k: nat)
    ensures k <= |t|
    ensures k < |t| ==> t[k] == e
    ensures forall j :: 0 <= j < k ==> t[j] != e
  {
    if t == [] then 0
    else if t[0] == e then 0
    else 1 + IndexOf(t[1..], e)
  }
}
