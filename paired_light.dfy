/**
 * The demand-responsive pygame traffic light (m3/traffic_light.py).
 *
 * A light runs GREEN -> YELLOW -> SAFETY_DELAY -> RED on integer frame ticks.
 * It never leaves RED by itself: the hand-over to RED -> GREEN is done by the
 * partner light when the partner's safety delay expires.  The class-level
 * registry of the source (`current_green`, `initial_state_set`) is an explicit
 * `Registry` object shared by the lights.
 *
 * The update rule is stated once as the pure function `Tick` over value views
 * of the two lights; the `Update` method is proved to perform exactly `Tick`.
 */
module PairedLight {
  import opened Wrappers

  datatype Phase = Green | Yellow | SafetyDelay | Red

  /** Timing constants, in frames (60 frames per second). */
  const SAFETY_DELAY: nat := 60
  const MAX_WAIT_TIME: nat := 300
  const YELLOW_DURATION: nat := 60
  const BASE_GREEN_DURATION: real := 120.0
  const MIN_GREEN_DURATION: real := 90.0
  const MAX_GREEN_DURATION: real := 600.0

  /** The data of one light that `update` reads and writes. */
  datatype LightView = LightView(state: Phase, timer: nat, waitingCars: nat, totalWaitTime: nat, carsPassed: nat)

  /** What an update does to the class-level `current_green`. */
  datatype RegistryWrite = Keep | ClearCurrent | SetCurrentToPartner

  datatype TickResult = TickResult(me: LightView, other: Option<LightView>, registry: RegistryWrite)

  /** The phase a light's own update may move to next; RED has no exit of its own. */
  function NextPhase(p: Phase): Phase {
    match p
    case Green => Yellow
    case Yellow => SafetyDelay
    case SafetyDelay => Red
    case Red => Red
  }

  function Min(a: real, b: real): real { if a <= b then a else b }
  function Max(a: real, b: real): real { if a >= b then a else b }

  /**
   * `_calculate_green_duration`: base 120, plus 20 per waiting car, plus 60 when
   * more than one car per two frames has passed, divided by min(1.5, other/5) when
   * the partner has waiting cars, then clamped to [90, 600].  `carsPassed` and
   * `timer` are the values after the increments of the current update.
   */
  function GreenDuration(waitingCars: nat, carsPassed: nat, timer: int, otherWaiting: nat): (d: real)
    ensures MIN_GREEN_DURATION <= d <= MAX_GREEN_DURATION
    ensures otherWaiting == 0 ==> d >= Min(BASE_GREEN_DURATION + 20.0 * waitingCars as real, MAX_GREEN_DURATION)
  {
    var base := BASE_GREEN_DURATION + (waitingCars * 20) as real;
    var flowRate := carsPassed as real / (if timer > 1 then timer else 1) as real;
    var withFlow := if flowRate > 0.5 then base + 60.0 else base;
    var scaled := if otherWaiting > 0 then withFlow / Min(1.5, otherWaiting as real / 5.0) else withFlow;
    Max(MIN_GREEN_DURATION, Min(scaled, MAX_GREEN_DURATION))
  }

  /**
   * `_should_switch_to_other_light`: hand GREEN over when this light has no
   * waiting cars, when the partner has waited at least `MAX_WAIT_TIME` frames
   * with cars queued, or when the partner's queue exceeds 1.5 times this one.
   */
  predicate ShouldSwitch(waitingCars: nat, otherWaiting: nat, otherTotalWait: nat) {
    || waitingCars == 0
    || (otherWaiting > 0 && otherTotalWait >= MAX_WAIT_TIME)
    || otherWaiting as real > waitingCars as real * 1.5
  }

  /** Whether an update of a light in view `v` reads its partner (the source crashes on a missing one). */
  predicate NeedsPartner(v: LightView) {
    v.state == Green || (v.state == SafetyDelay && v.timer + 1 >= SAFETY_DELAY)
  }

  /** Lines 80-81: a RED light with cars waiting accumulates one frame of waiting time. */
  function AccumulateWait(v: LightView): LightView {
    if v.state == Red && v.waitingCars > 0 then v.(totalWaitTime := v.totalWaitTime + 1) else v
  }

  /** One `update` of a light `me` whose partner is `other`. */
  function Tick(me: LightView, other: Option<LightView>): (r: TickResult)
    requires NeedsPartner(me) ==> other.Some?
    ensures r.me.state == me.state || r.me.state == NextPhase(me.state)
    ensures r.me.state == me.state ==> r.me.timer == me.timer + 1
    ensures r.me.state != me.state ==> r.me.timer == 0
    ensures r.me.waitingCars == me.waitingCars
    ensures r.other.Some? <==> other.Some?
    ensures r.other != other ==>
              && me.state == SafetyDelay && r.me.state == Red
              && other.value.state == Red && ShouldSwitch(me.waitingCars, other.value.waitingCars, other.value.totalWaitTime)
              && r.other == Some(other.value.(state := Green, timer := 0, totalWaitTime := 0))
              && r.registry == SetCurrentToPartner
    ensures r.me.totalWaitTime == if r.me.state == Red && me.waitingCars > 0 then me.totalWaitTime + 1 else me.totalWaitTime
  {
    var t := me.timer + 1;
    match me.state
    case Green =>
      var passed := me.carsPassed + 1;
      var duration := GreenDuration(me.waitingCars, passed, t, other.value.waitingCars);
      if t as real >= duration then
        TickResult(me.(state := Yellow, timer := 0, carsPassed := passed), other, Keep)
      else
        TickResult(me.(timer := t, carsPassed := passed), other, Keep)
    case Yellow =>
      if t >= YELLOW_DURATION then TickResult(me.(state := SafetyDelay, timer := 0), other, ClearCurrent)
      else TickResult(me.(timer := t), other, Keep)
    case SafetyDelay =>
      if t >= SAFETY_DELAY then
        var red := AccumulateWait(me.(state := Red, timer := 0));
        var o := other.value;
        if o.state == Red && ShouldSwitch(me.waitingCars, o.waitingCars, o.totalWaitTime) then
          TickResult(red, Some(o.(state := Green, timer := 0, totalWaitTime := 0)), SetCurrentToPartner)
        else
          TickResult(red, other, Keep)
      else
        TickResult(me.(timer := t), other, Keep)
    case Red =>
      TickResult(AccumulateWait(me.(timer := t)), other, Keep)
  }

  /** At most one light of a pair is out of RED. */
  predicate Exclusive(a: LightView, b: LightView) { a.state == Red || b.state == Red }

  /** Timer bounds every non-RED phase keeps: GREEN ends within 600 frames, YELLOW and SAFETY_DELAY within 60. */
  predicate TimerBounded(v: LightView) {
    match v.state
    case Green => v.timer < 600
    case Yellow => v.timer < YELLOW_DURATION
    case SafetyDelay => v.timer < SAFETY_DELAY
    case Red => true
  }

  /** Updating either light of an exclusive pair keeps the pair exclusive: never both GREEN. */
  lemma TickKeepsExclusive(me: LightView, other: LightView)
    requires Exclusive(me, other)
    ensures var r := Tick(me, Some(other)); Exclusive(r.me, r.other.value)
    ensures var r := Tick(me, Some(other)); !(r.me.state == Green && r.other.value.state == Green)
  {
  }

  /** A light's own update never takes it out of RED; two RED lights stay RED whichever is updated. */
  lemma RedHasNoOwnExit(me: LightView, other: Option<LightView>)
    requires me.state == Red
    ensures Tick(me, other).me.state == Red
    ensures Tick(me, other).other == other
  {
  }

  /** Each update keeps the timer bounds, including for a partner that was just handed GREEN. */
  lemma TickKeepsTimerBounded(me: LightView, other: Option<LightView>)
    requires NeedsPartner(me) ==> other.Some?
    requires TimerBounded(me)
    requires other.Some? ==> TimerBounded(other.value)
    ensures TimerBounded(Tick(me, other).me)
    ensures Tick(me, other).other.Some? ==> TimerBounded(Tick(me, other).other.value)
  {
  }

  /** A GREEN light whose timer reaches 600 frames turns YELLOW, whatever the queues. */
  lemma GreenEndsByMaxDuration(me: LightView, other: LightView)
    requires me.state == Green && me.timer + 1 >= 600
    ensures Tick(me, Some(other)).me.state == Yellow
  {
  }

  /** Ties favour not switching: equal non-empty queues with a partner that has not waited too long. */
  lemma TieDoesNotSwitch(n: nat, otherTotalWait: nat)
    requires n > 0 && otherTotalWait < MAX_WAIT_TIME
    ensures !ShouldSwitch(n, n, otherTotalWait)
  {
  }

  /**
   * The switch rule holds exactly for an empty own queue, a starved partner
   * queue, or a partner queue more than 1.5 times this one.
   */
  lemma SwitchCauses(waiting: nat, otherWaiting: nat, otherTotalWait: nat)
    ensures ShouldSwitch(waiting, otherWaiting, otherTotalWait) <==>
              waiting == 0 || (otherWaiting > 0 && otherTotalWait >= MAX_WAIT_TIME) || 2 * otherWaiting > 3 * waiting
  {
  }

  /**
   * As written, a declined hand-over leaves both lights RED for good: with 2 cars
   * here and 1 at a partner that has waited less than 300 frames the switch rule
   * says no, and from then on no update of either light leaves RED.
   */
  lemma DeclinedHandOverKeepsBothRed(me: LightView, other: LightView)
    requires me.state == SafetyDelay && me.timer + 1 >= SAFETY_DELAY && me.waitingCars == 2
    requires other.state == Red && other.waitingCars == 1 && other.totalWaitTime < MAX_WAIT_TIME
    ensures var r := Tick(me, Some(other)); r.me.state == Red && r.other.value.state == Red
  {
  }

  /** Which light of a pair an update in a run drives: `true` for the first, `false` for the second. */
  function Run(a: LightView, b: LightView, schedule: seq<bool>): (r: (LightView, LightView))
    requires Exclusive(a, b)
    ensures Exclusive(r.0, r.1)
    decreases |schedule|
  {
    if schedule == [] then (a, b)
    else
      TickKeepsExclusive(a, b);
      TickKeepsExclusive(b, a);
      var next :=
        if schedule[0] then (var t := Tick(a, Some(b)); (t.me, t.other.value))
        else (var t := Tick(b, Some(a)); (t.other.value, t.me));
      Run(next.0, next.1, schedule[1..])
  }

  /** The state `set_other_light` establishes: this light GREEN with a fresh timer, the partner RED. */
  lemma InitialSplitIsExclusive(a: LightView, b: LightView)
    requires a.state == Green && b.state == Red
    ensures forall schedule: seq<bool> :: var r := Run(a, b, schedule); !(r.0.state == Green && r.1.state == Green)
  {
  }

  /** The class-level registry of the source, as one shared object. */
  class Registry {
    var currentGreen: TrafficLight?
    var initialStateSet: bool

    constructor ()
      ensures currentGreen == null && !initialStateSet
    {
      currentGreen := null;
      initialStateSet := false;
    }
  }

  class TrafficLight {
    var state: Phase
    var timer: nat
    var waitingCars: nat
    var totalWaitTime: nat
    var carsPassed: nat
    var otherLight: TrafficLight?
    /** The class-level registry: a light and its partner always share the same one. */
    const registry: Registry

    function Snapshot(): LightView reads this {
      LightView(state, timer, waitingCars, totalWaitTime, carsPassed)
    }

    function PartnerView(): Option<LightView> reads this, otherLight {
      if otherLight == null then None else Some(otherLight.Snapshot())
    }

    /** A new light starts RED with all counters at 0 and no partner. */
    constructor (registry: Registry)
      ensures this.registry == registry && otherLight == null
      ensures Snapshot() == LightView(Red, 0, 0, 0, 0)
    {
      this.registry := registry;
      state, timer, waitingCars, totalWaitTime, carsPassed := Red, 0, 0, 0, 0;
      otherLight := null;
    }

    /**
     * `set_other_light`: records the partner; the first call with a partner (per
     * registry) makes this light GREEN, the partner RED, and sets the registry.
     */
    method SetOtherLight(other: TrafficLight?)
      requires other != null ==> other.registry == registry
      modifies this, other, registry
      ensures otherLight == other
      ensures var first := !old(registry.initialStateSet) && other != null;
              && registry.initialStateSet == (old(registry.initialStateSet) || first)
              && (first ==> registry.currentGreen == this && other.state == Red && (other != this ==> state == Green))
              && (!first ==> registry.currentGreen == old(registry.currentGreen) && state == old(state)
                             && (other != null ==> other.state == old(other.state)))
      ensures timer == old(timer) && waitingCars == old(waitingCars) && totalWaitTime == old(totalWaitTime)
      ensures carsPassed == old(carsPassed)
      ensures other != null && other != this ==>
                other.Snapshot().(state := old(other.state)) == old(other.Snapshot()) && other.otherLight == old(other.otherLight)
    {
      otherLight := other;
      if !registry.initialStateSet && other != null {
        state := Green;
        registry.currentGreen := this;
        registry.initialStateSet := true;
        other.state := Red;
      }
    }

    /** `update`: one frame of this light, exactly `Tick`, with its effect on the registry. */
    method Update()
      requires otherLight != this
      requires NeedsPartner(Snapshot()) ==> otherLight != null
      requires otherLight != null ==> otherLight.registry == registry
      modifies this, otherLight, registry
      ensures otherLight == old(otherLight)
      ensures otherLight != null ==> otherLight.otherLight == old(otherLight.otherLight)
      ensures var r := Tick(old(Snapshot()), old(PartnerView()));
              && Snapshot() == r.me
              && PartnerView() == r.other
              && (r.registry == Keep ==> registry.currentGreen == old(registry.currentGreen))
              && (r.registry == ClearCurrent ==> registry.currentGreen == null)
              && (r.registry == SetCurrentToPartner ==> registry.currentGreen == otherLight)
      ensures registry.initialStateSet == old(registry.initialStateSet)
    {
      timer := timer + 1;
      match state {
        case Green =>
          carsPassed := carsPassed + 1;
          var duration := GreenDuration(waitingCars, carsPassed, timer, otherLight.waitingCars);
          if timer as real >= duration {
            state := Yellow;
            timer := 0;
          }
        case Yellow =>
          if timer >= YELLOW_DURATION {
            state := SafetyDelay;
            timer := 0;
            registry.currentGreen := null;
          }
        case SafetyDelay =>
          if timer >= SAFETY_DELAY {
            state := Red;
            timer := 0;
            if otherLight.state == Red {
              if ShouldSwitch(waitingCars, otherLight.waitingCars, otherLight.totalWaitTime) {
                otherLight.state := Green;
                registry.currentGreen := otherLight;
                otherLight.timer := 0;
                otherLight.totalWaitTime := 0;
              }
            }
          }
        case Red =>
      }
      if state == Red && waitingCars > 0 {
        totalWaitTime := totalWaitTime + 1;
      }
    }

    /** `request_green`: a car arriving adds exactly one to the queue; nothing else changes. */
    method RequestGreen()
      modifies this
      ensures Snapshot() == old(Snapshot()).(waitingCars := old(waitingCars) + 1)
      ensures otherLight == old(otherLight)
    {
      waitingCars := waitingCars + 1;
    }

    /** `is_green`. */
    predicate IsGreen() reads this {
      state == Green
    }
  }
}
