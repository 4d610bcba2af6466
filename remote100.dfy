/**
 * The part of the remote-control screen that decides what to send and what
 * to show: the joystick thresholds, the gear bar with its accept-or-roll-back
 * rule, the status label with its change latch, and the gear reset.  The
 * widgets are reduced to the values they display, and the engine is reached
 * through the static wrappers of `Car100.Api`.
 */
module Remote100 {
  import opened Base
  import opened Protocol
  import opened Transport
  import opened Car100Model
  import opened Car100

  /** How far the joystick must leave the centre, on either axis, before it counts. */
  const DeadZone := 5

  /** The steering a horizontal joystick position asks for. */
  function JoystickDir(x: int): (d: Byte)
    ensures IsDir(d)
    ensures d == DirLeft <==> x < -DeadZone
    ensures d == DirRight <==> x > DeadZone
  {
    if x < -DeadZone then DirLeft else if x > DeadZone then DirRight else DirStraight
  }

  /** The acceleration a vertical joystick position asks for (up is positive). */
  function JoystickAcc(y: int): (a: Byte)
    ensures IsAcc(a)
    ensures a == AccForward <==> y > DeadZone
    ensures a == AccReverse <==> y < -DeadZone
  {
    if y > DeadZone then AccForward else if y < -DeadZone then AccReverse else AccStop
  }

  /** Moving the stick further in one direction never asks for the opposite one. */
  lemma JoystickMonotone(p: int, q: int)
    requires p <= q
    ensures JoystickDir(p) <= JoystickDir(q)
    ensures JoystickAcc(p) <= JoystickAcc(q)
  {
  }

  /** What one joystick event does to a connected engine: `setDir`, then `setAcc`, each behind its wrapper. */
  function MoveStep(k: Conn, x: int, y: int, now: int): (r: Conn)
    ensures r.car.gear == k.car.gear
    ensures r.car.status == k.car.status || r.car.status == NoLink
    ensures r.link.pending == k.link.pending
  {
    var k1 := Guard(DirStep(k, JoystickDir(x), now)).0;
    Guard(AccStep(k1, JoystickAcc(y), now)).0
  }

  /** The joystick never sends a value the engine rejects: both setters only return or fail on I/O. */
  lemma JoystickNeverRejected(k: Conn, x: int, y: int, now: int)
    requires k.car.IntentValid()
    ensures Guard(DirStep(k, JoystickDir(x), now)).1 != IllegalArgument
    ensures Guard(AccStep(k, JoystickAcc(y), now)).1 != IllegalArgument
  {
    var d, a := JoystickDir(x), JoystickAcc(y);
    if k.car.dir != d {
      var release := ReleaseKey(k.car.dir);
      var (k1, ok1) := if release.Some? then SendStep(k, release, now) else (k, true);
      assert ok1 ==> DirStep(k, d, now).1 != BadArgument;
    }
    if k.car.acc != a {
      assert AccKey(a).Some?;
    }
  }

  /**
   * On a link that does not fail, one joystick event leaves the engine steering
   * and accelerating as the stick says, with gear and status untouched; it
   * sends the direction keys first and then the acceleration key, each only
   * when that intent changes.
   */
  lemma JoystickDrivesCar(k: Conn, x: int, y: int, now: int)
    requires k.link.budget.Unlimited? && k.car.IntentValid()
    ensures var r := MoveStep(k, x, y, now);
            r.car.dir == JoystickDir(x) && r.car.acc == JoystickAcc(y) &&
            r.car.gear == k.car.gear && r.car.status == k.car.status &&
            r.link == k.link.(written := k.link.written + MoveLines(k.car, x, y))
  {
    var k1 := Guard(DirStep(k, JoystickDir(x), now)).0;
    SteerHealthy(k, JoystickDir(x), now);
    AccelerateHealthy(k1, JoystickAcc(y), now);
  }

  /** `setDir` with a valid direction on a healthy link, whether or not it changes anything. */
  lemma SteerHealthy(k: Conn, d: Byte, now: int)
    requires k.link.budget.Unlimited? && k.car.IntentValid() && IsDir(d)
    ensures var r := Guard(DirStep(k, d, now));
            r.1 == Returned(true) &&
            r.0.car == k.car.(dir := d, lastData := r.0.car.lastData) &&
            r.0.link == k.link.(written := k.link.written + (if d == k.car.dir then [] else Outgoing(Commands(DirPayloads(k.car.dir, d)))))
  {
    if d != k.car.dir {
      DirHealthy(k, d, now);
    } else {
      assert k.link.written + [] == k.link.written;
    }
  }

  /** `setAcc` with a valid acceleration on a healthy link, whether or not it changes anything. */
  lemma AccelerateHealthy(k: Conn, a: Byte, now: int)
    requires k.link.budget.Unlimited? && IsAcc(a)
    ensures var r := Guard(AccStep(k, a, now));
            r.1 == Returned(true) &&
            r.0.car == k.car.(acc := a, lastData := r.0.car.lastData) &&
            r.0.link == k.link.(written := k.link.written + (if a == k.car.acc then [] else Frame(AccKey(a))))
  {
    if a != k.car.acc {
      AccHealthy(k, a, now);
    } else {
      assert k.link.written + [] == k.link.written;
    }
  }

  /** The `write` calls of one joystick event on a healthy link. */
  function MoveLines(c: Car, x: int, y: int): seq<string>
  {
    var d, a := JoystickDir(x), JoystickAcc(y);
    (if d == c.dir then [] else Outgoing(Commands(DirPayloads(c.dir, d)))) +
    (if a == c.acc then [] else Frame(AccKey(a)))
  }

  /** The screen: what the gear bar, gear label, status label and controls show. */
  class Activity {
    var currGear: int          // the gear bar position last accepted
    var lastStatus: Byte       // the status last passed to `setStatus`; -1 before the first
    var barProgress: int       // the gear bar's position
    var gearText: int          // the number on the gear label
    var shown: seq<Status>     // every status the label was set to, in order
    var iconShown: bool        // whether the status icon is visible
    var controlsVisible: bool  // whether the gear bar and the joystick are visible
    var queuedResets: nat      // `resetUI` calls posted to run later

    /** The screen agrees with its fields: the label shows the gear, and the last status is the one displayed. */
    ghost predicate Valid()
      reads this
    {
      gearText == currGear + 1 &&
      (lastStatus == -1 || StatusOf(lastStatus).Some?) &&
      (lastStatus != -1 ==>
         shown != [] && Code(shown[|shown| - 1]) == lastStatus &&
         controlsVisible == (shown[|shown| - 1] == Ready) && iconShown == !controlsVisible)
    }

    /** The field initialisers, with the bar and label showing the starting gear. */
    constructor ()
      ensures Valid()
      ensures currGear == 1 && lastStatus == -1 && barProgress == 1 && gearText == 2
      ensures shown == [] && queuedResets == 0
    {
      currGear, lastStatus, barProgress, gearText := 1, -1, 1, 2;
      shown, iconShown, controlsVisible, queuedResets := [], false, false, 0;
    }

    /**
     * `setStatus`: the screen is refreshed only when the status differs from
     * the last one; the icon shows for every status but READY, the controls
     * only for READY, and a change to READY also posts a `resetUI`.  An unknown
     * status that differs from the last one is an IllegalArgumentException
     * (`ok` false) raised before anything changes.
     */
    method SetStatus(status: Byte) returns (ok: bool)
      requires Valid()
      modifies this
      ensures Valid()
      ensures ok <==> status == old(lastStatus) || StatusOf(status).Some?
      ensures ok ==> lastStatus == status
      ensures status == old(lastStatus) || !ok ==>
                shown == old(shown) && iconShown == old(iconShown) &&
                controlsVisible == old(controlsVisible) && queuedResets == old(queuedResets)
      ensures status != old(lastStatus) && ok ==>
                var s := StatusOf(status).value;
                shown == old(shown) + [s] && controlsVisible == (s == Ready) && iconShown == (s != Ready) &&
                queuedResets == old(queuedResets) + (if s == Ready then 1 else 0)
      ensures !ok ==> lastStatus == old(lastStatus)
      ensures currGear == old(currGear) && barProgress == old(barProgress) && gearText == old(gearText)
    {
      if status != lastStatus {
        var s := StatusOf(status);
        if s.None? {
          return false;
        }
        CodeRoundTrip(s.value);
        shown := shown + [s.value];
        iconShown := s.value != Ready;
        controlsVisible := s.value == Ready;
        if s.value == Ready {
          queuedResets := queuedResets + 1;
        }
      }
      lastStatus := status;
      ok := true;
    }

    /** `resetUI`: back to the bar's position 1, shown as gear 2, the gear the engine resets to. */
    method ResetUI()
      requires Valid()
      modifies this
      ensures Valid()
      ensures currGear == 1 && barProgress == 1 && gearText == 2
      ensures gearText == NeutralGear as int
      ensures lastStatus == old(lastStatus) && shown == old(shown) && queuedResets == old(queuedResets)
      ensures iconShown == old(iconShown) && controlsVisible == old(controlsVisible)
    {
      currGear := 1;
      barProgress := currGear;
      gearText := currGear + 1;
    }

    /** A posted `resetUI` runs. */
    method RunQueuedReset()
      requires Valid() && queuedResets > 0
      modifies this
      ensures Valid()
      ensures currGear == 1 && barProgress == 1 && gearText == 2 && queuedResets == old(queuedResets) - 1
      ensures lastStatus == old(lastStatus) && shown == old(shown)
      ensures iconShown == old(iconShown) && controlsVisible == old(controlsVisible)
    {
      ResetUI();
      queuedResets := queuedResets - 1;
    }

    /**
     * `onProgressChanged`: a move the program made itself is taken as is; a
     * move by the user asks for gear `p + 1` and is kept only if the engine
     * accepts it, otherwise the bar springs back.  The bar is already at `p`
     * when the callback runs.  An IllegalArgumentException
     * from the setter (`thrown`) leaves the screen as it was.
     */
    method OnProgressChanged(api: Api, p: int, fromUser: bool, now: int) returns (thrown: bool)
      requires Valid() && api.Valid()
      modifies this, api.Repr()
      ensures Valid() && api.Valid() && api.instance == old(api.instance)
      ensures lastStatus == old(lastStatus) && shown == old(shown) && queuedResets == old(queuedResets)
      ensures iconShown == old(iconShown) && controlsVisible == old(controlsVisible)
      ensures !fromUser ==>
                !thrown && currGear == p && barProgress == p &&
                (api.instance != null ==> api.instance.Snapshot() == old(api.instance.Snapshot()))
      ensures fromUser && old(api.instance) == null ==>
                !thrown && currGear == old(currGear) && barProgress == old(currGear)
      ensures fromUser && old(api.instance) != null ==>
                var step := Guard(GearStep(old(api.instance.Snapshot()), ToByte(p + 1), now));
                api.instance.Snapshot() == step.0 &&
                thrown == (step.1 == IllegalArgument) &&
                (step.1 == Returned(true) ==> currGear == p && barProgress == p) &&
                (step.1 != Returned(true) ==> currGear == old(currGear)) &&
                (step.1 == Returned(false) ==> barProgress == old(currGear)) &&
                (step.1 == IllegalArgument ==> barProgress == p)
    {
      barProgress := p;
      thrown := false;
      var accepted := true;
      if fromUser {
        var r := api.SetGear(ToByte(p + 1), now);
        if r == IllegalArgument {
          return true;
        }
        accepted := r.ok;
      }
      if accepted {
        currGear := p;
      } else {
        barProgress := currGear;
      }
      gearText := currGear + 1;
    }

    /** `onMoved`: the steering for `x`, then the acceleration for `y`, each through its wrapper. */
    method OnMoved(api: Api, x: int, y: int, now: int)
      requires api.Valid()
      modifies api.Repr()
      ensures api.Valid() && api.instance == old(api.instance)
      ensures old(api.instance) != null ==> api.instance.Snapshot() == MoveStep(old(api.instance.Snapshot()), x, y, now)
    {
      var _ := api.SetDir(JoystickDir(x), now);
      var _ := api.SetAcc(JoystickAcc(y), now);
    }
  }
}
