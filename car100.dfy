/**
 * The CAR-100 protocol engine as the object it is: `Engine` holds the fields
 * of one connection and changes them in place, and `Api` is the class's
 * static side, the `instance` reference and the wrappers that turn an
 * IOException into `false` and NO_LINK.  Every method is proved to do exactly
 * what the matching step function of module Car100Model says.
 */
module Car100 {
  import opened Base
  import opened Protocol
  import opened Transport
  import opened Car100Model

  /** One connection to the car (a `Car100` instance). */
  class Engine {
    const socket: Socket
    var status: Status
    var lastData: int
    var gear: Byte
    var acc: Byte
    var dir: Byte

    /** The engine's fields and the stream it owns, as one value. */
    function Snapshot(): Conn
      reads this, socket
    {
      Conn(Car(status, lastData, gear, acc, dir), socket.State())
    }

    /**
     * The constructor up to its final poll: CONNECTED, activity now, neutral
     * intent.  `Api.Connect` makes that first poll right after allocation.
     */
    constructor (socket: Socket, now: int)
      ensures this.socket == socket
      ensures Snapshot() == Conn(Car(Connected, now, NeutralGear, AccStop, DirStraight), socket.State())
    {
      this.socket := socket;
      status := Connected;
      lastData := now;
      new;
      Reset();
    }

    /** `mReset`. */
    method Reset()
      modifies this
      ensures Snapshot() == old(Snapshot()).(car := ResetIntent(old(Snapshot()).car))
    {
      dir := DirStraight;
      gear := NeutralGear;
      acc := AccStop;
    }

    /** `mSend`: CRLF, then the payload and CRLF when there is one; the activity time on success. */
    method Send(m: Msg, now: int) returns (ok: bool)
      modifies this, socket
      ensures (Snapshot(), ok) == SendStep(old(Snapshot()), m, now)
    {
      SendUnfolded(socket.State(), m);
      ok := socket.Write(CRLF);
      if ok && m.Some? {
        ok := socket.Write(m.value);
        if ok {
          ok := socket.Write(CRLF);
        }
      }
      if ok {
        lastData := now;
      }
    }

    /** `mGetStatus`: the dead-link check, the keep-alive condition, then read, classify and acknowledge. */
    method GetStatus(now: int) returns (r: Fallible<Status>)
      modifies this, socket
      ensures (Snapshot(), r) == PollStep(old(Snapshot()), now)
    {
      if status == NoLink {
        return Ok(NoLink);
      }
      var oldStatus := status;
      ghost var target := Exchange(status, lastData, socket.State(), now);
      var probe := socket.Available();
      if probe == Broken {
        status := NoLink;
        return LinkError;
      }
      if probe == Quiet && now - lastData > IdleLimit {
        var ok := Send(None, now);
        if !ok {
          status := NoLink;
          return LinkError;
        }
      }
      while probe == HasData
        invariant probe == ProbeOf(socket.State()) && probe != Broken
        invariant probe == HasData ==> Drain(status, lastData, socket.State(), now) == target
        invariant probe == Quiet ==> Drained(status, lastData, socket.State(), true) == target
        invariant gear == old(gear) && acc == old(acc) && dir == old(dir)
        decreases |socket.pending|
      {
        var c := socket.Read();
        lastData := now;
        if c.Eof? {
          status := NoLink;
          return LinkError;
        }
        status := Classify(c.text, status);
        var ok := Send(Some(Ack), now);
        if !ok {
          status := NoLink;
          return LinkError;
        }
        probe := socket.Available();
        if probe == Broken {
          status := NoLink;
          return LinkError;
        }
      }
      if oldStatus != status {
        Reset();
      }
      return Ok(status);
    }

    /** `mSetGear`. */
    method SetGear(g: Byte, now: int) returns (o: Outcome)
      modifies this, socket
      ensures (Snapshot(), o) == GearStep(old(Snapshot()), g, now)
    {
      if gear != g {
        var key := GearKey(g);
        if key.None? {
          return BadArgument;
        }
        var ok := Send(key, now);
        if !ok {
          return IoError;
        }
        gear := g;
      }
      return Done;
    }

    /** `mSetAcc`. */
    method SetAcc(a: Byte, now: int) returns (o: Outcome)
      modifies this, socket
      ensures (Snapshot(), o) == AccStep(old(Snapshot()), a, now)
    {
      if acc != a {
        var key := AccKey(a);
        if key.None? {
          return BadArgument;
        }
        var ok := Send(key, now);
        if !ok {
          return IoError;
        }
        acc := a;
      }
      return Done;
    }

    /** `mSetDir`: release the old key if one is held, then press the new one. */
    method SetDir(d: Byte, now: int) returns (o: Outcome)
      modifies this, socket
      ensures (Snapshot(), o) == DirStep(old(Snapshot()), d, now)
    {
      if dir != d {
        var release := ReleaseKey(dir);
        if release.Some? {
          var ok := Send(release, now);
          if !ok {
            return IoError;
          }
        }
        if !IsDir(d) {
          return BadArgument;
        }
        var press := PressKey(d);
        if press.Some? {
          var ok := Send(press, now);
          if !ok {
            return IoError;
          }
        }
        dir := d;
      }
      return Done;
    }

    /** `mClose`. */
    method Close(now: int) returns (o: Outcome)
      modifies this, socket
      ensures (Snapshot(), o) == CloseStep(old(Snapshot()), now)
    {
      var ok := Send(Some(NoPressed), now);
      if !ok {
        return IoError;
      }
      ok := Send(Some(NoReleased), now);
      if !ok {
        return IoError;
      }
      status := NoLink;
      ok := socket.Close();
      if !ok {
        return IoError;
      }
      return Done;
    }
  }

  /** The static side of `Car100`: the current instance and the public wrappers. */
  class Api {
    var instance: Engine?

    ghost function Repr(): set<object>
      reads this, instance
    {
      {this} + if instance == null then {} else {instance, instance.socket}
    }

    ghost predicate Valid()
      reads this, instance
    {
      instance != null ==> Car(instance.status, instance.lastData, instance.gear, instance.acc, instance.dir).IntentValid()
    }

    constructor ()
      ensures Valid() && instance == null
    {
      instance := null;
    }

    /** `getStatus`: NO_LINK without an instance, otherwise the instance's poll. */
    method GetStatus(now: int) returns (r: Fallible<Status>)
      requires Valid()
      modifies Repr()
      ensures Valid() && instance == old(instance)
      ensures old(instance) == null ==> r == Ok(NoLink)
      ensures old(instance) != null ==> (instance.Snapshot(), r) == PollStep(old(instance.Snapshot()), now)
    {
      if instance == null {
        return Ok(NoLink);
      }
      PollKeepsIntentValid(instance.Snapshot(), now);
      r := instance.GetStatus(now);
    }

    /** `setGear`: false without an instance; an IOException becomes false and NO_LINK. */
    method SetGear(g: Byte, now: int) returns (r: Reply)
      requires Valid()
      modifies Repr()
      ensures Valid() && instance == old(instance)
      ensures old(instance) == null ==> r == Returned(false)
      ensures old(instance) != null ==> (instance.Snapshot(), r) == Guard(GearStep(old(instance.Snapshot()), g, now))
    {
      if instance == null {
        return Returned(false);
      }
      StepsKeepIntentValid(instance.Snapshot(), g, now);
      var o := instance.SetGear(g, now);
      r := Settle(o);
    }

    /** `setAcc`. */
    method SetAcc(a: Byte, now: int) returns (r: Reply)
      requires Valid()
      modifies Repr()
      ensures Valid() && instance == old(instance)
      ensures old(instance) == null ==> r == Returned(false)
      ensures old(instance) != null ==> (instance.Snapshot(), r) == Guard(AccStep(old(instance.Snapshot()), a, now))
    {
      if instance == null {
        return Returned(false);
      }
      StepsKeepIntentValid(instance.Snapshot(), a, now);
      var o := instance.SetAcc(a, now);
      r := Settle(o);
    }

    /** `setDir`. */
    method SetDir(d: Byte, now: int) returns (r: Reply)
      requires Valid()
      modifies Repr()
      ensures Valid() && instance == old(instance)
      ensures old(instance) == null ==> r == Returned(false)
      ensures old(instance) != null ==> (instance.Snapshot(), r) == Guard(DirStep(old(instance.Snapshot()), d, now))
    {
      if instance == null {
        return Returned(false);
      }
      StepsKeepIntentValid(instance.Snapshot(), d, now);
      var o := instance.SetDir(d, now);
      r := Settle(o);
    }

    /** The `catch (IOException e)` of the setters. */
    method Settle(o: Outcome) returns (r: Reply)
      requires instance != null
      modifies instance
      ensures instance == old(instance)
      ensures (instance.Snapshot(), r) == Guard((old(instance.Snapshot()), o))
    {
      if o == IoError {
        instance.status := NoLink;
        return Returned(false);
      }
      r := if o == Done then Returned(true) else IllegalArgument;
    }

    /** `close`: on success the instance is dropped; an IOException keeps it, at NO_LINK. */
    method Close(now: int) returns (ok: bool)
      requires Valid()
      modifies Repr()
      ensures Valid()
      ensures old(instance) == null ==> !ok && instance == null
      ensures old(instance) != null ==>
                var step := CloseStep(old(instance.Snapshot()), now);
                ok == (step.1 == Done) &&
                old(instance).Snapshot() == Guard(step).0 &&
                instance == if ok then null else old(instance)
    {
      if instance == null {
        return false;
      }
      StepsKeepIntentValid(instance.Snapshot(), 0, now);
      var o := instance.Close(now);
      if o != Done {
        instance.status := NoLink;
        return false;
      }
      instance := null;
      return true;
    }

    /**
     * `connect`: close any previous instance, connect the socket, build the
     * engine and make its first poll; any IOException leaves no instance.
     */
    method Connect(sock: Socket, now: int) returns (ok: bool)
      requires Valid()
      modifies Repr(), sock
      ensures Valid()
      ensures ok ==> instance != null && fresh(instance) && instance.socket == sock
      ensures !ok ==> instance == null
      ensures old(instance) != null && old(instance).socket != sock ==>
                old(instance).Snapshot() == Guard(CloseStep(old(instance.Snapshot()), now)).0
      ensures old(instance) == null || old(instance).socket != sock ==>
                var first := PollStep(Conn(Car(Connected, now, NeutralGear, AccStop, DirStraight), old(sock.State())), now);
                ok == (sock.reachable && first.1.Ok?) &&
                (!sock.reachable ==> sock.State() == old(sock.State())) &&
                (ok ==> instance.Snapshot() == first.0)
    {
      var _ := Close(now);
      var up := sock.Connect();
      if !up {
        instance := null;
        return false;
      }
      var e := new Engine(sock, now);
      PollKeepsIntentValid(e.Snapshot(), now);
      var r := e.GetStatus(now);
      if r == LinkError {
        instance := null;
        return false;
      }
      instance := e;
      return true;
    }
  }
}
